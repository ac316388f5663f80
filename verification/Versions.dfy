/** Optimistic concurrency: an actor that finds the version it read still current
    holds exactly the stored object, whatever happened in between. */
module Versions {
  import opened Objects
  import opened Cluster

  ghost predicate DriveRead(s: State, d: DriveID, drive: Drive) {
    && drive.version <= s.clock
    && (DriveCurrent(s, d, drive) ==> s.drives[d] == drive)
  }

  ghost predicate VolumeRead(s: State, v: VolumeName, vol: Volume) {
    && vol.version <= s.clock
    && (VolumeCurrent(s, v, vol) ==> s.volumes[v] == vol)
  }

  ghost predicate CallRead(s: State, v: VolumeName, call: Call) {
    match call
    case Listing(req, pending, matched) => forall c :: c in matched ==> DriveRead(s, c.id, c.drive)
    case Chosen(req, pick) => DriveRead(s, pick.id, pick.drive)
    case Reusing(req, pick, vol) => DriveRead(s, pick.id, pick.drive) && VolumeRead(s, v, vol)
    case Recorded(req, pick) => DriveRead(s, pick.id, pick.drive)
    case DeleteRead(vol) => VolumeRead(s, v, vol)
    case DeleteUnprotected => true
    case ExpandRead(want, vol) => VolumeRead(s, v, vol)
    case ExpandPlaced(want, vol, drive) => VolumeRead(s, v, vol) && DriveRead(s, vol.driveLabel, drive)
    case StageRead(vol) => VolumeRead(s, v, vol)
    case StageLimited(vol) => VolumeRead(s, v, vol)
    case GrowRead(want, vol) => VolumeRead(s, v, vol)
    case GrowLimited(want, vol) => VolumeRead(s, v, vol)
  }

  ghost predicate ReleaseReads(s: State, v: VolumeName, call: ReleaseCall) {
    && VolumeRead(s, v, call.vol)
    && (call.ReleasePlaced? ==> DriveRead(s, call.vol.driveLabel, call.drive))
  }

  ghost predicate MoveRead(s: State, call: MoveCall) {
    && DriveRead(s, call.src, call.source)
    && (call.Aiming? ==> DriveRead(s, call.dst, call.target))
  }

  ghost predicate HandlerReads(s: State, d: DriveID, call: HandlerCall) {
    && DriveRead(s, d, call.drive)
    && (call.Repointing? && call.at < |Walk(call)| ==> VolumeRead(s, Walk(call)[call.at], call.vol))
  }

  /** Every copy in flight is of the past, and equals the store if its version does. */
  ghost predicate Consistent(s: State) {
    && (forall d :: d in s.drives ==> s.drives[d].version <= s.clock)
    && (forall v :: v in s.volumes ==> s.volumes[v].version <= s.clock)
    && (forall v :: v in s.calls ==> CallRead(s, v, s.calls[v]))
    && (forall v :: v in s.releases ==> ReleaseReads(s, v, s.releases[v]))
    && (forall m :: m in s.moves ==> MoveRead(s, s.moves[m]))
    && (forall d :: d in s.caches ==> DriveRead(s, d, s.caches[d]))
    && (forall d :: d in s.handlers ==> HandlerReads(s, d, s.handlers[d]))
  }

  /** The store only moves forward: what differs carries a newer version. */
  ghost predicate Later(s: State, s': State) {
    && s.clock <= s'.clock
    && (forall d :: d in s'.drives ==>
          (d in s.drives && s'.drives[d] == s.drives[d]) || s.clock < s'.drives[d].version <= s'.clock)
    && (forall v :: v in s'.volumes ==>
          (v in s.volumes && s'.volumes[v] == s.volumes[v]) || s.clock < s'.volumes[v].version <= s'.clock)
  }

  lemma CallReadLater(s: State, s': State, v: VolumeName, call: Call)
    requires Later(s, s') && CallRead(s, v, call)
    ensures CallRead(s', v, call)
  {
    assert forall d, drive: Drive :: DriveRead(s, d, drive) ==> DriveRead(s', d, drive);
    assert forall vol: Volume :: VolumeRead(s, v, vol) ==> VolumeRead(s', v, vol);
  }

  lemma ApplyLater(s: State, e: Event)
    requires Enabled(s, e)
    ensures Later(s, Apply(s, e))
  {
    var w := WriteOf(s, e);
  }

  lemma CallAfter(s: State, v: VolumeName, e: Event)
    requires Consistent(s) && Enabled(s, e) && Later(s, Apply(s, e))
    requires v in Apply(s, e).calls
    ensures CallRead(Apply(s, e), v, Apply(s, e).calls[v])
  {
    var s' := Apply(s, e);
    if e.OnCreate? && e.v == v {
      NewCreateRead(s, v, e.create);
    }
    CallReadLater(s, s', v, s'.calls[v]);
  }

  /** What CreateVolume holds after a step was read from the store as it was. */
  lemma NewCreateRead(s: State, v: VolumeName, e: CreateStep)
    requires Consistent(s) && CreateEnabled(s, v, e) && CreateNext(s, v, e).Some?
    ensures CallRead(s, v, CreateNext(s, v, e).value)
  {
    if !e.StartCreate? {
      assert CallRead(s, v, s.calls[v]);
    }
  }

  lemma ReleaseAfter(s: State, v: VolumeName, e: Event)
    requires Consistent(s) && Enabled(s, e) && Later(s, Apply(s, e))
    requires v in Apply(s, e).releases
    ensures ReleaseReads(Apply(s, e), v, Apply(s, e).releases[v])
  {
    var s' := Apply(s, e);
    assert v in s.releases ==> ReleaseReads(s, v, s.releases[v]);
    var call := s'.releases[v];
    assert ReleaseReads(s, v, call);
  }

  lemma MoveAfter(s: State, m: nat, e: Event)
    requires Consistent(s) && Enabled(s, e) && Later(s, Apply(s, e))
    requires m in Apply(s, e).moves
    ensures MoveRead(Apply(s, e), Apply(s, e).moves[m])
  {
    var s' := Apply(s, e);
    assert m in s.moves ==> MoveRead(s, s.moves[m]);
    var call := s'.moves[m];
    assert MoveRead(s, call);
  }

  lemma HandlerAfter(s: State, d: DriveID, e: Event)
    requires Consistent(s) && Enabled(s, e) && Later(s, Apply(s, e))
    requires d in Apply(s, e).handlers
    ensures HandlerReads(Apply(s, e), d, Apply(s, e).handlers[d])
  {
    var call := Apply(s, e).handlers[d];
    if e.OnHandler? && e.d == d {
      NewHandlerRead(s, d, e.handler);
    } else {
      assert HandlerReads(s, d, s.handlers[d]);
    }
    HandlerReadLater(s, Apply(s, e), d, call);
  }

  /** What the handler holds after a step was read from the store as it was. */
  lemma NewHandlerRead(s: State, d: DriveID, e: HandlerStep)
    requires Consistent(s) && HandlerEnabled(s, d, e) && HandlerNext(s, d, e).Some?
    ensures HandlerReads(s, d, HandlerNext(s, d, e).value)
  {
    if d in s.handlers {
      assert HandlerReads(s, d, s.handlers[d]);
    }
  }

  lemma HandlerReadLater(s: State, s': State, d: DriveID, call: HandlerCall)
    requires Later(s, s') && HandlerReads(s, d, call)
    ensures HandlerReads(s', d, call)
  {
  }

  /** Consistency is kept by every event, Move included. */
  lemma ConsistentStep(s: State, e: Event)
    requires Consistent(s) && Enabled(s, e)
    ensures Consistent(Apply(s, e))
  {
    ApplyLater(s, e);
    var s' := Apply(s, e);
    forall v | v in s'.calls ensures CallRead(s', v, s'.calls[v]) { CallAfter(s, v, e); }
    forall v | v in s'.releases ensures ReleaseReads(s', v, s'.releases[v]) { ReleaseAfter(s, v, e); }
    forall m | m in s'.moves ensures MoveRead(s', s'.moves[m]) { MoveAfter(s, m, e); }
    forall d | d in s'.handlers ensures HandlerReads(s', d, s'.handlers[d]) { HandlerAfter(s, d, e); }
  }
}
