/** The move handler among all other actors: whose name a record carries, and when a Moving drive
    that turns Ready has every listed record pointing at it. Holds of every run, Move included. */
module Handover {
  import opened Objects
  import opened Cluster
  import opened Versions
  import opened Removal
  import opened Placement

  // ---------------------------------------------------------------- records name one drive

  ghost predicate PickAgrees(call: Call) {
    match call
    case Listing(req, pending, matched) => forall c :: c in matched ==> c.drive.fsuuid == c.id
    case Chosen(req, pick) => pick.drive.fsuuid == pick.id
    case Reusing(req, pick, vol) => pick.drive.fsuuid == pick.id
    case Recorded(req, pick) => pick.drive.fsuuid == pick.id
    case _ => true
  }

  /** Label and FSUUID name the same drive, and only the delete handler's purge lets a record go. */
  ghost predicate RecordAgrees(vol: Volume) {
    vol.fsuuid == vol.driveLabel && PurgeProtection in vol.fins
  }

  ghost predicate Agreed(s: State) {
    && (forall d :: d in s.drives ==> s.drives[d].fsuuid == d)
    && (forall v :: v in s.volumes ==> RecordAgrees(s.volumes[v]))
    && (forall v :: v in s.calls ==> PickAgrees(s.calls[v]))
    && (forall v :: v in s.releases ==> s.releases[v].vol.deleting && IsReleased(s.releases[v].vol))
    && (forall d :: d in s.caches ==> s.caches[d].fsuuid == d)
    && (forall d :: d in s.handlers ==> s.handlers[d].drive.fsuuid == d)
  }

  lemma DriveWriteAgrees(s: State, e: Event)
    requires Consistent(s) && Agreed(s) && Enabled(s, e)
    ensures WriteOf(s, e).PutDrive? ==> WriteOf(s, e).drive.fsuuid == WriteOf(s, e).d
  {
    match e
    case OnDrive(d, step) =>
    case OnCreate(v, step) => if v in s.calls { assert PickAgrees(s.calls[v]); }
    case OnVolume(v, step) => if v in s.calls { assert CallRead(s, v, s.calls[v]); }
    case OnRelease(v, step) => if v in s.releases { assert ReleaseReads(s, v, s.releases[v]); }
    case OnMove(m, step) => MoveWriteAgrees(s, m, step);
    case OnHandler(d, step) =>
  }

  lemma MoveWriteAgrees(s: State, m: nat, e: MoveStep)
    requires Consistent(s) && Agreed(s) && MoveEnabled(s, m, e)
    ensures MoveWrite(s, m, e).PutDrive? ==> MoveWrite(s, m, e).drive.fsuuid == MoveWrite(s, m, e).d
  {
    if m in s.moves {
      assert MoveRead(s, s.moves[m]);
      if e.LandMove? { TakeInKeeps(s.moves[m].target, s.moves[m].got); }
    }
  }

  // ---------------------------------------------------------------- who labels a record

  /** The drive an event writes into the record of `v`, if it labels it at all. */
  function Labels(s: State, e: Event, v: VolumeName): Option<DriveID>
    requires Enabled(s, e)
  {
    if e == OnCreate(v, CreateRecord) || e == OnCreate(v, RewriteRecord) then Some(s.calls[v].pick.id)
    else if e.OnHandler? && (e.handler.StageVolume? || e.handler.PointVolume?)
            && Walk(s.handlers[e.d])[s.handlers[e.d].at] == v then Some(e.d)
    else None
  }

  predicate Removes(e: Event, v: VolumeName) {
    e == OnRelease(v, Purge)
  }

  /** The record of `v` names `d` in both places. */
  ghost predicate Points(s: State, v: VolumeName, d: DriveID) {
    v in s.volumes && s.volumes[v].fsuuid == d && s.volumes[v].driveLabel == d
  }

  /** What an event writes into a record: its own label, or the label that was there. */
  ghost predicate WritesLabel(s: State, e: Event, v: VolumeName, vol: Volume)
    requires Enabled(s, e)
  {
    match Labels(s, e, v)
    case Some(d) => vol.driveLabel == d
    case None => v in s.volumes && vol.driveLabel == s.volumes[v].driveLabel
  }

  lemma VolumeLabels(s: State, v: VolumeName, e: VolumeStep)
    requires Consistent(s) && Agreed(s) && VolumeEnabled(s, v, e) && VolumeWrite(s, v, e).PutVolume?
    ensures VolumeWrite(s, v, e).v == v && RecordAgrees(VolumeWrite(s, v, e).vol)
    ensures WritesLabel(s, OnVolume(v, e), v, VolumeWrite(s, v, e).vol)
  {
    if v in s.calls { assert CallRead(s, v, s.calls[v]); }
    assert RecordAgrees(s.volumes[v]);
    if e.Unprotect? {
      WithoutFinalizerMember(s.calls[v].vol.fins, PVProtection, PurgeProtection);
    }
  }

  lemma PurgeVanishes(s: State, v: VolumeName)
    requires Agreed(s) && ReleaseEnabled(s, v, Purge)
    ensures ReleaseWrite(s, v, Purge).vol.deleting && ReleaseWrite(s, v, Purge).vol.fins == []
  {
    var fins := s.releases[v].vol.fins;
    assert fins[..0] == [] && WithoutFinalizer([], PurgeProtection) == [];
    assert WithoutFinalizer(fins, PurgeProtection) == WithoutFinalizer(fins[..0], PurgeProtection) + [];
  }

  /** The record of `v` after an event: relabelled, gone by the purge, or as it was. */
  lemma WriteLabels(s: State, e: Event, v: VolumeName)
    requires Consistent(s) && Agreed(s) && Enabled(s, e)
    ensures
      var w := WriteOf(s, e);
      if w.PutVolume? && w.v == v then
        if Removes(e, v) then w.vol.deleting && w.vol.fins == []
        else RecordAgrees(w.vol) && WritesLabel(s, e, v, w.vol)
      else Labels(s, e, v) == None && !Removes(e, v)
  {
    match e
    case OnCreate(u, step) =>
    case OnVolume(u, step) => if VolumeWrite(s, u, step).PutVolume? { VolumeLabels(s, u, step); }
    case OnRelease(u, step) => if step.Purge? { PurgeVanishes(s, u); }
    case OnHandler(d, step) =>
    case _ =>
  }

  lemma StoredVolume(s: State, w: Write, v: VolumeName)
    ensures
      var after := VolumesAfter(s, w);
      if w.PutVolume? && w.v == v then
        if w.vol.deleting && w.vol.fins == [] then v !in after
        else v in after && after[v] == w.vol.(version := s.clock + 1)
      else (v in after <==> v in s.volumes) && (v in after ==> after[v] == s.volumes[v])
  {
  }

  /** Exactly what an event does to the name in a record. */
  lemma PointsAfter(s: State, e: Event, v: VolumeName, d: DriveID)
    requires Consistent(s) && Agreed(s) && Enabled(s, e)
    ensures Points(Apply(s, e), v, d) <==>
            match Labels(s, e, v)
            case Some(x) => x == d
            case None => Points(s, v, d) && !Removes(e, v)
  {
    WriteLabels(s, e, v);
    StoredVolume(s, WriteOf(s, e), v);
  }

  // ---------------------------------------------------------------- kept by every event

  lemma CallsAgree(s: State, e: Event)
    requires Agreed(s) && Enabled(s, e)
    ensures forall v :: v in Apply(s, e).calls ==> PickAgrees(Apply(s, e).calls[v])
  {
    forall v | v in Apply(s, e).calls ensures PickAgrees(Apply(s, e).calls[v]) {
      if e.OnCreate? && e.v == v { NextPickAgrees(s, v, e.create); }
    }
  }

  lemma NextPickAgrees(s: State, v: VolumeName, e: CreateStep)
    requires Agreed(s) && CreateEnabled(s, v, e) && CreateNext(s, v, e).Some?
    ensures PickAgrees(CreateNext(s, v, e).value)
  {
    if v in s.calls { assert PickAgrees(s.calls[v]); }
  }

  lemma ReleasesAgree(s: State, e: Event)
    requires Agreed(s) && Enabled(s, e)
    ensures forall v :: v in Apply(s, e).releases ==>
              Apply(s, e).releases[v].vol.deleting && IsReleased(Apply(s, e).releases[v].vol)
  {
  }

  lemma HandlersAgree(s: State, e: Event)
    requires Agreed(s) && Enabled(s, e)
    ensures forall d :: d in Apply(s, e).caches ==> Apply(s, e).caches[d].fsuuid == d
    ensures forall d :: d in Apply(s, e).handlers ==> Apply(s, e).handlers[d].drive.fsuuid == d
  {
  }

  lemma RecordsAgree(s: State, e: Event)
    requires Consistent(s) && Agreed(s) && Enabled(s, e)
    ensures forall v :: v in VolumesAfter(s, WriteOf(s, e)) ==> RecordAgrees(VolumesAfter(s, WriteOf(s, e))[v])
  {
    var w := WriteOf(s, e);
    forall v | v in VolumesAfter(s, w) ensures RecordAgrees(VolumesAfter(s, w)[v]) {
      WriteLabels(s, e, v);
      StoredVolume(s, w, v);
    }
  }

  /** Label and FSUUID of every record name the same drive, after every event of every actor. */
  lemma AgreedStep(s: State, e: Event)
    requires Consistent(s) && Agreed(s) && Enabled(s, e)
    ensures Agreed(Apply(s, e))
  {
    DriveWriteAgrees(s, e);
    RecordsAgree(s, e);
    CallsAgree(s, e);
    ReleasesAgree(s, e);
    HandlersAgree(s, e);
  }

  lemma {:induction false} AgreedRun(s: State, es: seq<Event>)
    requires Consistent(s) && Agreed(s) && Runs(s, es)
    ensures Consistent(After(s, es)) && Agreed(After(s, es))
    decreases |es|
  {
    if es != [] {
      ConsistentStep(s, es[0]);
      AgreedStep(s, es[0]);
      AgreedRun(Apply(s, es[0]), es[1..]);
    }
  }

  // ---------------------------------------------------------------- what a handler has done

  /** The volumes a handler is past. */
  function Passed(s: State, d: DriveID): set<VolumeName> {
    if d !in s.handlers then {}
    else set i | 0 <= i < s.handlers[d].at && i < |Walk(s.handlers[d])| :: Walk(s.handlers[d])[i]
  }

  /** The event takes the record of `v` away from `d`. */
  predicate Diverts(s: State, e: Event, v: VolumeName, d: DriveID)
    requires Enabled(s, e)
  {
    match Labels(s, e, v)
    case Some(x) => x != d
    case None => Removes(e, v)
  }

  /** The passed volumes whose last labelling, or removal, was somebody else's. */
  function AstrayAfter(s: State, e: Event, d: DriveID, astray: set<VolumeName>): set<VolumeName>
    requires Enabled(s, e)
  {
    set v | v in Passed(Apply(s, e), d) && (Diverts(s, e, v, d) || (v in astray && Labels(s, e, v) == None))
  }

  ghost function Astray(s: State, es: seq<Event>, d: DriveID, astray: set<VolumeName>): set<VolumeName>
    requires Runs(s, es)
    decreases |es|
  {
    if es == [] then astray else Astray(Apply(s, es[0]), es[1..], d, AstrayAfter(s, es[0], d, astray))
  }

  ghost predicate Tallied(s: State, d: DriveID, astray: set<VolumeName>) {
    forall v :: v in astray <==> v in Passed(s, d) && !Points(s, v, d)
  }

  /** A volume is passed when its record names the drive. */
  lemma PassingPoints(s: State, e: Event, v: VolumeName, d: DriveID)
    requires Consistent(s) && Agreed(s) && Enabled(s, e)
    requires v in Passed(Apply(s, e), d) && v !in Passed(s, d)
    ensures (Points(s, v, d) && Labels(s, e, v) == None && !Removes(e, v)) || Labels(s, e, v) == Some(d)
  {
    assert e.OnHandler? && e.d == d;
    HandlerPasses(s, d, e.handler, v);
  }

  lemma HandlerPasses(s: State, d: DriveID, e: HandlerStep, v: VolumeName)
    requires Agreed(s) && HandlerEnabled(s, d, e)
    requires v in Passed(Apply(s, OnHandler(d, e)), d) && v !in Passed(s, d)
    ensures (Points(s, v, d) && Labels(s, OnHandler(d, e), v) == None) || Labels(s, OnHandler(d, e), v) == Some(d)
  {
    var s' := Apply(s, OnHandler(d, e));
    assert d in s.handlers ==> forall j :: 0 <= j < s.handlers[d].at && j < |Walk(s.handlers[d])| ==>
      Walk(s.handlers[d])[j] in Passed(s, d);
    var i :| 0 <= i < s'.handlers[d].at && i < |Walk(s'.handlers[d])| && Walk(s'.handlers[d])[i] == v;
  }

  lemma TalliedStep(s: State, e: Event, d: DriveID, astray: set<VolumeName>)
    requires Consistent(s) && Agreed(s) && Enabled(s, e) && Tallied(s, d, astray)
    ensures Tallied(Apply(s, e), d, AstrayAfter(s, e, d, astray))
  {
    forall v ensures v in AstrayAfter(s, e, d, astray) <==> v in Passed(Apply(s, e), d) && !Points(Apply(s, e), v, d) {
      PointsAfter(s, e, v, d);
      if v in Passed(Apply(s, e), d) && v !in Passed(s, d) {
        PassingPoints(s, e, v, d);
      }
    }
  }

  lemma {:induction false} TalliedRun(s: State, es: seq<Event>, d: DriveID, astray: set<VolumeName>)
    requires Consistent(s) && Agreed(s) && Runs(s, es) && Tallied(s, d, astray)
    ensures Tallied(After(s, es), d, Astray(s, es, d, astray))
    decreases |es|
  {
    if es != [] {
      TalliedStep(s, es[0], d, astray);
      ConsistentStep(s, es[0]);
      AgreedStep(s, es[0]);
      TalliedRun(Apply(s, es[0]), es[1..], d, AstrayAfter(s, es[0], d, astray));
    }
  }

  // ---------------------------------------------------------------- theorems

  lemma ReadyWritten(s: State, e: Event)
    requires Consistent(s) && Enabled(s, e)
    ensures
      var w := WriteOf(s, e);
      w.PutDrive? && w.d in s.drives && s.drives[w.d].status == Moving && w.drive.status == Ready ==>
        e == OnHandler(w.d, MarkReady)
  {
    match e
    case OnDrive(d, step) =>
    case OnCreate(v, step) => if v in s.calls { assert CallRead(s, v, s.calls[v]); }
    case OnVolume(v, step) => if v in s.calls { assert CallRead(s, v, s.calls[v]); }
    case OnRelease(v, step) => if v in s.releases { assert ReleaseReads(s, v, s.releases[v]); }
    case OnMove(m, step) => if m in s.moves { assert MoveRead(s, s.moves[m]); }
    case OnHandler(d, step) =>
  }

  /** A Moving drive is turned Ready by its handler's last write and by nothing else. */
  lemma MovingToReady(s: State, e: Event, d: DriveID)
    requires Consistent(s) && Enabled(s, e)
    requires d in s.drives && s.drives[d].status == Moving
    requires d in Apply(s, e).drives && Apply(s, e).drives[d].status == Ready
    ensures e == OnHandler(d, MarkReady)
  {
    ReadyWritten(s, e);
  }

  /** When the handler may turn the drive Ready, its list is the drive's and it is past all of it. */
  lemma ReadyListsAll(s: State, d: DriveID)
    requires Consistent(s) && Enabled(s, OnHandler(d, MarkReady))
    ensures d in s.drives && forall v :: Hosts(s.drives[d], v) <==> v in Passed(s, d)
  {
    assert HandlerReads(s, d, s.handlers[d]);
    var names := Walk(s.handlers[d]);
    forall v ensures Hosts(s.drives[d], v) <==> v in Passed(s, d) {
      VolumesOfMember(s.drives[d].fins, v);
      if v in names {
        var i :| 0 <= i < |names| && names[i] == v;
      }
    }
  }

  /** In every run, with every other writer in between: the drive turns Ready with all its listed
      records naming it if and only if no listed volume was, after the handler passed it, last
      labelled for another drive or removed. */
  lemma ReadyExactly(es: seq<Event>, d: DriveID)
    requires Runs(Empty(), es) && Enabled(After(Empty(), es), OnHandler(d, MarkReady))
    ensures
      var s := After(Empty(), es);
      && d in s.drives
      && ((forall v :: Hosts(s.drives[d], v) ==> Points(s, v, d)) <==> Astray(Empty(), es, d, {}) == {})
  {
    var s := After(Empty(), es);
    AgreedRun(Empty(), es);
    TalliedRun(Empty(), es, d, {});
    ReadyListsAll(s, d);
    var astray := Astray(Empty(), es, d, {});
    if astray != {} {
      var v :| v in astray;
      assert Hosts(s.drives[d], v) && !Points(s, v, d);
    }
  }

  /** No event diverts a volume the handler of `d` is past. */
  ghost predicate Undiverted(s: State, es: seq<Event>, d: DriveID)
    requires Runs(s, es)
    decreases |es|
  {
    es == [] || ((forall v :: v in Passed(s, d) ==> !Diverts(s, es[0], v, d)) && Undiverted(Apply(s, es[0]), es[1..], d))
  }

  lemma {:induction false} UndivertedRun(s: State, es: seq<Event>, d: DriveID)
    requires Consistent(s) && Agreed(s) && Runs(s, es) && Undiverted(s, es, d)
    ensures Astray(s, es, d, {}) == {}
    decreases |es|
  {
    if es != [] {
      forall v ensures v !in AstrayAfter(s, es[0], d, {}) {
        if v in Passed(Apply(s, es[0]), d) && v !in Passed(s, d) {
          PassingPoints(s, es[0], v, d);
        }
      }
      assert AstrayAfter(s, es[0], d, {}) == {};
      ConsistentStep(s, es[0]);
      AgreedStep(s, es[0]);
      UndivertedRun(Apply(s, es[0]), es[1..], d);
    }
  }

  /** So without such a diversion, Moving becomes Ready only when every listed volume's label and
      FSUUID name the drive. */
  lemma ReadyOnlyWhenPointed(es: seq<Event>, d: DriveID)
    requires Runs(Empty(), es) && Enabled(After(Empty(), es), OnHandler(d, MarkReady))
    requires Undiverted(Empty(), es, d)
    ensures
      var s := After(Empty(), es);
      d in s.drives && forall v :: Hosts(s.drives[d], v) ==> Points(s, v, d)
  {
    UndivertedRun(Empty(), es, d);
    ReadyExactly(es, d);
  }

  /** Who can divert a passed volume: a creation of it that had settled on another drive, the handler
      of another drive that was read holding it too, or the delete handler's last write. */
  lemma DiverterIsKnown(s: State, e: Event, v: VolumeName, d: DriveID)
    requires Enabled(s, e) && Diverts(s, e, v, d)
    ensures
      || (v in s.calls && (s.calls[v].Chosen? || s.calls[v].Reusing?) && s.calls[v].pick.id != d)
      || (exists x :: x in s.handlers && x != d && Hosts(s.handlers[x].drive, v))
      || (v in s.releases && s.releases[v].Credited?)
  {
    if e.OnHandler? {
      VolumesOfMember(s.handlers[e.d].drive.fins, v);
      assert v in Walk(s.handlers[e.d]);
    }
  }

  // ---------------------------------------------------------------- a drive that is left alone

  /** A creation has settled on `d`, or has yet to find the volume there. */
  predicate CallAlone(call: Call, d: DriveID) {
    match call
    case Listing(req, pending, matched) => d in pending
    case Chosen(req, pick) => pick.id == d
    case Reusing(req, pick, vol) => pick.id == d
    case Recorded(req, pick) => pick.id == d
    case _ => true
  }

  /** A release has not found `d` without the volume. */
  predicate ReleaseAlone(call: ReleaseCall, v: VolumeName, d: DriveID) {
    match call
    case ReleaseRead(vol) => true
    case ReleasePlaced(vol, drive) => vol.driveLabel == d ==> Hosts(drive, v)
    case Credited(vol) => vol.driveLabel != d
  }

  /** Only `d` holds the volume, and nobody but the handler of `d` is about to label its record or to
      let it go: no creation has settled elsewhere, no release is past `d`, no other handler, nor the
      cached copy another handler may start from, lists it. */
  ghost predicate Alone(s: State, v: VolumeName, d: DriveID) {
    && OnlyOn(s, v, d)
    && (v in s.calls ==> CallAlone(s.calls[v], d))
    && (v in s.releases ==> ReleaseAlone(s.releases[v], v, d))
    && (forall x :: x in s.handlers && x != d ==> !Hosts(s.handlers[x].drive, v))
    && (forall x :: x in s.caches && x != d && s.caches[x].status == Moving ==> !Hosts(s.caches[x], v))
  }

  predicate Writes(s: State, e: Event, d: DriveID)
    requires Enabled(s, e)
  {
    WriteOf(s, e).PutDrive? && WriteOf(s, e).d == d
  }

  lemma CallStaysAlone(s: State, e: Event, v: VolumeName, d: DriveID)
    requires Enabled(s, e) && Alone(s, v, d) && HostedBy(s, v, d)
    ensures v in Apply(s, e).calls ==> CallAlone(Apply(s, e).calls[v], d)
  {
    if e.OnCreate? && e.v == v && e.create.ListDrive? && e.create.d != d {
      assert !HostedBy(s, v, e.create.d);
    }
  }

  lemma ReleaseStaysAlone(s: State, e: Event, v: VolumeName, d: DriveID)
    requires Enabled(s, e) && Alone(s, v, d) && HostedBy(s, v, d) && !Writes(s, e, d)
    ensures v in Apply(s, e).releases ==> ReleaseAlone(Apply(s, e).releases[v], v, d)
  {
  }

  lemma HandlersStayAlone(s: State, e: Event, v: VolumeName, d: DriveID)
    requires Enabled(s, e) && Alone(s, v, d)
    ensures forall x :: x in Apply(s, e).handlers && x != d ==> !Hosts(Apply(s, e).handlers[x].drive, v)
    ensures forall x :: x in Apply(s, e).caches && x != d && Apply(s, e).caches[x].status == Moving ==>
              !Hosts(Apply(s, e).caches[x], v)
  {
    if e.OnHandler? && e.d != d { assert !HostedBy(s, v, e.d); }
  }

  lemma AloneStep(s: State, e: Event, v: VolumeName, d: DriveID)
    requires Consistent(s) && Enabled(s, e) && Alone(s, v, d) && HostedBy(s, v, d) && !Writes(s, e, d)
    requires forall x :: x != d ==> !Lands(s, e, v, x)
    ensures Alone(Apply(s, e), v, d)
  {
    CallStaysAlone(s, e, v, d);
    ReleaseStaysAlone(s, e, v, d);
    HandlersStayAlone(s, e, v, d);
    forall x | HostedBy(Apply(s, e), v, x) ensures x == d {
      if !HostedBy(s, v, x) { NewHoldIsPut(s, e, v, x); }
    }
  }

  lemma AloneUndiverted(s: State, e: Event, v: VolumeName, d: DriveID)
    requires Consistent(s) && Enabled(s, e) && Alone(s, v, d) && Points(s, v, d)
    ensures !Diverts(s, e, v, d)
  {
    assert v in s.releases ==> ReleaseReads(s, v, s.releases[v]);
    if Diverts(s, e, v, d) && !Removes(e, v) {
      DiverterIsKnown(s, e, v, d);
      VolumesOfMember(s.handlers[e.d].drive.fins, v);
    }
  }

  /** While the drive is as the handler of `d` copied it, its volumes are alone and the passed ones point at it. */
  ghost predicate HandingOver(s: State, d: DriveID, drive: Drive) {
    && (d in s.handlers ==> s.handlers[d].drive == drive)
    && DriveRead(s, d, drive)
    && (DriveCurrent(s, d, drive) ==>
          && (forall v :: Hosts(drive, v) ==> Alone(s, v, d))
          && (forall v :: v in Passed(s, d) ==> Points(s, v, d)))
  }

  /** The handler goes on, and no Move lands a listed volume on another drive. */
  ghost predicate Spares(s: State, e: Event, d: DriveID, drive: Drive)
    requires Enabled(s, e)
  {
    e != OnHandler(d, StartHandler) && forall v, x :: Hosts(drive, v) && x != d ==> !Lands(s, e, v, x)
  }

  ghost predicate Spared(s: State, es: seq<Event>, d: DriveID, drive: Drive)
    requires Runs(s, es)
    decreases |es|
  {
    es == [] || (Spares(s, es[0], d, drive) && Spared(Apply(s, es[0]), es[1..], d, drive))
  }

  /** A drive that is written is never again as it was read. */
  lemma StaleForGood(s: State, e: Event, d: DriveID, drive: Drive)
    requires Enabled(s, e) && DriveRead(s, d, drive)
    ensures DriveRead(Apply(s, e), d, drive)
    ensures DriveCurrent(Apply(s, e), d, drive) ==> DriveCurrent(s, d, drive) && !Writes(s, e, d)
  {
  }

  lemma PassedListed(s: State, d: DriveID, v: VolumeName)
    requires v in Passed(s, d)
    ensures Hosts(s.handlers[d].drive, v)
  {
    VolumesOfMember(s.handlers[d].drive.fins, v);
  }

  lemma SameCopy(s: State, e: Event, d: DriveID)
    requires Enabled(s, e) && e != OnHandler(d, StartHandler) && d in Apply(s, e).handlers
    ensures d in s.handlers && Apply(s, e).handlers[d].drive == s.handlers[d].drive
  {
  }

  lemma HandingOverStep(s: State, e: Event, d: DriveID, drive: Drive)
    requires Consistent(s) && Agreed(s) && HandingOver(s, d, drive) && Enabled(s, e) && Spares(s, e, d, drive)
    ensures HandingOver(Apply(s, e), d, drive)
  {
    var s' := Apply(s, e);
    StaleForGood(s, e, d, drive);
    if d in s'.handlers { SameCopy(s, e, d); }
    if DriveCurrent(s', d, drive) {
      forall v | Hosts(drive, v) ensures Alone(s', v, d) { AloneStep(s, e, v, d); }
      forall v | v in Passed(s', d) ensures Points(s', v, d) {
        PassedListed(s', d, v);
        PassedStep(s, e, v, d);
      }
    }
  }

  lemma PassedStep(s: State, e: Event, v: VolumeName, d: DriveID)
    requires Consistent(s) && Agreed(s) && Enabled(s, e) && Alone(s, v, d) && v in Passed(Apply(s, e), d)
    requires v in Passed(s, d) ==> Points(s, v, d)
    ensures Points(Apply(s, e), v, d)
  {
    PointsAfter(s, e, v, d);
    if v in Passed(s, d) {
      AloneUndiverted(s, e, v, d);
    } else {
      PassingPoints(s, e, v, d);
    }
  }

  lemma {:induction false} HandingOverRun(s: State, es: seq<Event>, d: DriveID, drive: Drive)
    requires Consistent(s) && Agreed(s) && HandingOver(s, d, drive) && Runs(s, es) && Spared(s, es, d, drive)
    ensures HandingOver(After(s, es), d, drive) && Consistent(After(s, es))
    decreases |es|
  {
    if es != [] {
      HandingOverStep(s, es[0], d, drive);
      ConsistentStep(s, es[0]);
      AgreedStep(s, es[0]);
      HandingOverRun(Apply(s, es[0]), es[1..], d, drive);
    }
  }

  lemma HandingOverStarts(s: State, d: DriveID)
    requires Consistent(s) && Enabled(s, OnHandler(d, StartHandler))
    requires forall v :: Hosts(s.caches[d], v) ==> Alone(s, v, d)
    ensures HandingOver(Apply(s, OnHandler(d, StartHandler)), d, s.caches[d])
  {
    var s' := Apply(s, OnHandler(d, StartHandler));
    forall v | Hosts(s.caches[d], v) ensures Alone(s', v, d) {
      assert forall x :: HostedBy(s', v, x) ==> HostedBy(s, v, x);
    }
  }

  /** In every run, disciplined or not: if, when the handler starts, each listed volume is alone on its
      drive, and no Move lands one on another drive before the handler is through, the handler turns the
      drive Ready only with every volume the drive lists pointing at it. */
  lemma ReadyWhenAlone(es: seq<Event>, more: seq<Event>, d: DriveID)
    requires Runs(Empty(), es) && Enabled(After(Empty(), es), OnHandler(d, StartHandler))
    requires forall v :: Hosts(After(Empty(), es).caches[d], v) ==> Alone(After(Empty(), es), v, d)
    requires
      var s := Apply(After(Empty(), es), OnHandler(d, StartHandler));
      && Runs(s, more) && Spared(s, more, d, After(Empty(), es).caches[d])
      && Enabled(After(s, more), OnHandler(d, MarkReady))
    ensures
      var s := After(Apply(After(Empty(), es), OnHandler(d, StartHandler)), more);
      forall v :: HostedBy(s, v, d) ==> Points(s, v, d)
  {
    var s0, e := After(Empty(), es), OnHandler(d, StartHandler);
    AgreedRun(Empty(), es);
    HandingOverStarts(s0, d);
    ConsistentStep(s0, e);
    AgreedStep(s0, e);
    HandingOverRun(Apply(s0, e), more, d, s0.caches[d]);
    ReadyListsAll(After(Apply(s0, e), more), d);
  }
}
