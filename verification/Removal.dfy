/** Drive removal: the finalizer list keeps its shape until a drive is removed, and no
    drive goes away while it holds a volume. Holds of every run, Move included. */
module Removal {
  import opened Objects
  import opened Cluster
  import opened Versions

  /** Data protection plus distinct volumes, or nothing at all once Removed. */
  ghost predicate Shaped(drive: Drive) {
    && (WellFormed(drive.fins) || (drive.fins == [] && drive.status == Removed))
    && (drive.status == Removed ==> |drive.fins| <= 1)
  }

  ghost predicate Shape(s: State) {
    forall d :: d in s.drives ==> Shaped(s.drives[d])
  }

  lemma AddRefWellFormed(fins: seq<Finalizer>, v: VolumeName)
    requires WellFormed(fins)
    ensures WellFormed(AddRef(fins, v))
  {
  }

  lemma {:induction false} TakeInWellFormed(drive: Drive, got: seq<Moved>)
    requires WellFormed(drive.fins)
    ensures WellFormed(TakeIn(drive, got).fins)
  {
    if got != [] {
      TakeInWellFormed(drive, got[..|got| - 1]);
      AddRefWellFormed(TakeIn(drive, got[..|got| - 1]).fins, got[|got| - 1].name);
    }
  }

  lemma {:induction false} TakeInKeeps(drive: Drive, got: seq<Moved>)
    ensures TakeIn(drive, got).deleting == drive.deleting
    ensures TakeIn(drive, got).status == drive.status
    ensures TakeIn(drive, got).fsuuid == drive.fsuuid
    ensures TakeIn(drive, got).node == drive.node
  {
    if got != [] {
      TakeInKeeps(drive, got[..|got| - 1]);
    }
  }

  /** Holding a volume rules out both the empty list and the Removed status. */
  lemma HoldingIsWellFormed(drive: Drive, v: VolumeName)
    requires Shaped(drive) && Hosts(drive, v)
    ensures WellFormed(drive.fins) && drive.status != Removed
  {
    if |drive.fins| == 1 {
      assert drive.fins[0] == DataProtection;
    }
  }

  /** A drive CreateVolume settled on either holds the volume or passed the match rules. */
  ghost predicate Admitted(v: VolumeName, call: Call) {
    match call
    case Listing(req, pending, matched) =>
      forall c :: c in matched ==> !Hosts(c.drive, v) && Admits(c.drive, req)
    case Chosen(req, pick) => Hosts(pick.drive, v) || Admits(pick.drive, req)
    case Reusing(req, pick, vol) => Hosts(pick.drive, v) || Admits(pick.drive, req)
    case Recorded(req, pick) => Hosts(pick.drive, v) || Admits(pick.drive, req)
    case _ => true
  }

  lemma DriveWriteShaped(s: State, d: DriveID, e: DriveStep)
    requires Shape(s) && DriveEnabled(s, d, e)
    requires Disciplined(s, OnDrive(d, e))
    ensures Shaped(EditedDrive(s, d, e))
  {
  }

  lemma CreateWriteShaped(s: State, v: VolumeName, e: CreateStep)
    requires Shape(s) && Consistent(s) && CreateEnabled(s, v, e)
    requires v in s.calls ==> Admitted(v, s.calls[v])
    ensures CreateWrite(s, v, e).PutDrive? ==> Shaped(CreateWrite(s, v, e).drive)
  {
    if e.ReserveDrive? {
      var pick := s.calls[v].pick;
      assert CallRead(s, v, s.calls[v]);
      assert Shaped(s.drives[pick.id]);
      AddRefWellFormed(pick.drive.fins, v);
    }
  }

  lemma VolumeWriteShaped(s: State, v: VolumeName, e: VolumeStep)
    requires Shape(s) && Consistent(s) && VolumeEnabled(s, v, e)
    ensures VolumeWrite(s, v, e).PutDrive? ==> Shaped(VolumeWrite(s, v, e).drive)
  {
    if e.GrantExpand? {
      assert CallRead(s, v, s.calls[v]);
    }
  }

  lemma ReleaseWriteShaped(s: State, v: VolumeName, e: ReleaseStep)
    requires Shape(s) && Consistent(s) && ReleaseEnabled(s, v, e)
    ensures ReleaseWrite(s, v, e).PutDrive? ==> WellFormed(ReleaseWrite(s, v, e).drive.fins)
    ensures ReleaseWrite(s, v, e).PutDrive? ==> Shaped(ReleaseWrite(s, v, e).drive)
  {
    if e.Credit? {
      assert ReleaseReads(s, v, s.releases[v]);
      var drive := s.releases[v].drive;
      HoldingIsWellFormed(drive, v);
      DropRefWellFormed(drive.fins, v);
    }
  }

  /** What Move's landing relies on: the target was Ready, the source held something. */
  ghost predicate MoveShaped(call: MoveCall) {
    && (call.Aiming? ==> call.target.status == Ready)
    && call.source.status != Removed
  }

  lemma MoveWriteShaped(s: State, m: nat, e: MoveStep)
    requires Shape(s) && Consistent(s) && MoveEnabled(s, m, e)
    requires m in s.moves ==> MoveShaped(s.moves[m])
    ensures MoveWrite(s, m, e).PutDrive? ==> WellFormed(MoveWrite(s, m, e).drive.fins)
    ensures MoveWrite(s, m, e).PutDrive? ==> Shaped(MoveWrite(s, m, e).drive)
  {
    if e.LandMove? {
      assert MoveRead(s, s.moves[m]);
      assert Shaped(s.drives[s.moves[m].dst]);
      TakeInWellFormed(s.moves[m].target, s.moves[m].got);
    } else if e.ResetSource? {
      assert MoveRead(s, s.moves[m]);
    }
  }

  lemma HandlerWriteShaped(s: State, d: DriveID, e: HandlerStep)
    requires Shape(s) && Consistent(s) && HandlerEnabled(s, d, e)
    requires d in s.handlers ==> s.handlers[d].drive.status == Moving
    ensures HandlerWrite(s, d, e).PutDrive? ==> WellFormed(HandlerWrite(s, d, e).drive.fins)
    ensures HandlerWrite(s, d, e).PutDrive? ==> Shaped(HandlerWrite(s, d, e).drive)
  {
    if e.MarkReady? {
      assert HandlerReads(s, d, s.handlers[d]) && Shaped(s.drives[d]);
    }
  }

  /** A handler works on a copy of a Moving drive. */
  ghost predicate Local(s: State) {
    && (forall v :: v in s.calls ==> Admitted(v, s.calls[v]))
    && (forall m :: m in s.moves ==> MoveShaped(s.moves[m]))
    && (forall d :: d in s.handlers ==> s.handlers[d].drive.status == Moving)
  }

  lemma MoveNextShaped(s: State, m: nat, e: MoveStep)
    requires Shape(s) && MoveEnabled(s, m, e) && MoveNext(s, m, e).Some?
    requires m in s.moves ==> MoveShaped(s.moves[m])
    ensures MoveShaped(MoveNext(s, m, e).value)
  {
    if e.StartMove? {
      var drive := s.drives[e.src];
      var v := VolumesOf(drive.fins)[0];
      VolumesOfMember(drive.fins, v);
      HoldingIsWellFormed(drive, v);
    }
  }

  lemma LocalStep(s: State, e: Event)
    requires Shape(s) && Local(s) && Enabled(s, e)
    ensures Local(Apply(s, e))
  {
    var s' := Apply(s, e);
    forall v | v in s'.calls ensures Admitted(v, s'.calls[v]) {
    }
    forall m | m in s'.moves ensures MoveShaped(s'.moves[m]) {
      if e.OnMove? && e.m == m {
        MoveNextShaped(s, m, e.move);
      }
    }
  }

  lemma WriteShaped(s: State, e: Event)
    requires Consistent(s) && Shape(s) && Local(s) && Enabled(s, e) && Disciplined(s, e)
    ensures WriteOf(s, e).PutDrive? ==> Shaped(WriteOf(s, e).drive)
  {
    match e
    case OnDrive(d, step) => DriveWriteShaped(s, d, step);
    case OnCreate(v, step) => CreateWriteShaped(s, v, step);
    case OnVolume(v, step) => VolumeWriteShaped(s, v, step);
    case OnRelease(v, step) => ReleaseWriteShaped(s, v, step);
    case OnMove(m, step) => MoveWriteShaped(s, m, step);
    case OnHandler(d, step) => HandlerWriteShaped(s, d, step);
  }

  /** Copies are consistent, lists are shaped, choices were admitted. */
  ghost predicate Sound(s: State) {
    Consistent(s) && Shape(s) && Local(s)
  }

  lemma SoundStep(s: State, e: Event)
    requires Sound(s) && Enabled(s, e) && Disciplined(s, e)
    ensures Sound(Apply(s, e))
  {
    ConsistentStep(s, e);
    LocalStep(s, e);
    WriteShaped(s, e);
    assert Shape(Apply(s, e));
  }

  lemma {:induction false} SoundRun(s: State, es: seq<Event>)
    requires Sound(s) && Runs(s, es) && DisciplinedRun(s, es)
    ensures Sound(After(s, es))
    decreases |es|
  {
    if es != [] {
      SoundStep(s, es[0]);
      SoundRun(Apply(s, es[0]), es[1..]);
    }
  }

  /** At every point of every run, `length - 1` counts a drive's volumes (none is listed twice)
      until the drive is Removed, and a Removed drive has none. */
  lemma RemovalSafe(es: seq<Event>, d: DriveID)
    requires Runs(Empty(), es) && DisciplinedRun(Empty(), es)
    requires d in After(Empty(), es).drives
    ensures
      var drive := After(Empty(), es).drives[d];
      && (drive.fins == [] || VolumeCount(drive) == |VolumesOf(drive.fins)|)
      && Distinct(VolumesOf(drive.fins))
      && (drive.fins == [] ==> drive.status == Removed)
      && (drive.status == Removed ==> VolumesOf(drive.fins) == [])
      && (MarkRemovedAllowed(drive) <==> drive.status != Removed && VolumesOf(drive.fins) == [])
  {
    SoundRun(Empty(), es);
    var drive := After(Empty(), es).drives[d];
    if drive.fins != [] {
      WellFormedCount(drive.fins);
    }
  }

  /** The administrator's Remove goes through. */
  predicate MarkRemovedAllowed(drive: Drive) {
    drive.status != Removed && VolumeCount(drive) <= 0
  }

  /** The event that makes a drive object vanish finds no volume on it. */
  lemma VanishesEmpty(es: seq<Event>, e: Event, d: DriveID)
    requires Runs(Empty(), es) && DisciplinedRun(Empty(), es)
    requires
      var s := After(Empty(), es);
      Enabled(s, e) && Disciplined(s, e) && d in s.drives && d !in Apply(s, e).drives
    ensures
      var s := After(Empty(), es);
      s.drives[d].status == Removed && VolumesOf(s.drives[d].fins) == []
  {
    SoundRun(Empty(), es);
    var s := After(Empty(), es);
    VanishingWrite(s, e);
    assert Shaped(s.drives[d]);
    if s.drives[d].fins != [] {
      WellFormedCount(s.drives[d].fins);
    }
  }

  /** Only the removal steps of the drive controller write an empty finalizer list. */
  lemma VanishingWrite(s: State, e: Event)
    requires Sound(s) && Enabled(s, e) && Disciplined(s, e)
    requires WriteOf(s, e).PutDrive? && WriteOf(s, e).drive.fins == []
    ensures WriteOf(s, e).d in s.drives ==> s.drives[WriteOf(s, e).d].status == Removed
  {
    WriteShaped(s, e);
    match e
    case OnDrive(d, step) =>
    case OnCreate(v, step) =>
    case OnVolume(v, step) => assert CallRead(s, v, s.calls[v]);
    case OnRelease(v, step) => ReleaseWriteShaped(s, v, step);
    case OnMove(m, step) => MoveWriteShaped(s, m, step);
    case OnHandler(d, step) => HandlerWriteShaped(s, d, step);
  }
}
