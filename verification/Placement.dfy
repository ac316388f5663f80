/** Where volumes live: what each event does to who holds what, and, in runs without Move, that at
    most one drive holds a volume, its record names that drive, and the record outlives the hold. */
module Placement {
  import opened Objects
  import opened Cluster
  import opened Versions
  import opened Removal

  predicate HostedBy(s: State, v: VolumeName, d: DriveID) {
    d in s.drives && Hosts(s.drives[d], v)
  }

  // ---------------------------------------------------------------- who changes hosting

  /** CreateVolume's reservation puts a volume on a drive; the delete handler's credit takes it off. */
  predicate Gains(s: State, e: Event, v: VolumeName, d: DriveID)
    requires Enabled(s, e)
  {
    e == OnCreate(v, ReserveDrive) && d == s.calls[v].pick.id
  }

  predicate Loses(s: State, e: Event, v: VolumeName, d: DriveID)
    requires Enabled(s, e)
  {
    e == OnRelease(v, Credit) && d == s.releases[v].vol.driveLabel
  }

  /** A Move puts what it has gathered on its destination, and in the end clears its source. */
  predicate Lands(s: State, e: Event, v: VolumeName, d: DriveID)
    requires Enabled(s, e)
  {
    e.OnMove? && e.move.LandMove? && s.moves[e.m].dst == d && v in Names(s.moves[e.m].got)
  }

  predicate Resets(s: State, e: Event, d: DriveID)
    requires Enabled(s, e)
  {
    e.OnMove? && e.move.ResetSource? && s.moves[e.m].src == d
  }

  predicate Puts(s: State, e: Event, v: VolumeName, d: DriveID)
    requires Enabled(s, e)
  {
    Gains(s, e, v, d) || Lands(s, e, v, d)
  }

  predicate Takes(s: State, e: Event, v: VolumeName, d: DriveID)
    requires Enabled(s, e)
  {
    Loses(s, e, v, d) || Resets(s, e, d)
  }

  lemma DriveWriteHosts(s: State, d: DriveID, e: DriveStep, v: VolumeName)
    requires Shape(s) && DriveEnabled(s, d, e)
    ensures Hosts(EditedDrive(s, d, e), v) <==> HostedBy(s, v, d)
  {
    if e.StripFinalizers? && HostedBy(s, v, d) {
      HoldingIsWellFormed(s.drives[d], v);
    }
  }

  lemma NamesInit(got: seq<Moved>)
    requires got != []
    ensures Names(got) == Names(got[..|got| - 1]) + {got[|got| - 1].name}
  {
    var init, last := got[..|got| - 1], got[|got| - 1];
    assert got == init + [last];
    forall v ensures v in Names(got) <==> v in Names(init) || v == last.name {
      if v in Names(init) {
        var i :| 0 <= i < |init| && init[i].name == v;
        assert got[i].name == v;
      }
      if v == last.name { assert got[|got| - 1].name == v; }
    }
  }

  /** The destination ends up with its own volumes and all gathered ones. */
  lemma {:induction false} TakeInHosts(drive: Drive, got: seq<Moved>, v: VolumeName)
    ensures Hosts(TakeIn(drive, got), v) <==> Hosts(drive, v) || v in Names(got)
  {
    if got != [] {
      TakeInHosts(drive, got[..|got| - 1], v);
      NamesInit(got);
    }
  }

  lemma MoveWriteHosts(s: State, m: nat, e: MoveStep, v: VolumeName)
    requires Consistent(s) && MoveEnabled(s, m, e) && MoveWrite(s, m, e).PutDrive?
    ensures
      var w := MoveWrite(s, m, e);
      && (e.LandMove? ==> (Hosts(w.drive, v) <==> HostedBy(s, v, w.d) || v in Names(s.moves[m].got)))
      && (e.ResetSource? ==> !Hosts(w.drive, v))
  {
    assert MoveRead(s, s.moves[m]);
    if e.LandMove? { TakeInHosts(s.moves[m].target, s.moves[m].got, v); }
  }

  lemma CreateWriteHosts(s: State, u: VolumeName, e: CreateStep, v: VolumeName)
    requires Consistent(s) && CreateEnabled(s, u, e) && e.ReserveDrive?
    ensures
      var w := CreateWrite(s, u, e);
      Hosts(w.drive, v) <==> u == v || HostedBy(s, v, w.d)
  {
    assert CallRead(s, u, s.calls[u]);
  }

  lemma VolumeWriteHosts(s: State, u: VolumeName, e: VolumeStep, v: VolumeName)
    requires Consistent(s) && VolumeEnabled(s, u, e) && e.GrantExpand?
    ensures Hosts(VolumeWrite(s, u, e).drive, v) <==> HostedBy(s, v, VolumeWrite(s, u, e).d)
  {
    assert CallRead(s, u, s.calls[u]);
  }

  lemma ReleaseWriteHosts(s: State, u: VolumeName, e: ReleaseStep, v: VolumeName)
    requires Consistent(s) && ReleaseEnabled(s, u, e) && e.Credit?
    ensures Hosts(ReleaseWrite(s, u, e).drive, v) <==> u != v && HostedBy(s, v, ReleaseWrite(s, u, e).d)
  {
    assert ReleaseReads(s, u, s.releases[u]);
    DropRefMember(s.releases[u].drive.fins, u, VolumeRef(v));
  }

  lemma HandlerWriteHosts(s: State, d: DriveID, e: HandlerStep, v: VolumeName)
    requires Consistent(s) && HandlerEnabled(s, d, e) && e.MarkReady?
    ensures Hosts(HandlerWrite(s, d, e).drive, v) <==> HostedBy(s, v, d)
  {
    assert HandlerReads(s, d, s.handlers[d]);
  }

  lemma WriteHosts(s: State, e: Event, v: VolumeName)
    requires Consistent(s) && (e.OnDrive? ==> Shape(s)) && Enabled(s, e) && WriteOf(s, e).PutDrive?
    ensures
      var w := WriteOf(s, e);
      Hosts(w.drive, v) <==> (Puts(s, e, v, w.d) || (HostedBy(s, v, w.d) && !Takes(s, e, v, w.d)))
  {
    match e
    case OnDrive(d, step) => DriveWriteHosts(s, d, step, v);
    case OnCreate(u, step) => CreateWriteHosts(s, u, step, v);
    case OnVolume(u, step) => VolumeWriteHosts(s, u, step, v);
    case OnRelease(u, step) => ReleaseWriteHosts(s, u, step, v);
    case OnMove(m, step) => MoveWriteHosts(s, m, step, v);
    case OnHandler(d, step) => HandlerWriteHosts(s, d, step, v);
  }

  lemma PutsWrite(s: State, e: Event, v: VolumeName, d: DriveID)
    requires Enabled(s, e) && (Puts(s, e, v, d) || Takes(s, e, v, d))
    ensures WriteOf(s, e).PutDrive? && WriteOf(s, e).d == d
  {
  }

  lemma StoredHosts(s: State, w: Write, v: VolumeName, d: DriveID)
    ensures (d in DrivesAfter(s, w) && Hosts(DrivesAfter(s, w)[d], v)) <==>
            if w.PutDrive? && w.d == d then Hosts(w.drive, v) else HostedBy(s, v, d)
  {
  }

  /** A volume comes to a drive by a reservation or a landing and leaves it by a credit or a reset;
      nothing else changes who holds what. */
  lemma HostingAll(s: State, e: Event, v: VolumeName, d: DriveID)
    requires Consistent(s) && (e.OnDrive? ==> Shape(s)) && Enabled(s, e)
    ensures HostedBy(Apply(s, e), v, d) <==> (Puts(s, e, v, d) || (HostedBy(s, v, d) && !Takes(s, e, v, d)))
  {
    var w := WriteOf(s, e);
    StoredHosts(s, w, v, d);
    if w.PutDrive? && w.d == d {
      WriteHosts(s, e, v);
    } else if Puts(s, e, v, d) || Takes(s, e, v, d) {
      PutsWrite(s, e, v, d);
    }
  }

  /** In any run, disciplined or not, it comes in no other way. */
  lemma NewHoldIsPut(s: State, e: Event, v: VolumeName, d: DriveID)
    requires Consistent(s) && Enabled(s, e) && HostedBy(Apply(s, e), v, d) && !HostedBy(s, v, d)
    ensures Puts(s, e, v, d)
  {
    if !e.OnDrive? { HostingAll(s, e, v, d); }
  }

  /** Without Move, by the reservation and the credit. */
  lemma HostingChanges(s: State, e: Event, v: VolumeName, d: DriveID)
    requires Sound(s) && Enabled(s, e) && !IsMove(e)
    ensures HostedBy(Apply(s, e), v, d) <==>
            (Gains(s, e, v, d) || (HostedBy(s, v, d) && !Loses(s, e, v, d)))
  {
    HostingAll(s, e, v, d);
  }

  // ---------------------------------------------------------------- the invariant

  predicate Creating(call: Call) {
    call.Listing? || call.Chosen? || call.Reusing? || call.Recorded?
  }

  /** The holder of `v`, if any, is `d`. */
  ghost predicate OnlyOn(s: State, v: VolumeName, d: DriveID) {
    forall x :: HostedBy(s, v, x) ==> x == d
  }

  ghost predicate Nowhere(s: State, v: VolumeName) {
    forall x :: !HostedBy(s, v, x)
  }

  /** Unless the creation began while an old volume of the name was still on a drive, a record
      that is being deleted leaves nothing behind. */
  ghost predicate OnTime(s: State, v: VolumeName) {
    v !in s.past.late && v in s.volumes && s.volumes[v].deleting ==> Nowhere(s, v)
  }

  /** CreateVolume has settled on `pick`: nobody else holds `v`, `pick` holds it now only if it did
      when it was read, and, if the creation is on time, still does. */
  ghost predicate Settled(s: State, v: VolumeName, pick: Candidate) {
    && pick.drive.fsuuid == pick.id
    && OnlyOn(s, v, pick.id)
    && OnTime(s, v)
    && (HostedBy(s, v, pick.id) ==> Hosts(pick.drive, v))
    && (v !in s.past.late && Hosts(pick.drive, v) ==> HostedBy(s, v, pick.id))
    && (HostedBy(s, v, pick.id) ==> s.drives[pick.id].node == pick.drive.node)
  }

  ghost predicate RecordFor(s: State, v: VolumeName, req: Request, pick: Candidate) {
    && v in s.volumes
    && s.volumes[v].driveLabel == pick.id
    && s.volumes[v].fsuuid == pick.id
    && s.volumes[v].node == pick.drive.node
    && s.volumes[v].size == SizeFor(req, pick.drive)
    && !s.volumes[v].deleting
  }

  ghost predicate Requested(s: State, v: VolumeName, req: Request) {
    && v in s.past.asked && s.past.asked[v] == req
    && req.bytes.Some? && 0 <= req.bytes.value
  }

  ghost predicate CallPlaced(s: State, v: VolumeName, call: Call) {
    match call
    case Listing(req, pending, matched) =>
      && Requested(s, v, req) && OnTime(s, v)
      && (forall x :: HostedBy(s, v, x) ==> x in pending)
      && (forall c :: c in matched ==> c.drive.fsuuid == c.id)
    case Chosen(req, pick) => Requested(s, v, req) && Settled(s, v, pick)
    case Reusing(req, pick, vol) => Requested(s, v, req) && Settled(s, v, pick)
    case Recorded(req, pick) => Requested(s, v, req) && Settled(s, v, pick) && RecordFor(s, v, req, pick)
    case DeleteRead(vol) => OnlyOn(s, v, vol.driveLabel)
    case DeleteUnprotected => v in s.volumes ==> IsReleased(s.volumes[v])
    case ExpandRead(want, vol) => OnlyOn(s, v, vol.driveLabel)
    case ExpandPlaced(want, vol, drive) => OnlyOn(s, v, vol.driveLabel)
    case StageRead(vol) => OnlyOn(s, v, vol.driveLabel)
    case StageLimited(vol) => OnlyOn(s, v, vol.driveLabel)
    case GrowRead(want, vol) => OnlyOn(s, v, vol.driveLabel)
    case GrowLimited(want, vol) => OnlyOn(s, v, vol.driveLabel)
  }

  /** A delete handler works on a terminating record, and once past the credit nobody holds `v`. */
  ghost predicate ReleaseOf(s: State, v: VolumeName, call: ReleaseCall) {
    && v in s.volumes && s.volumes[v].deleting
    && call.vol.deleting && IsReleased(call.vol)
    && OnlyOn(s, v, call.vol.driveLabel)
    && (call.ReleasePlaced? && !Hosts(call.drive, v) ==> Nowhere(s, v))
    && (call.Credited? ==> Nowhere(s, v))
  }

  /** Both protections, or only the one the delete handler takes off; the latter once deleted. */
  ghost predicate Protected(vol: Volume) {
    && (vol.fins == [PVProtection, PurgeProtection] || IsReleased(vol))
    && (vol.deleting ==> IsReleased(vol))
  }

  ghost predicate Recordful(s: State, v: VolumeName) {
    && v in s.volumes && Protected(s.volumes[v])
    && v in s.past.asked && s.volumes[v].claim == s.past.asked[v].claim
  }

  /** A hold is backed by a record that names the holder and its node. */
  ghost predicate Anchored(s: State, v: VolumeName, d: DriveID) {
    HostedBy(s, v, d) ==>
      v in s.volumes && s.volumes[v].driveLabel == d && s.volumes[v].fsuuid == d && s.volumes[v].node == s.drives[d].node
  }

  ghost predicate Placed(s: State) {
    && (forall d :: d in s.drives ==> s.drives[d].fsuuid == d)
    && (forall v, d :: Anchored(s, v, d))
    && (forall v :: v in s.volumes ==> Recordful(s, v))
    && (forall v :: v in s.calls ==> CallPlaced(s, v, s.calls[v]))
    && (forall v :: v in s.releases ==> ReleaseOf(s, v, s.releases[v]))
  }

  // ---------------------------------------------------------------- who changes records

  /** A rewritten record still says where, for whom and whether it is being deleted. */
  ghost predicate Carried(was: Volume, vol: Volume, e: Event, v: VolumeName) {
    && vol.driveLabel == was.driveLabel && vol.fsuuid == was.fsuuid && vol.node == was.node && vol.claim == was.claim
    && (if e == OnVolume(v, Unprotect) then IsReleased(vol) else vol.fins == was.fins)
    && (vol.deleting <==> was.deleting || e == OnVolume(v, DeleteRecord))
    && (vol.size == was.size || e == OnVolume(v, GrowRecord))
  }

  predicate Relabels(e: Event, v: VolumeName) {
    e == OnCreate(v, CreateRecord) || e == OnCreate(v, RewriteRecord)
  }

  lemma StoredRecord(s: State, w: Write, v: VolumeName)
    ensures v in VolumesAfter(s, w) <==>
            if w.PutVolume? && w.v == v then !(w.vol.deleting && w.vol.fins == []) else v in s.volumes
    ensures v in VolumesAfter(s, w) ==>
            VolumesAfter(s, w)[v] ==
            if w.PutVolume? && w.v == v then w.vol.(version := s.clock + 1) else s.volumes[v]
  {
  }

  /** A record is relabelled by CreateVolume only, and goes away by the handler's purge only. */
  lemma RecordChanges(s: State, e: Event, v: VolumeName)
    requires Sound(s) && Placed(s) && Enabled(s, e) && !IsMove(e) && !Relabels(e, v)
    ensures
      var after := Apply(s, e).volumes;
      && (v in s.volumes && v !in after ==> e == OnRelease(v, Purge))
      && (v in after ==> v in s.volumes && Carried(s.volumes[v], after[v], e, v))
  {
    RecordWritten(s, e, v);
  }

  lemma RecordWritten(s: State, e: Event, v: VolumeName)
    requires Sound(s) && Placed(s) && Enabled(s, e) && !IsMove(e) && !Relabels(e, v)
    ensures
      var after := VolumesAfter(s, WriteOf(s, e));
      && (v in s.volumes && v !in after ==> e == OnRelease(v, Purge))
      && (v in after ==> v in s.volumes && Carried(s.volumes[v], after[v], e, v))
  {
    var w := WriteOf(s, e);
    StoredRecord(s, w, v);
    if w.PutVolume? && w.v == v {
      WriteRecord(s, e, v);
    } else if v in s.volumes {
      KeptRecord(s, e, v);
    }
  }

  lemma KeptRecord(s: State, e: Event, v: VolumeName)
    requires Enabled(s, e) && !IsMove(e) && v in s.volumes
    requires !(WriteOf(s, e).PutVolume? && WriteOf(s, e).v == v)
    ensures Carried(s.volumes[v], s.volumes[v], e, v)
  {
    if e == OnVolume(v, DeleteRecord) || e == OnVolume(v, GrowRecord) || e == OnVolume(v, Unprotect) {
      SilentRecord(s, e, v);
    }
  }

  lemma SilentRecord(s: State, e: Event, v: VolumeName)
    requires Enabled(s, e) && !IsMove(e)
    requires e == OnVolume(v, DeleteRecord) || e == OnVolume(v, GrowRecord) || e == OnVolume(v, Unprotect)
    ensures WriteOf(s, e).PutVolume? && WriteOf(s, e).v == v
  {
  }

  lemma WriteRecord(s: State, e: Event, v: VolumeName)
    requires Sound(s) && Placed(s) && Enabled(s, e) && !IsMove(e) && !Relabels(e, v)
    requires WriteOf(s, e).PutVolume? && WriteOf(s, e).v == v
    ensures
      var vol := WriteOf(s, e).vol;
      if e == OnRelease(v, Purge) then vol.deleting && vol.fins == []
      else v in s.volumes && Carried(s.volumes[v], vol, e, v)
  {
    match e
    case OnVolume(u, step) => VolumeWriteRecord(s, v, step);
    case OnRelease(u, step) => PurgeWrite(s, v);
    case _ =>
  }

  lemma PurgeWrite(s: State, v: VolumeName)
    requires Placed(s) && ReleaseEnabled(s, v, Purge)
    ensures ReleaseWrite(s, v, Purge).vol.deleting && ReleaseWrite(s, v, Purge).vol.fins == []
  {
    assert ReleaseOf(s, v, s.releases[v]);
    var fins := s.releases[v].vol.fins;
    assert WithoutFinalizer(fins[..|fins| - 1], PurgeProtection) == [];
    assert WithoutFinalizer(fins, PurgeProtection) == [];
  }

  lemma VolumeWriteRecord(s: State, v: VolumeName, e: VolumeStep)
    requires Consistent(s) && Placed(s) && VolumeEnabled(s, v, e)
    requires VolumeWrite(s, v, e).PutVolume?
    ensures v in s.volumes && Carried(s.volumes[v], VolumeWrite(s, v, e).vol, OnVolume(v, e), v)
  {
    if v in s.calls {
      assert CallRead(s, v, s.calls[v]);
    }
    assert Recordful(s, v);
    if e.Unprotect? {
      UnprotectReleases(s.calls[v].vol);
    }
  }

  lemma UnprotectReleases(vol: Volume)
    requires Protected(vol)
    ensures WithoutFinalizer(vol.fins, PVProtection) == [PurgeProtection]
  {
    var fins := vol.fins;
    var init := fins[..|fins| - 1];
    assert init == [] || init == [PVProtection];
    assert WithoutFinalizer([], PVProtection) == [];
    assert [PVProtection][..0] == [];
    assert WithoutFinalizer(init, PVProtection) == [];
  }

  // ---------------------------------------------------------------- preservation

  predicate CsiEventOn(e: Event, v: VolumeName) {
    (e.OnCreate? || e.OnVolume?) && e.v == v
  }

  lemma MoveWriteNode(s: State, m: nat, e: MoveStep)
    requires Consistent(s) && MoveEnabled(s, m, e)
    ensures
      var w := MoveWrite(s, m, e);
      w.PutDrive? && w.d in s.drives ==> w.drive.node == s.drives[w.d].node
  {
    if m in s.moves {
      assert MoveRead(s, s.moves[m]);
      if e.LandMove? { TakeInKeeps(s.moves[m].target, s.moves[m].got); }
    }
  }

  lemma WriteNode(s: State, e: Event)
    requires Consistent(s) && Enabled(s, e)
    ensures
      var w := WriteOf(s, e);
      w.PutDrive? && w.d in s.drives ==> w.drive.node == s.drives[w.d].node
  {
    match e
    case OnDrive(d, step) =>
    case OnCreate(v, step) => if v in s.calls { assert CallRead(s, v, s.calls[v]); }
    case OnVolume(v, step) => if v in s.calls { assert CallRead(s, v, s.calls[v]); }
    case OnRelease(v, step) => if v in s.releases { assert ReleaseReads(s, v, s.releases[v]); }
    case OnMove(m, step) => MoveWriteNode(s, m, step);
    case OnHandler(d, step) => if d in s.handlers { assert HandlerReads(s, d, s.handlers[d]); }
  }

  /** A drive stays on its node. */
  lemma NodesKept(s: State, e: Event, d: DriveID)
    requires Consistent(s) && Enabled(s, e)
    ensures d in s.drives && d in Apply(s, e).drives ==> Apply(s, e).drives[d].node == s.drives[d].node
  {
    WriteNode(s, e);
  }

  lemma WriteNamesDrive(s: State, e: Event)
    requires Sound(s) && Placed(s) && Enabled(s, e) && !IsMove(e)
    ensures WriteOf(s, e).PutDrive? ==> WriteOf(s, e).drive.fsuuid == WriteOf(s, e).d
  {
    match e
    case OnDrive(d, step) =>
    case OnCreate(v, step) => if v in s.calls { assert CallPlaced(s, v, s.calls[v]); }
    case OnVolume(v, step) => if v in s.calls { assert CallRead(s, v, s.calls[v]); }
    case OnRelease(v, step) => if v in s.releases { assert ReleaseReads(s, v, s.releases[v]); }
  }

  lemma AnchoredStep(s: State, e: Event, v: VolumeName, d: DriveID)
    requires Sound(s) && Placed(s) && Enabled(s, e) && !IsMove(e)
    ensures Anchored(Apply(s, e), v, d)
  {
    HostingChanges(s, e, v, d);
    NodesKept(s, e, d);
    assert Anchored(s, v, d);
    if Relabels(e, v) {
      RelabelledRecord(s, v, e.create, d);
    } else {
      RecordChanges(s, e, v);
      if Gains(s, e, v, d) {
        GainedRecord(s, v);
      } else if e == OnRelease(v, Purge) {
        assert ReleaseOf(s, v, s.releases[v]);
      }
    }
  }

  /** A reservation finds the record made for it. */
  lemma GainedRecord(s: State, v: VolumeName)
    requires Placed(s) && CreateEnabled(s, v, ReserveDrive)
    ensures v in s.volumes && !s.volumes[v].deleting
    ensures s.volumes[v].driveLabel == s.calls[v].pick.id == s.volumes[v].fsuuid
    ensures s.volumes[v].node == s.calls[v].pick.drive.node
    ensures Consistent(s) ==> s.volumes[v].node == s.drives[s.calls[v].pick.id].node
  {
    assert CallPlaced(s, v, s.calls[v]);
    assert Consistent(s) ==> CallRead(s, v, s.calls[v]);
  }

  /** CreateVolume labels a record with the drive that holds the volume, if one does. */
  lemma RelabelledRecord(s: State, v: VolumeName, e: CreateStep, d: DriveID)
    requires Sound(s) && Placed(s) && CreateEnabled(s, v, e) && (e.CreateRecord? || e.RewriteRecord?)
    ensures
      var volumes := VolumesAfter(s, CreateWrite(s, v, e));
      HostedBy(s, v, d) ==>
        v in volumes && volumes[v].driveLabel == d && volumes[v].fsuuid == d && volumes[v].node == s.drives[d].node
  {
    assert CallPlaced(s, v, s.calls[v]);
    StoredRecord(s, CreateWrite(s, v, e), v);
  }

  lemma RelabelledRecordful(s: State, v: VolumeName, e: CreateStep)
    requires Sound(s) && Placed(s) && CreateEnabled(s, v, e) && (e.CreateRecord? || e.RewriteRecord?)
    ensures
      var vol := CreateWrite(s, v, e).vol;
      Protected(vol) && v in s.past.asked && vol.claim == s.past.asked[v].claim
  {
    assert CallPlaced(s, v, s.calls[v]);
    if e.RewriteRecord? {
      RewriteIsLive(s, v);
      assert Recordful(s, v);
    }
  }

  lemma RecordfulStep(s: State, e: Event, v: VolumeName)
    requires Sound(s) && Placed(s) && Enabled(s, e) && Disciplined(s, e) && !IsMove(e)
    requires v in Apply(s, e).volumes
    ensures Recordful(Apply(s, e), v)
  {
    if Relabels(e, v) {
      RelabelledRecordful(s, v, e.create);
      StoredRecord(s, WriteOf(s, e), v);
    } else {
      RecordChanges(s, e, v);
      if e == OnVolume(v, DeleteRecord) { DeletedIsReleased(s, v); }
      CarriedProtection(s.volumes[v], Apply(s, e).volumes[v], e, v);
    }
    assert v in s.volumes ==> Recordful(s, v);
    AskedSame(s, e, v);
  }

  lemma CarriedProtection(was: Volume, vol: Volume, e: Event, v: VolumeName)
    requires Protected(was) && Carried(was, vol, e, v) && (e == OnVolume(v, DeleteRecord) ==> IsReleased(was))
    ensures Protected(vol)
  {
  }

  lemma DeletedIsReleased(s: State, v: VolumeName)
    requires Placed(s) && VolumeEnabled(s, v, DeleteRecord)
    ensures IsReleased(s.volumes[v])
  {
    assert CallPlaced(s, v, s.calls[v]);
  }

  /** Other actors' events put `v` on no drive... */
  lemma HoldsFrame(s: State, e: Event, v: VolumeName)
    requires Sound(s) && Enabled(s, e) && Disciplined(s, e) && !IsMove(e) && !CsiEventOn(e, v)
    ensures forall x :: HostedBy(Apply(s, e), v, x) ==> HostedBy(s, v, x)
    ensures e != OnRelease(v, Credit) ==> forall x :: HostedBy(s, v, x) ==> HostedBy(Apply(s, e), v, x)
  {
    forall x
      ensures HostedBy(Apply(s, e), v, x) ==> HostedBy(s, v, x)
      ensures e != OnRelease(v, Credit) && HostedBy(s, v, x) ==> HostedBy(Apply(s, e), v, x)
    {
      HostingChanges(s, e, v, x);
    }
  }

  /** ...only a terminating volume is taken off one... */
  lemma HoldsKept(s: State, e: Event, v: VolumeName)
    requires Sound(s) && Placed(s) && Enabled(s, e) && Disciplined(s, e) && !IsMove(e) && !CsiEventOn(e, v)
    requires v in s.volumes ==> !s.volumes[v].deleting
    ensures forall x :: HostedBy(s, v, x) ==> HostedBy(Apply(s, e), v, x)
  {
    assert v in s.releases ==> ReleaseOf(s, v, s.releases[v]);
    HoldsFrame(s, e, v);
  }

  /** ...and so they leave a CSI call's assumptions alone. */
  lemma CallFrame(s: State, e: Event, v: VolumeName)
    requires Sound(s) && Placed(s) && Enabled(s, e) && Disciplined(s, e) && !IsMove(e)
    requires v in s.calls && !CsiEventOn(e, v)
    ensures CallPlaced(Apply(s, e), v, s.calls[v])
  {
    assert CallPlaced(s, v, s.calls[v]);
    HoldsFrame(s, e, v);
    if Creating(s.calls[v]) {
      CreationFrame(s, e, v);
    } else {
      RecordChanges(s, e, v);
      WorkingFrame(s, Apply(s, e), v, s.calls[v]);
    }
  }

  lemma CreationFrame(s: State, e: Event, v: VolumeName)
    requires Sound(s) && Placed(s) && Enabled(s, e) && Disciplined(s, e) && !IsMove(e)
    requires v in s.calls && !CsiEventOn(e, v) && Creating(s.calls[v])
    requires forall x :: HostedBy(Apply(s, e), v, x) ==> HostedBy(s, v, x)
    ensures CallPlaced(Apply(s, e), v, s.calls[v])
  {
    assert CallPlaced(s, v, s.calls[v]);
    if v in Apply(s, e).volumes { RecordFrame(s, e, v); }
    StandingFrame(s, e, v);
    AskedSame(s, e, v);
    LateSame(s, e, v);
    forall x | x in s.drives && x in Apply(s, e).drives ensures Apply(s, e).drives[x].node == s.drives[x].node {
      NodesKept(s, e, x);
    }
    CreatingFrame(s, Apply(s, e), v, s.calls[v]);
  }

  lemma RecordFrame(s: State, e: Event, v: VolumeName)
    requires Sound(s) && Placed(s) && Enabled(s, e) && !IsMove(e) && !CsiEventOn(e, v)
    requires v in Apply(s, e).volumes
    ensures
      && v in s.volumes
      && SameRecord(s.volumes[v], Apply(s, e).volumes[v])
  {
    RecordChanges(s, e, v);
  }

  predicate SameRecord(was: Volume, vol: Volume) {
    && vol.deleting == was.deleting && vol.size == was.size
    && vol.driveLabel == was.driveLabel && vol.fsuuid == was.fsuuid && vol.node == was.node
  }

  /** Nothing happens to a volume that is not being deleted. */
  lemma StandingFrame(s: State, e: Event, v: VolumeName)
    requires Sound(s) && Placed(s) && Enabled(s, e) && Disciplined(s, e) && !IsMove(e) && !CsiEventOn(e, v)
    ensures v !in s.volumes || !s.volumes[v].deleting ==>
              forall x :: HostedBy(s, v, x) ==> HostedBy(Apply(s, e), v, x)
    ensures v in s.volumes && !s.volumes[v].deleting ==> v in Apply(s, e).volumes
  {
    if v !in s.volumes || !s.volumes[v].deleting {
      HoldsKept(s, e, v);
      if v in s.volumes {
        StandingRecord(s, e, v);
      }
    }
  }

  lemma StandingRecord(s: State, e: Event, v: VolumeName)
    requires Sound(s) && Placed(s) && Enabled(s, e) && !IsMove(e) && !Relabels(e, v)
    requires v in s.volumes && !s.volumes[v].deleting
    ensures v in Apply(s, e).volumes
  {
    assert v in s.releases ==> ReleaseOf(s, v, s.releases[v]);
    RecordChanges(s, e, v);
  }

  lemma WorkingFrame(s: State, s': State, v: VolumeName, call: Call)
    requires !Creating(call) && CallPlaced(s, v, call)
    requires forall x :: HostedBy(s', v, x) ==> HostedBy(s, v, x)
    requires v in s'.volumes ==> v in s.volumes && s'.volumes[v].fins == s.volumes[v].fins
    ensures CallPlaced(s', v, call)
  {
  }

  lemma AskedSame(s: State, e: Event, v: VolumeName)
    requires Enabled(s, e) && Disciplined(s, e) && v in s.past.asked
    ensures v in PastAfter(s, e).asked && PastAfter(s, e).asked[v] == s.past.asked[v]
  {
  }

  /** Whether a creation came late is settled when it starts. */
  lemma LateSame(s: State, e: Event, v: VolumeName)
    requires Enabled(s, e) && !(e.OnCreate? && e.v == v && e.create.StartCreate?)
    ensures v in PastAfter(s, e).late <==> v in s.past.late
  {
  }

  lemma CreatingFrame(s: State, s': State, v: VolumeName, call: Call)
    requires Creating(call) && CallPlaced(s, v, call)
    requires forall x :: HostedBy(s', v, x) ==> HostedBy(s, v, x)
    requires v !in s.volumes || !s.volumes[v].deleting ==> forall x :: HostedBy(s, v, x) ==> HostedBy(s', v, x)
    requires v in s'.past.asked && s'.past.asked[v] == s.past.asked[v]
    requires v in s'.past.late <==> v in s.past.late
    requires v in s'.volumes ==> v in s.volumes && SameRecord(s.volumes[v], s'.volumes[v])
    requires v in s.volumes && !s.volumes[v].deleting ==> v in s'.volumes
    requires forall x :: x in s.drives && x in s'.drives ==> s'.drives[x].node == s.drives[x].node
    ensures CallPlaced(s', v, call)
  {
  }

  /** What CreateVolume knows after a step holds of the store as it was; the record it has just
      written comes on top. */
  ghost predicate PlacedButRecord(s: State, v: VolumeName, call: Call) {
    match call
    case Recorded(req, pick) => Requested(s, v, req) && Settled(s, v, pick)
    case _ => CallPlaced(s, v, call)
  }

  lemma CreateNextKnows(s: State, v: VolumeName, e: CreateStep)
    requires Sound(s) && Placed(s) && CreateEnabled(s, v, e) && !e.StartCreate? && CreateNext(s, v, e).Some?
    ensures PlacedButRecord(s, v, CreateNext(s, v, e).value) && Creating(CreateNext(s, v, e).value)
  {
    assert CallPlaced(s, v, s.calls[v]) && Admitted(v, s.calls[v]) && CallRead(s, v, s.calls[v]);
    forall x ensures HostedBy(s, v, x) ==> x in s.drives && Anchored(s, v, x) {}
  }

  /** The API server refuses to give a terminating record its protection back. */
  lemma RewriteIsLive(s: State, v: VolumeName)
    requires Consistent(s) && Placed(s) && CreateEnabled(s, v, RewriteRecord)
    ensures s.calls[v].vol == s.volumes[v] && !s.volumes[v].deleting
  {
    assert CallRead(s, v, s.calls[v]) && Recordful(s, v);
    var fins := NewRecord(s.calls[v].req, s.calls[v].pick).fins;
    assert fins[0] == PVProtection;
  }

  lemma CreateRecordAfter(s: State, v: VolumeName, e: CreateStep)
    requires Sound(s) && Placed(s) && CreateEnabled(s, v, e) && !e.StartCreate? && CreateNext(s, v, e).Some?
    ensures
      var volumes := VolumesAfter(s, CreateWrite(s, v, e));
      var next := CreateNext(s, v, e).value;
      if next.Recorded? then
        && v in volumes && volumes[v].driveLabel == next.pick.id && volumes[v].fsuuid == next.pick.id
        && volumes[v].node == next.pick.drive.node
        && volumes[v].size == SizeFor(next.req, next.pick.drive) && !volumes[v].deleting
      else volumes == s.volumes
  {
    assert CallPlaced(s, v, s.calls[v]) && CallRead(s, v, s.calls[v]);
    StoredRecord(s, CreateWrite(s, v, e), v);
    if e.RewriteRecord? { RewriteIsLive(s, v); }
  }

  lemma CreateNextPlaced(s: State, v: VolumeName, e: CreateStep)
    requires Sound(s) && Placed(s) && CreateEnabled(s, v, e) && Disciplined(s, OnCreate(v, e))
    requires CreateNext(s, v, e).Some?
    ensures CallPlaced(Apply(s, OnCreate(v, e)), v, CreateNext(s, v, e).value)
  {
    var s' := Apply(s, OnCreate(v, e));
    forall x ensures HostedBy(s', v, x) <==> HostedBy(s, v, x) {
      HostingChanges(s, OnCreate(v, e), v, x);
    }
    if !e.StartCreate? {
      CreateNextKnows(s, v, e);
      CreateRecordAfter(s, v, e);
    } else if v !in s'.past.late && v in s.volumes && s.volumes[v].deleting {
      assert !Lingering(s, v);
      forall x ensures !HostedBy(s, v, x) {}
    }
  }

  lemma VolumeNextPlaced(s: State, v: VolumeName, e: VolumeStep)
    requires Sound(s) && Placed(s) && VolumeEnabled(s, v, e)
    requires VolumeNext(s, v, e).Some? && !e.Unprotect?
    ensures CallPlaced(s, v, VolumeNext(s, v, e).value) && VolumeWrite(s, v, e).Nothing?
    ensures !Creating(VolumeNext(s, v, e).value)
  {
    if v in s.calls {
      assert CallPlaced(s, v, s.calls[v]);
    }
    forall x ensures HostedBy(s, v, x) ==> Anchored(s, v, x) {}
  }

  lemma VolumeNextStep(s: State, v: VolumeName, e: VolumeStep)
    requires Sound(s) && Placed(s) && VolumeEnabled(s, v, e) && Disciplined(s, OnVolume(v, e))
    requires VolumeNext(s, v, e).Some?
    ensures CallPlaced(Apply(s, OnVolume(v, e)), v, VolumeNext(s, v, e).value)
  {
    if e.Unprotect? {
      RecordChanges(s, OnVolume(v, e), v);
    } else {
      VolumeNextPlaced(s, v, e);
      forall x ensures HostedBy(Apply(s, OnVolume(v, e)), v, x) ==> HostedBy(s, v, x) {
        HostingChanges(s, OnVolume(v, e), v, x);
      }
      WorkingFrame(s, Apply(s, OnVolume(v, e)), v, VolumeNext(s, v, e).value);
    }
  }

  lemma CallPlacedStep(s: State, e: Event, v: VolumeName)
    requires Sound(s) && Placed(s) && Enabled(s, e) && Disciplined(s, e) && !IsMove(e)
    requires v in Apply(s, e).calls
    ensures CallPlaced(Apply(s, e), v, Apply(s, e).calls[v])
  {
    if !CsiEventOn(e, v) {
      CallFrame(s, e, v);
    } else if e.OnCreate? {
      CreateNextPlaced(s, v, e.create);
    } else {
      VolumeNextStep(s, v, e.volume);
    }
  }

  /** While a record is terminating its volume is put on no drive. */
  lemma TerminatingGainsNothing(s: State, e: Event, v: VolumeName, x: DriveID)
    requires Sound(s) && Placed(s) && Enabled(s, e) && Disciplined(s, e) && !IsMove(e)
    requires v in s.volumes && s.volumes[v].deleting
    ensures HostedBy(Apply(s, e), v, x) <==> HostedBy(s, v, x) && !Loses(s, e, v, x)
  {
    HostingChanges(s, e, v, x);
    if v in s.calls {
      assert CallPlaced(s, v, s.calls[v]);
    }
  }

  lemma TerminatingKept(s: State, e: Event, v: VolumeName)
    requires Sound(s) && Placed(s) && Enabled(s, e) && Disciplined(s, e) && !IsMove(e)
    requires v in s.volumes && s.volumes[v].deleting && e != OnRelease(v, Purge)
    ensures v in Apply(s, e).volumes && Apply(s, e).volumes[v].deleting
  {
    if !Relabels(e, v) {
      RecordChanges(s, e, v);
    } else if e.create.RewriteRecord? {
      RewriteIsLive(s, v);
    }
  }

  lemma ReleaseNextPlaced(s: State, v: VolumeName, e: ReleaseStep)
    requires Sound(s) && Placed(s) && ReleaseEnabled(s, v, e)
    requires ReleaseNext(s, v, e).Some?
    ensures v in s.volumes && s.volumes[v].deleting
    ensures
      var call := ReleaseNext(s, v, e).value;
      && call.vol.deleting && IsReleased(call.vol)
      && OnlyOn(s, v, call.vol.driveLabel)
      && (call.ReleasePlaced? && !Hosts(call.drive, v) ==> Nowhere(s, v))
      && (call.Credited? && e != Credit ==> Nowhere(s, v))
  {
    if v in s.releases {
      assert ReleaseOf(s, v, s.releases[v]);
    }
    forall x ensures HostedBy(s, v, x) ==> Anchored(s, v, x) {}
  }

  lemma ReleaseOfStep(s: State, e: Event, v: VolumeName)
    requires Sound(s) && Placed(s) && Enabled(s, e) && Disciplined(s, e) && !IsMove(e)
    requires v in Apply(s, e).releases
    ensures ReleaseOf(Apply(s, e), v, Apply(s, e).releases[v])
  {
    if e.OnRelease? && e.v == v {
      OwnReleaseStep(s, v, e.release);
    } else {
      assert ReleaseOf(s, v, s.releases[v]);
      TerminatingKept(s, e, v);
      TerminatingHolds(s, e, v);
    }
  }

  lemma OwnReleaseStep(s: State, v: VolumeName, e: ReleaseStep)
    requires Sound(s) && Placed(s) && ReleaseEnabled(s, v, e) && ReleaseNext(s, v, e).Some?
    requires Disciplined(s, OnRelease(v, e))
    ensures ReleaseOf(Apply(s, OnRelease(v, e)), v, ReleaseNext(s, v, e).value)
  {
    ReleaseNextPlaced(s, v, e);
    TerminatingKept(s, OnRelease(v, e), v);
    TerminatingHolds(s, OnRelease(v, e), v);
  }

  lemma TerminatingHolds(s: State, e: Event, v: VolumeName)
    requires Sound(s) && Placed(s) && Enabled(s, e) && Disciplined(s, e) && !IsMove(e)
    requires v in s.volumes && s.volumes[v].deleting
    ensures forall x :: HostedBy(Apply(s, e), v, x) ==> HostedBy(s, v, x) && !Loses(s, e, v, x)
  {
    forall x ensures HostedBy(Apply(s, e), v, x) ==> HostedBy(s, v, x) && !Loses(s, e, v, x) {
      TerminatingGainsNothing(s, e, v, x);
    }
  }

  lemma DriveNamesStep(s: State, e: Event)
    requires Sound(s) && Placed(s) && Enabled(s, e) && !IsMove(e)
    ensures forall d :: d in DrivesAfter(s, WriteOf(s, e)) ==> DrivesAfter(s, WriteOf(s, e))[d].fsuuid == d
  {
    WriteNamesDrive(s, e);
  }

  lemma PlacedStep(s: State, e: Event)
    requires Sound(s) && Placed(s) && Enabled(s, e) && Disciplined(s, e) && !IsMove(e)
    ensures Placed(Apply(s, e))
  {
    var s' := Apply(s, e);
    DriveNamesStep(s, e);
    forall v, d ensures Anchored(s', v, d) { AnchoredStep(s, e, v, d); }
    forall v | v in s'.volumes ensures Recordful(s', v) { RecordfulStep(s, e, v); }
    forall v | v in s'.calls ensures CallPlaced(s', v, s'.calls[v]) { CallPlacedStep(s, e, v); }
    forall v | v in s'.releases ensures ReleaseOf(s', v, s'.releases[v]) { ReleaseOfStep(s, e, v); }
  }
}
