/** What every write does to the store, field by field, and what it finds there. Actors write whole
    objects they read earlier; in every run, Move included, exactly the fields named here change, from
    their current values, so no write undoes another. */
module Effects {
  import opened Objects
  import opened Cluster
  import opened Versions
  import opened Removal

  // ---------------------------------------------------------------- what holds in every run

  /** An object that is marked for deletion and has no finalizers left is gone. */
  ghost predicate NoGhosts(s: State) {
    && (forall d :: d in s.drives ==> !(s.drives[d].deleting && s.drives[d].fins == []))
    && (forall v :: v in s.volumes ==> !(s.volumes[v].deleting && s.volumes[v].fins == []))
  }

  /** What an actor had to find before it went on. */
  ghost predicate CallGuarded(call: Call) {
    match call
    case DeleteRead(vol) => !vol.staged && !vol.published
    case ExpandRead(want, vol) => vol.size < want
    case ExpandPlaced(want, vol, drive) => vol.size < want
    case GrowRead(want, vol) => vol.staged && vol.size < want
    case GrowLimited(want, vol) => vol.staged && vol.size < want
    case _ => true
  }

  function NamesOf(got: seq<Moved>): seq<VolumeName> {
    seq(|got|, i requires 0 <= i < |got| => got[i].name)
  }

  ghost predicate MoveGuarded(call: MoveCall) {
    && call.source.cordoned && VolumesOf(call.source.fins) != []
    && NamesOf(call.got) + (if call.Gathering? then call.todo else []) == VolumesOf(call.source.fins)
    && (call.Aiming? ==>
          && call.dst != call.src && call.target.cordoned && call.target.status == Ready
          && call.target.node == call.source.node && call.target.tier == call.source.tier
          && Bytes(call.got) <= call.target.free)
  }

  ghost predicate HandlerGuarded(call: HandlerCall) {
    call.Repointing? ==> call.at < |Walk(call)| && !call.vol.published && call.vol.node == call.drive.node
  }

  ghost predicate Guarded(s: State) {
    && (forall v :: v in s.calls ==> CallGuarded(s.calls[v]))
    && (forall v :: v in s.releases ==> s.releases[v].vol.deleting && IsReleased(s.releases[v].vol))
    && (forall m :: m in s.moves ==> MoveGuarded(s.moves[m]))
    && (forall d :: d in s.handlers ==> HandlerGuarded(s.handlers[d]))
  }

  ghost predicate Ordinary(s: State) {
    Consistent(s) && NoGhosts(s) && Guarded(s)
  }

  lemma GhostsStep(s: State, w: Write)
    requires NoGhosts(s)
    ensures forall d :: d in DrivesAfter(s, w) ==> !(DrivesAfter(s, w)[d].deleting && DrivesAfter(s, w)[d].fins == [])
    ensures forall v :: v in VolumesAfter(s, w) ==> !(VolumesAfter(s, w)[v].deleting && VolumesAfter(s, w)[v].fins == [])
  {
  }

  lemma VolumeNextGuarded(s: State, v: VolumeName, e: VolumeStep)
    requires VolumeEnabled(s, v, e) && VolumeNext(s, v, e).Some?
    requires v in s.calls ==> CallGuarded(s.calls[v])
    ensures CallGuarded(VolumeNext(s, v, e).value)
  {
  }

  lemma MoveNextGuarded(s: State, m: nat, e: MoveStep)
    requires MoveEnabled(s, m, e) && MoveNext(s, m, e).Some?
    requires m in s.moves ==> MoveGuarded(s.moves[m])
    ensures MoveGuarded(MoveNext(s, m, e).value)
  {
    if e.AimMove? {
      RequiredIsBytes(s.moves[m].got);
      assert NamesOf(s.moves[m].got) + [] == NamesOf(s.moves[m].got);
    } else if e.GatherVolume? {
      OneGathered(s.moves[m].got, s.moves[m].todo, s.volumes[s.moves[m].todo[0]].size);
    } else if e.StartMove? {
      assert [] + VolumesOf(s.drives[e.src].fins) == VolumesOf(s.drives[e.src].fins);
    }
  }

  lemma OneGathered(got: seq<Moved>, todo: seq<VolumeName>, size: int)
    requires todo != []
    ensures NamesOf(got + [Moved(todo[0], size)]) + todo[1..] == NamesOf(got) + todo
  {
  }

  lemma CallsGuarded(s: State, e: Event)
    requires Guarded(s) && Enabled(s, e)
    ensures forall v :: v in Apply(s, e).calls ==> CallGuarded(Apply(s, e).calls[v])
  {
    forall v | v in Apply(s, e).calls ensures CallGuarded(Apply(s, e).calls[v]) {
      if e.OnVolume? && e.v == v { VolumeNextGuarded(s, v, e.volume); }
    }
  }

  lemma MovesGuarded(s: State, e: Event)
    requires Guarded(s) && Enabled(s, e)
    ensures forall m :: m in Apply(s, e).moves ==> MoveGuarded(Apply(s, e).moves[m])
  {
    forall m | m in Apply(s, e).moves ensures MoveGuarded(Apply(s, e).moves[m]) {
      if e.OnMove? && e.m == m { MoveNextGuarded(s, m, e.move); }
    }
  }

  lemma OthersGuarded(s: State, e: Event)
    requires Guarded(s) && Enabled(s, e)
    ensures forall v :: v in Apply(s, e).releases ==>
              Apply(s, e).releases[v].vol.deleting && IsReleased(Apply(s, e).releases[v].vol)
    ensures forall d :: d in Apply(s, e).handlers ==> HandlerGuarded(Apply(s, e).handlers[d])
  {
  }

  lemma OrdinaryStep(s: State, e: Event)
    requires Ordinary(s) && Enabled(s, e)
    ensures Ordinary(Apply(s, e))
  {
    ConsistentStep(s, e);
    GhostsStep(s, WriteOf(s, e));
    CallsGuarded(s, e);
    MovesGuarded(s, e);
    OthersGuarded(s, e);
  }

  lemma {:induction false} OrdinaryRun(s: State, es: seq<Event>)
    requires Ordinary(s) && Runs(s, es)
    ensures Ordinary(After(s, es))
    decreases |es|
  {
    if es != [] {
      OrdinaryStep(s, es[0]);
      OrdinaryRun(Apply(s, es[0]), es[1..]);
    }
  }

  lemma EveryRun(es: seq<Event>)
    requires Runs(Empty(), es)
    ensures Ordinary(After(Empty(), es))
  {
    OrdinaryRun(Empty(), es);
  }

  // ---------------------------------------------------------------- what changes at all

  /** Of all objects only drive `d` is written: it becomes `drive`, under a new version. */
  ghost predicate Becomes(s: State, s': State, d: DriveID, drive: Drive) {
    && s'.volumes == s.volumes
    && s'.drives == s.drives[d := drive.(version := s.clock + 1)]
  }

  /** Of all objects only record `v` is written. */
  ghost predicate Records(s: State, s': State, v: VolumeName, vol: Volume) {
    && s'.drives == s.drives
    && s'.volumes == s.volumes[v := vol.(version := s.clock + 1)]
  }

  predicate Writing(e: Event) {
    match e
    case OnDrive(d, step) => true
    case OnCreate(v, step) => step.CreateRecord? || step.RewriteRecord? || step.ReserveDrive?
    case OnVolume(v, step) =>
      step.Unprotect? || step.DeleteRecord? || step.GrantExpand? || step.StageRecord? || step.EditVolume? || step.GrowRecord?
    case OnRelease(v, step) => step.Credit? || step.Purge?
    case OnMove(m, step) => step.LandMove? || step.ResetSource?
    case OnHandler(d, step) => step.StageVolume? || step.PointVolume? || step.MarkReady?
  }

  /** Every other event leaves drives and records alone. */
  lemma OthersWriteNothing(s: State, e: Event)
    requires Enabled(s, e) && !Writing(e)
    ensures Apply(s, e).drives == s.drives && Apply(s, e).volumes == s.volumes && Apply(s, e).clock == s.clock
  {
  }

  // ---------------------------------------------------------------- capacity

  /** A reservation takes the requested bytes (without a request, all free ones) from Free into
      Allocated, appends the volume and adds its claim, on a drive that admits it. */
  ghost predicate ReservesExactly(s: State, v: VolumeName)
    requires Enabled(s, OnCreate(v, ReserveDrive))
  {
    var s', Recorded(req, pick) := Apply(s, OnCreate(v, ReserveDrive)), s.calls[v];
    && pick.id in s.drives && VolumeRef(v) !in s.drives[pick.id].fins
    && var was := s.drives[pick.id];
       var size := if req.bytes.Some? then req.bytes.value else was.free;
       Becomes(s, s', pick.id, was.(fins := was.fins + [VolumeRef(v)], free := was.free - size, alloc := was.alloc + size,
         claims := was.claims + (if req.claim.Claim? then {req.claim.id} else {})))
  }

  lemma ReservationIsExact(es: seq<Event>, v: VolumeName)
    requires Runs(Empty(), es) && Enabled(After(Empty(), es), OnCreate(v, ReserveDrive))
    ensures ReservesExactly(After(Empty(), es), v)
  {
    EveryRun(es);
    ReservesStep(After(Empty(), es), v);
  }

  lemma ReservesStep(s: State, v: VolumeName)
    requires Ordinary(s) && Enabled(s, OnCreate(v, ReserveDrive))
    ensures ReservesExactly(s, v)
  {
    assert CallRead(s, v, s.calls[v]);
    assert forall claims: set<nat> :: claims + {} == claims;
  }

  /** A granted expansion takes exactly the bytes asked for beyond the recorded size from Free into
      Allocated of the drive that the record named, which has them. */
  ghost predicate GrantsExactly(s: State, v: VolumeName)
    requires Enabled(s, OnVolume(v, GrantExpand))
  {
    var s', ExpandPlaced(want, vol, drive) := Apply(s, OnVolume(v, GrantExpand)), s.calls[v];
    && vol.driveLabel in s.drives
    && var was := s.drives[vol.driveLabel];
       && 0 < want - vol.size <= was.free
       && Becomes(s, s', vol.driveLabel,
                  was.(free := was.free - (want - vol.size), alloc := was.alloc + (want - vol.size)))
  }

  lemma GrantIsExact(es: seq<Event>, v: VolumeName)
    requires Runs(Empty(), es) && Enabled(After(Empty(), es), OnVolume(v, GrantExpand))
    ensures GrantsExactly(After(Empty(), es), v)
  {
    EveryRun(es);
    GrantsStep(After(Empty(), es), v);
  }

  lemma GrantsStep(s: State, v: VolumeName)
    requires Ordinary(s) && Enabled(s, OnVolume(v, GrantExpand))
    ensures GrantsExactly(s, v)
  {
    assert CallRead(s, v, s.calls[v]) && CallGuarded(s.calls[v]);
  }

  /** A resync takes over the total and, if that changed, makes Free what Allocated leaves of it. */
  lemma ResyncIsExact(es: seq<Event>, d: DriveID, total: int)
    requires Runs(Empty(), es) && Enabled(After(Empty(), es), OnDrive(d, Resync(total)))
    ensures
      var s := After(Empty(), es);
      var was := s.drives[d];
      Becomes(s, Apply(s, OnDrive(d, Resync(total))), d,
              was.(total := total,
                   free := if total == was.total then was.free else if total <= was.alloc then 0 else total - was.alloc))
  {
    EveryRun(es);
  }

  // ---------------------------------------------------------------- Move

  function Bytes(got: seq<Moved>): int {
    if got == [] then 0 else got[0].size + Bytes(got[1..])
  }

  /** The gathered volumes that a drive with this list does not hold yet. */
  function Arriving(fins: seq<Finalizer>, got: seq<Moved>): seq<Moved>
    decreases |got|
  {
    if got == [] then []
    else if VolumeRef(got[0].name) in fins then Arriving(fins, got[1..])
    else [got[0]] + Arriving(fins + [VolumeRef(got[0].name)], got[1..])
  }

  function Refs(got: seq<Moved>): seq<Finalizer> {
    seq(|got|, i requires 0 <= i < |got| => VolumeRef(got[i].name))
  }

  lemma {:induction false} BytesLast(got: seq<Moved>)
    requires got != []
    ensures Bytes(got) == Bytes(got[..|got| - 1]) + got[|got| - 1].size
  {
    if |got| > 1 {
      BytesLast(got[1..]);
      assert got[1..][..|got| - 2] == got[..|got| - 1][1..];
    }
  }

  /** Move's sum is the sum of the gathered sizes. */
  lemma {:induction false} RequiredIsBytes(got: seq<Moved>)
    ensures Required(got) == Bytes(got)
  {
    if got != [] {
      RequiredIsBytes(got[..|got| - 1]);
      BytesLast(got);
    }
  }

  /** Taking in the first and then the rest is taking in all. */
  lemma {:induction false} TakeInFirst(drive: Drive, got: seq<Moved>)
    requires got != []
    ensures TakeIn(drive, got) == TakeIn(TakeIn(drive, got[..1]), got[1..])
  {
    if |got| == 1 {
      assert got[..1] == got && got[1..] == [];
    } else {
      var init := got[..|got| - 1];
      TakeInFirst(drive, init);
      assert init[..1] == got[..1] && init[1..] == got[1..][..|got| - 2];
      assert got[1..][|got| - 2] == got[|got| - 1];
    }
  }

  lemma TakeInOne(drive: Drive, m: Moved)
    ensures TakeIn(drive, [m]) ==
            if VolumeRef(m.name) in drive.fins then drive
            else drive.(fins := drive.fins + [VolumeRef(m.name)], free := drive.free - m.size, alloc := drive.alloc + m.size)
  {
    assert [m][..0] == [];
  }

  /** The loop appends the arriving volumes in order and charges the sum of their sizes. */
  lemma {:induction false} TakeInExactly(drive: Drive, got: seq<Moved>)
    ensures TakeIn(drive, got) == With(drive, Arriving(drive.fins, got))
    decreases |got|
  {
    if got == [] {
      assert drive.fins + Refs([]) == drive.fins;
    } else {
      var first := TakeIn(drive, got[..1]);
      assert got[..1] == [got[0]];
      TakeInOne(drive, got[0]);
      TakeInFirst(drive, got);
      TakeInExactly(first, got[1..]);
      if VolumeRef(got[0].name) !in drive.fins {
        OneMore(drive, got[0], Arriving(first.fins, got[1..]));
      }
    }
  }

  /** What the loop has done when exactly these volumes arrived. */
  function With(drive: Drive, more: seq<Moved>): Drive {
    drive.(fins := drive.fins + Refs(more), free := drive.free - Bytes(more), alloc := drive.alloc + Bytes(more))
  }

  lemma OneMore(drive: Drive, m: Moved, rest: seq<Moved>)
    ensures With(drive, [m] + rest) ==
            With(drive.(fins := drive.fins + [VolumeRef(m.name)], free := drive.free - m.size, alloc := drive.alloc + m.size),
                 rest)
  {
    assert ([m] + rest)[1..] == rest;
    assert Refs([m] + rest) == [VolumeRef(m.name)] + Refs(rest);
    assert drive.fins + ([VolumeRef(m.name)] + Refs(rest)) == (drive.fins + [VolumeRef(m.name)]) + Refs(rest);
  }

  /** Gathering takes the next volume of the source's list, unpublished, at its recorded size. */
  lemma GatherIsExact(es: seq<Event>, m: nat)
    requires Runs(Empty(), es) && Enabled(After(Empty(), es), OnMove(m, GatherVolume))
    ensures
      var s := After(Empty(), es);
      var s', call := Apply(s, OnMove(m, GatherVolume)), s.moves[m];
      && |call.got| < |VolumesOf(call.source.fins)|
      && var v := VolumesOf(call.source.fins)[|call.got|];
         && v in s.volumes && !s.volumes[v].published
         && m in s'.moves && s'.moves[m].got == call.got + [Moved(v, s.volumes[v].size)] && s'.moves[m].source == call.source
  {
    EveryRun(es);
    var call := After(Empty(), es).moves[m];
    assert MoveGuarded(call);
    assert (NamesOf(call.got) + call.todo)[|call.got|] == call.todo[0];
  }

  /** A landing brings all volumes of the source's list, charges the destination the gathered sizes of the volumes it does not hold yet, appends
      them, and marks it Moving; and it lands only on a cordoned Ready drive, other than the source, on the
      node and of the tier of the source, which was cordoned and not empty, with room for all of it. */
  ghost predicate LandsExactly(s: State, m: nat, s': State)
    requires m in s.moves && s.moves[m].Aiming?
  {
    var call := s.moves[m];
    && NamesOf(call.got) == VolumesOf(call.source.fins) != []
    && call.dst in s.drives && call.dst != call.src && call.source.cordoned
    && var was := s.drives[call.dst];
       var more := Arriving(was.fins, call.got);
       && was.cordoned && was.status == Ready && was.node == call.source.node && was.tier == call.source.tier
       && Bytes(call.got) <= was.free
       && Becomes(s, s', call.dst,
                  was.(fins := was.fins + Refs(more), free := was.free - Bytes(more), alloc := was.alloc + Bytes(more),
                       status := Moving))
  }

  lemma LandingIsExact(es: seq<Event>, m: nat)
    requires Runs(Empty(), es) && Enabled(After(Empty(), es), OnMove(m, LandMove))
    ensures LandsExactly(After(Empty(), es), m, Apply(After(Empty(), es), OnMove(m, LandMove)))
  {
    EveryRun(es);
    LandsStep(After(Empty(), es), m);
  }

  lemma LandsStep(s: State, m: nat)
    requires Ordinary(s) && Enabled(s, OnMove(m, LandMove))
    ensures LandsExactly(s, m, Apply(s, OnMove(m, LandMove)))
  {
    LandingFinds(s, m);
    LandingWrites(s, m);
    LandedExactly(s, m, Apply(s, OnMove(m, LandMove)));
  }

  lemma LandedExactly(s: State, m: nat, s': State)
    requires m in s.moves && s.moves[m].Aiming? && MoveGuarded(s.moves[m])
    requires s.moves[m].dst in s.drives && s.drives[s.moves[m].dst] == s.moves[m].target
    requires Becomes(s, s', s.moves[m].dst, TakeIn(s.moves[m].target, s.moves[m].got).(status := Moving))
    ensures LandsExactly(s, m, s')
  {
    TakeInExactly(s.moves[m].target, s.moves[m].got);
  }

  lemma LandingFinds(s: State, m: nat)
    requires Ordinary(s) && Enabled(s, OnMove(m, LandMove))
    ensures s.drives[s.moves[m].dst] == s.moves[m].target && MoveGuarded(s.moves[m])
  {
    assert MoveRead(s, s.moves[m]) && MoveGuarded(s.moves[m]);
  }

  lemma LandingWrites(s: State, m: nat)
    requires NoGhosts(s) && Enabled(s, OnMove(m, LandMove)) && s.drives[s.moves[m].dst] == s.moves[m].target
    ensures Becomes(s, Apply(s, OnMove(m, LandMove)), s.moves[m].dst,
                    TakeIn(s.moves[m].target, s.moves[m].got).(status := Moving))
  {
    TakeInExactly(s.moves[m].target, s.moves[m].got);
  }

  /** The reset leaves the source its data protection and takes nothing else from it. */
  lemma ResetIsExact(es: seq<Event>, m: nat)
    requires Runs(Empty(), es) && Enabled(After(Empty(), es), OnMove(m, ResetSource))
    ensures
      var s := After(Empty(), es);
      var src := s.moves[m].src;
      && src in s.drives
      && Becomes(s, Apply(s, OnMove(m, ResetSource)), src, s.drives[src].(fins := [DataProtection]))
  {
    EveryRun(es);
    assert MoveRead(After(Empty(), es), After(Empty(), es).moves[m]);
  }

  // ---------------------------------------------------------------- the other drive writers

  /** Each writer changes its one field, or makes the drive or lets it go. */
  lemma DriveStepIsExact(es: seq<Event>, d: DriveID, e: DriveStep)
    requires Runs(Empty(), es) && Enabled(After(Empty(), es), OnDrive(d, e))
    ensures
      var s := After(Empty(), es);
      var s' := Apply(s, OnDrive(d, e));
      match e
      case InitDrive(total, free, node, tier) =>
        d !in s.drives && 0 <= free <= total &&
        Becomes(s, s', d, Drive(0, d, node, tier, total, free, 0, Ready, false, false, [DataProtection], {}))
      case SetHealth(status) => Becomes(s, s', d, s.drives[d].(status := status))
      case Resync(total) => true
      case Cordon(on) => Becomes(s, s', d, s.drives[d].(cordoned := on))
      case MarkRemoved => |s.drives[d].fins| <= 1 && Becomes(s, s', d, s.drives[d].(status := Removed))
      case StripFinalizers =>
        s.drives[d].status == Removed &&
        (if s.drives[d].fins != [DataProtection] then Becomes(s, s', d, s.drives[d])
         else if s.drives[d].deleting then s'.drives == s.drives - {d} && s'.volumes == s.volumes
         else Becomes(s, s', d, s.drives[d].(fins := [])))
      case DeleteDrive =>
        if s.drives[d].fins == [] then s'.drives == s.drives - {d} && s'.volumes == s.volumes
        else Becomes(s, s', d, s.drives[d].(deleting := true))
  {
    EveryRun(es);
  }

  /** The move handler's last write turns the drive Ready and changes nothing else about it. */
  lemma ReadyIsExact(es: seq<Event>, d: DriveID)
    requires Runs(Empty(), es) && Enabled(After(Empty(), es), OnHandler(d, MarkReady))
    ensures
      var s := After(Empty(), es);
      d in s.drives && Becomes(s, Apply(s, OnHandler(d, MarkReady)), d, s.drives[d].(status := Ready))
  {
    EveryRun(es);
    assert HandlerReads(After(Empty(), es), d, After(Empty(), es).handlers[d]);
  }

  // ---------------------------------------------------------------- records

  /** CreateVolume writes the record of a volume that is unstaged, unpublished and twice protected: with
      the ID, FSUUID and node of the drive it settled on and the requested size (without a request, all
      bytes that were free there). A record that was there keeps its deletion mark, and its claim if the
      request has none. */
  ghost predicate MakesExactly(s: State, v: VolumeName, e: CreateStep)
    requires Enabled(s, OnCreate(v, e)) && (e.CreateRecord? || e.RewriteRecord?)
  {
    var s', Candidate(d, drive) := Apply(s, OnCreate(v, e)), s.calls[v].pick;
    var req := s.calls[v].req;
    var size := if req.bytes.Some? then req.bytes.value else drive.free;
    && (e.CreateRecord? ==> v !in s.volumes)
    && (e.RewriteRecord? ==> v in s.volumes)
    && Records(s, s', v,
         Volume(0, d, drive.fsuuid, drive.node, size,
                if e.RewriteRecord? && req.claim.NoClaim? then s.volumes[v].claim else req.claim,
                false, false, e.RewriteRecord? && s.volumes[v].deleting, [PVProtection, PurgeProtection]))
  }

  lemma RecordIsMadeExactly(es: seq<Event>, v: VolumeName, e: CreateStep)
    requires Runs(Empty(), es) && Enabled(After(Empty(), es), OnCreate(v, e)) && (e.CreateRecord? || e.RewriteRecord?)
    ensures MakesExactly(After(Empty(), es), v, e)
  {
    EveryRun(es);
    MakesStep(After(Empty(), es), v, e);
  }

  lemma MakesStep(s: State, v: VolumeName, e: CreateStep)
    requires Ordinary(s) && Enabled(s, OnCreate(v, e)) && (e.CreateRecord? || e.RewriteRecord?)
    ensures MakesExactly(s, v, e)
  {
    assert CallRead(s, v, s.calls[v]);
  }

  /** Protection is taken off only a record that is neither staged nor published. */
  ghost predicate UnprotectsExactly(s: State, v: VolumeName, s': State) {
    && v in s.volumes && !s.volumes[v].staged && !s.volumes[v].published
    && exists fins: seq<VolumeFinalizer> ::
         && PVProtection !in fins
         && (PurgeProtection in fins <==> PurgeProtection in s.volumes[v].fins)
         && if s.volumes[v].deleting && fins == [] then s'.volumes == s.volumes - {v} && s'.drives == s.drives
            else Records(s, s', v, s.volumes[v].(fins := fins))
  }

  lemma UnprotectsStep(s: State, v: VolumeName)
    requires Ordinary(s) && Enabled(s, OnVolume(v, Unprotect))
    ensures UnprotectsExactly(s, v, Apply(s, OnVolume(v, Unprotect)))
  {
    assert CallRead(s, v, s.calls[v]) && CallGuarded(s.calls[v]);
    var fins := WithoutFinalizer(s.volumes[v].fins, PVProtection);
    WithoutFinalizerMember(s.volumes[v].fins, PVProtection, PVProtection);
    WithoutFinalizerMember(s.volumes[v].fins, PVProtection, PurgeProtection);
    assert s.volumes[v].deleting && fins == [] ==> Apply(s, OnVolume(v, Unprotect)).volumes == s.volumes - {v};
  }

  /** Staging and growing change one field of the current record; a deletion mark makes the record go if
      nothing protects it. */
  ghost predicate EditsExactly(s: State, v: VolumeName, e: VolumeStep)
    requires Enabled(s, OnVolume(v, e))
  {
    var s' := Apply(s, OnVolume(v, e));
    match e
    case Unprotect => UnprotectsExactly(s, v, s')
    case DeleteRecord =>
      && v in s.volumes
      && if s.volumes[v].fins == [] then s'.volumes == s.volumes - {v} && s'.drives == s.drives
         else Records(s, s', v, s.volumes[v].(deleting := true))
    case StageRecord => v in s.volumes && Records(s, s', v, s.volumes[v].(staged := true))
    case EditVolume(staged, published) =>
      v in s.volumes && Records(s, s', v, s.volumes[v].(staged := staged, published := published))
    case GrowRecord =>
      v in s.volumes && s.volumes[v].staged && s.volumes[v].size < s.calls[v].want
      && Records(s, s', v, s.volumes[v].(size := s.calls[v].want))
    case _ => s'.volumes == s.volumes
  }

  lemma EditIsExact(es: seq<Event>, v: VolumeName, e: VolumeStep)
    requires Runs(Empty(), es) && Enabled(After(Empty(), es), OnVolume(v, e))
    ensures EditsExactly(After(Empty(), es), v, e)
  {
    EveryRun(es);
    EditsStep(After(Empty(), es), v, e);
  }

  lemma EditsStep(s: State, v: VolumeName, e: VolumeStep)
    requires Ordinary(s) && Enabled(s, OnVolume(v, e))
    ensures EditsExactly(s, v, e)
  {
    match e
    case Unprotect => UnprotectsStep(s, v);
    case StageRecord => CopyIsCurrent(s, v, e);
    case GrowRecord => CopyIsCurrent(s, v, e);
    case DeleteRecord =>
    case EditVolume(staged, published) =>
    case _ => NoRecordWritten(s, v, e);
  }

  lemma CopyIsCurrent(s: State, v: VolumeName, e: VolumeStep)
    requires Ordinary(s) && VolumeEnabled(s, v, e) && (e.StageRecord? || e.GrowRecord?)
    ensures v in s.volumes && s.calls[v].vol == s.volumes[v] && CallGuarded(s.calls[v])
    ensures !(s.volumes[v].deleting && s.volumes[v].fins == [])
  {
    assert CallRead(s, v, s.calls[v]) && CallGuarded(s.calls[v]);
  }

  lemma NoRecordWritten(s: State, v: VolumeName, e: VolumeStep)
    requires VolumeEnabled(s, v, e) && !VolumeWrite(s, v, e).PutVolume?
    ensures Apply(s, OnVolume(v, e)).volumes == s.volumes
  {
  }

  /** The move handler, and the staging it asks for, point an unpublished record of the drive's node at the
      drive, in label and FSUUID, and change nothing else about it. */
  lemma PointingIsExact(es: seq<Event>, d: DriveID, e: HandlerStep)
    requires Runs(Empty(), es) && Enabled(After(Empty(), es), OnHandler(d, e)) && (e.PointVolume? || e.StageVolume?)
    ensures
      var s := After(Empty(), es);
      var call := s.handlers[d];
      && call.at < |VolumesOf(call.drive.fins)|
      && var v := VolumesOf(call.drive.fins)[call.at];
         && v in s.volumes && !s.volumes[v].published && s.volumes[v].node == call.drive.node
         && (e.StageVolume? ==> s.volumes[v].staged)
         && Records(s, Apply(s, OnHandler(d, e)), v, s.volumes[v].(driveLabel := d, fsuuid := call.drive.fsuuid))
  {
    EveryRun(es);
    PointsStep(After(Empty(), es), d, e);
  }

  lemma PointsStep(s: State, d: DriveID, e: HandlerStep)
    requires Ordinary(s) && Enabled(s, OnHandler(d, e)) && (e.PointVolume? || e.StageVolume?)
    ensures
      var call := s.handlers[d];
      && call.at < |Walk(call)|
      && var v := Walk(call)[call.at];
         && v in s.volumes && !s.volumes[v].published && s.volumes[v].node == call.drive.node
         && (e.StageVolume? ==> s.volumes[v].staged)
         && Records(s, Apply(s, OnHandler(d, e)), v, s.volumes[v].(driveLabel := d, fsuuid := call.drive.fsuuid))
  {
    assert HandlerReads(s, d, s.handlers[d]) && HandlerGuarded(s.handlers[d]);
  }

  /** The delete handler's last write finds a terminating record with nothing but purge protection on it,
      and lets it go. */
  lemma PurgeIsExact(es: seq<Event>, v: VolumeName)
    requires Runs(Empty(), es) && Enabled(After(Empty(), es), OnRelease(v, Purge))
    ensures
      var s := After(Empty(), es);
      var s' := Apply(s, OnRelease(v, Purge));
      && v in s.volumes && s.volumes[v].deleting && s.volumes[v].fins == [PurgeProtection]
      && s'.volumes == s.volumes - {v} && s'.drives == s.drives
  {
    EveryRun(es);
    PurgesStep(After(Empty(), es), v);
  }

  lemma PurgesStep(s: State, v: VolumeName)
    requires Ordinary(s) && Enabled(s, OnRelease(v, Purge))
    ensures
      var s' := Apply(s, OnRelease(v, Purge));
      && v in s.volumes && s.volumes[v].deleting && s.volumes[v].fins == [PurgeProtection]
      && s'.volumes == s.volumes - {v} && s'.drives == s.drives
  {
    assert ReleaseReads(s, v, s.releases[v]);
    var fins := s.releases[v].vol.fins;
    assert fins[..0] == [] && WithoutFinalizer([], PurgeProtection) == [];
    assert WithoutFinalizer(fins, PurgeProtection) == WithoutFinalizer(fins[..0], PurgeProtection) + [];
  }

  // ---------------------------------------------------------------- where a volume may go

  /** A drive that CreateVolume reserves is Ready, not cordoned, not being deleted, has the bytes and does
      not carry the claim, when the reservation lands. */
  lemma ReservedWhereAllowed(es: seq<Event>, v: VolumeName)
    requires Runs(Empty(), es) && DisciplinedRun(Empty(), es) && Enabled(After(Empty(), es), OnCreate(v, ReserveDrive))
    ensures
      var s := After(Empty(), es);
      var Recorded(req, pick) := s.calls[v];
      && pick.id in s.drives
      && var drive := s.drives[pick.id];
         && drive.status == Ready && !drive.cordoned && !drive.deleting
         && (req.bytes.Some? ==> req.bytes.value <= drive.free)
         && (req.claim.Claim? ==> req.claim.id !in drive.claims)
  {
    SoundRun(Empty(), es);
    var s := After(Empty(), es);
    assert CallRead(s, v, s.calls[v]) && Admitted(v, s.calls[v]);
  }
}
