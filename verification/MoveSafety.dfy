/** Move, interleaved with every other writer and with other Moves, aborted anywhere: a volume
    once placed is on some drive until it is itself released, and a destination never goes
    below zero free bytes. */
module MoveSafety {
  import opened Objects
  import opened Cluster
  import opened Versions
  import opened Removal
  import opened Placement

  // ---------------------------------------------------------------- one landing

  ghost predicate Sizes(got: seq<Moved>) {
    forall i :: 0 <= i < |got| ==> 0 <= got[i].size
  }

  /** It pays for each new volume once, out of Free into Allocated. */
  lemma {:induction false} TakeInConserves(drive: Drive, got: seq<Moved>)
    requires Sizes(got)
    ensures
      var after := TakeIn(drive, got);
      && after.free + after.alloc == drive.free + drive.alloc
      && after.total == drive.total
      && drive.free - Required(got) <= after.free <= drive.free
      && 0 <= Required(got)
  {
    if got != [] {
      TakeInConserves(drive, got[..|got| - 1]);
    }
  }

  // ---------------------------------------------------------------- free bytes

  ghost predicate CallSized(call: Call) {
    match call
    case Listing(req, pending, matched) => req.bytes.Some? && 0 <= req.bytes.value
    case Chosen(req, pick) => req.bytes.Some? && 0 <= req.bytes.value
    case Reusing(req, pick, vol) => req.bytes.Some? && 0 <= req.bytes.value
    case Recorded(req, pick) => req.bytes.Some? && 0 <= req.bytes.value
    case GrowRead(want, vol) => 0 <= vol.size < want
    case GrowLimited(want, vol) => 0 <= vol.size < want
    case DeleteUnprotected => true
    case _ => 0 <= call.vol.size
  }

  ghost predicate MoveSized(call: MoveCall) {
    && Sizes(call.got)
    && (call.Aiming? ==> Required(call.got) <= call.target.free)
  }

  /** No drive has negative free bytes and no recorded or gathered size is negative. */
  ghost predicate Solvent(s: State) {
    && (forall d :: d in s.drives ==> 0 <= s.drives[d].free)
    && (forall v :: v in s.volumes ==> 0 <= s.volumes[v].size)
    && (forall v :: v in s.calls ==> CallSized(s.calls[v]))
    && (forall v :: v in s.releases ==> 0 <= s.releases[v].vol.size)
    && (forall m :: m in s.moves ==> MoveSized(s.moves[m]))
    && (forall d :: d in s.handlers && s.handlers[d].Repointing? ==> 0 <= s.handlers[d].vol.size)
  }

  ghost predicate WriteInRange(w: Write) {
    && (w.PutDrive? ==> 0 <= w.drive.free)
    && (w.PutVolume? ==> 0 <= w.vol.size)
  }

  lemma WriteSolvent(s: State, e: Event)
    requires Sound(s) && Solvent(s) && Enabled(s, e)
    ensures WriteInRange(WriteOf(s, e))
  {
    match e
    case OnDrive(d, step) =>
    case OnCreate(v, step) => CreateWriteSolvent(s, v, step);
    case OnVolume(v, step) => VolumeWriteSolvent(s, v, step);
    case OnRelease(v, step) =>
      if v in s.releases { assert ReleaseReads(s, v, s.releases[v]); }
    case OnMove(m, step) => MoveWriteSolvent(s, m, step);
    case OnHandler(d, step) => HandlerWriteSolvent(s, d, step);
  }

  lemma HandlerWriteSolvent(s: State, d: DriveID, e: HandlerStep)
    requires Sound(s) && Solvent(s) && HandlerEnabled(s, d, e)
    ensures WriteInRange(HandlerWrite(s, d, e))
  {
    if d in s.handlers { assert HandlerReads(s, d, s.handlers[d]); }
  }

  lemma CreateWriteSolvent(s: State, v: VolumeName, e: CreateStep)
    requires Sound(s) && Solvent(s) && CreateEnabled(s, v, e)
    ensures WriteInRange(CreateWrite(s, v, e))
  {
    if v in s.calls { assert CallSized(s.calls[v]) && Admitted(v, s.calls[v]); }
  }

  lemma VolumeWriteSolvent(s: State, v: VolumeName, e: VolumeStep)
    requires Solvent(s) && VolumeEnabled(s, v, e)
    ensures WriteInRange(VolumeWrite(s, v, e))
  {
    if v in s.calls { assert CallSized(s.calls[v]); }
  }

  lemma MoveWriteSolvent(s: State, m: nat, e: MoveStep)
    requires Sound(s) && Solvent(s) && MoveEnabled(s, m, e)
    ensures WriteInRange(MoveWrite(s, m, e))
  {
    if m in s.moves {
      assert MoveSized(s.moves[m]) && MoveRead(s, s.moves[m]);
      if e.LandMove? { TakeInConserves(s.moves[m].target, s.moves[m].got); }
    }
  }

  lemma CreateNextSized(s: State, v: VolumeName, e: CreateStep)
    requires Solvent(s) && CreateEnabled(s, v, e) && Disciplined(s, OnCreate(v, e)) && CreateNext(s, v, e).Some?
    ensures CallSized(CreateNext(s, v, e).value)
  {
    if v in s.calls { assert CallSized(s.calls[v]); }
  }

  lemma VolumeNextSized(s: State, v: VolumeName, e: VolumeStep)
    requires Solvent(s) && VolumeEnabled(s, v, e) && VolumeNext(s, v, e).Some?
    ensures CallSized(VolumeNext(s, v, e).value)
  {
    if v in s.calls { assert CallSized(s.calls[v]); }
  }

  lemma MoveNextSized(s: State, m: nat, e: MoveStep)
    requires Solvent(s) && MoveEnabled(s, m, e) && MoveNext(s, m, e).Some?
    ensures MoveSized(MoveNext(s, m, e).value)
  {
    if m in s.moves { assert MoveSized(s.moves[m]); }
  }

  lemma StoredSolvent(s: State, w: Write)
    requires Solvent(s) && WriteInRange(w)
    ensures forall d :: d in DrivesAfter(s, w) ==> 0 <= DrivesAfter(s, w)[d].free
    ensures forall v :: v in VolumesAfter(s, w) ==> 0 <= VolumesAfter(s, w)[v].size
  {
  }

  lemma ActorsSolvent(s: State, e: Event)
    requires Solvent(s) && Enabled(s, e) && Disciplined(s, e)
    ensures forall v :: v in Apply(s, e).calls ==> CallSized(Apply(s, e).calls[v])
    ensures forall v :: v in Apply(s, e).releases ==> 0 <= Apply(s, e).releases[v].vol.size
    ensures forall m :: m in Apply(s, e).moves ==> MoveSized(Apply(s, e).moves[m])
    ensures forall d :: d in Apply(s, e).handlers && Apply(s, e).handlers[d].Repointing? ==>
              0 <= Apply(s, e).handlers[d].vol.size
  {
    var s' := Apply(s, e);
    forall v | v in s'.calls ensures CallSized(s'.calls[v]) {
      if e.OnCreate? && e.v == v {
        CreateNextSized(s, v, e.create);
      } else if e.OnVolume? && e.v == v {
        VolumeNextSized(s, v, e.volume);
      }
    }
    forall m | m in s'.moves ensures MoveSized(s'.moves[m]) {
      if e.OnMove? && e.m == m {
        MoveNextSized(s, m, e.move);
      }
    }
  }

  lemma SolventStep(s: State, e: Event)
    requires Sound(s) && Solvent(s) && Enabled(s, e) && Disciplined(s, e)
    ensures Solvent(Apply(s, e))
  {
    WriteSolvent(s, e);
    StoredSolvent(s, WriteOf(s, e));
    ActorsSolvent(s, e);
  }

  // ---------------------------------------------------------------- who holds a volume

  /** The last drive a standing volume was put on still has it. */
  ghost predicate Backed(s: State, v: VolumeName) {
    v in s.past.holder ==> HostedBy(s, v, s.past.holder[v])
  }

  ghost predicate Listed(call: MoveCall) {
    forall v :: Hosts(call.source, v) ==> v in Names(call.got) || (call.Gathering? && v in call.todo)
  }

  /** Once landed, and as long as the source is as it was read, no gathered volume depends on it. */
  ghost predicate Elsewhere(s: State, call: MoveCall) {
    call.Landed? && DriveCurrent(s, call.src, call.source) ==>
      forall v :: v in Names(call.got) && v in s.past.holder ==> s.past.holder[v] != call.src
  }

  ghost predicate Tracked(s: State, call: MoveCall) {
    && Listed(call)
    && (!call.Gathering? ==> call.src != call.dst)
    && Elsewhere(s, call)
  }

  ghost predicate Standing(s: State) {
    && (forall v :: Backed(s, v))
    && (forall m :: m in s.moves ==> Tracked(s, s.moves[m]))
  }

  lemma MoveNextListed(s: State, m: nat, e: MoveStep)
    requires MoveEnabled(s, m, e) && MoveNext(s, m, e).Some?
    requires m in s.moves ==> Tracked(s, s.moves[m])
    ensures Listed(MoveNext(s, m, e).value)
    ensures !MoveNext(s, m, e).value.Gathering? ==> MoveNext(s, m, e).value.src != MoveNext(s, m, e).value.dst
  {
    var call := MoveNext(s, m, e).value;
    if e.StartMove? {
      forall v ensures Hosts(call.source, v) ==> v in call.todo { VolumesOfMember(call.source.fins, v); }
    } else if e.GatherVolume? {
      NamesInit(call.got);
      assert call.got[..|call.got| - 1] == s.moves[m].got;
    }
  }

  /** A holder changes only to the drive that is being written. */
  lemma HolderWritten(s: State, e: Event, v: VolumeName)
    requires Enabled(s, e) && v in PastAfter(s, e).holder
    ensures (v in s.past.holder && PastAfter(s, e).holder[v] == s.past.holder[v]) ||
            (WriteOf(s, e).PutDrive? && PastAfter(s, e).holder[v] == WriteOf(s, e).d)
  {
  }

  /** An event that leaves the source as it was read makes no volume depend on it. */
  lemma ElsewhereKept(s: State, e: Event, call: MoveCall)
    requires Enabled(s, e) && DriveRead(s, call.src, call.source) && Elsewhere(s, call) && call.Landed?
    ensures Elsewhere(Apply(s, e), call)
  {
    var s' := Apply(s, e);
    var w := WriteOf(s, e);
    if DriveCurrent(s', call.src, call.source) {
      assert DriveCurrent(s, call.src, call.source);
      forall v | v in Names(call.got) && v in s'.past.holder ensures s'.past.holder[v] != call.src {
        HolderWritten(s, e, v);
      }
    }
  }

  lemma TrackedStep(s: State, e: Event, m: nat)
    requires Sound(s) && Standing(s) && Enabled(s, e) && m in Apply(s, e).moves
    ensures Tracked(Apply(s, e), Apply(s, e).moves[m])
  {
    if m in s.moves { assert Tracked(s, s.moves[m]) && MoveRead(s, s.moves[m]); }
    if e.OnMove? && e.m == m {
      MoveNextListed(s, m, e.move);
    } else if s.moves[m].Landed? {
      ElsewhereKept(s, e, s.moves[m]);
    }
  }

  /** Resetting a source takes no standing volume off its last holder. */
  lemma ResetSpares(s: State, e: Event, v: VolumeName)
    requires Sound(s) && Standing(s) && Enabled(s, e) && v in s.past.holder
    ensures !Resets(s, e, s.past.holder[v])
  {
    assert Backed(s, v);
    if e.OnMove? && e.move.ResetSource? {
      assert Tracked(s, s.moves[e.m]) && MoveRead(s, s.moves[e.m]);
    }
  }

  lemma BackedStep(s: State, e: Event, v: VolumeName)
    requires Sound(s) && Standing(s) && Enabled(s, e) && Disciplined(s, e)
    ensures Backed(Apply(s, e), v)
  {
    var s' := Apply(s, e);
    assert Backed(s, v);
    if v in s'.past.holder {
      HostingAll(s, e, v, s'.past.holder[v]);
      HolderPut(s, e, v);
      if v in s.past.holder { ResetSpares(s, e, v); }
    }
  }

  /** A holder is put on its drive by the event, or has been there. */
  lemma HolderPut(s: State, e: Event, v: VolumeName)
    requires Enabled(s, e) && v in PastAfter(s, e).holder
    ensures
      var d := PastAfter(s, e).holder[v];
      Puts(s, e, v, d) || (v in s.past.holder && s.past.holder[v] == d && !Loses(s, e, v, d))
  {
  }

  /** A volume stops standing only by its own release. */
  lemma StandsUnlessReleased(s: State, e: Event, v: VolumeName)
    requires Enabled(s, e) && v in s.past.holder && e != OnRelease(v, Credit)
    ensures v in Apply(s, e).past.holder
  {
  }

  /** A volume on a drive that was never released is standing. */
  ghost predicate Known(s: State) {
    forall v, d :: HostedBy(s, v, d) && v !in s.past.credits ==> v in s.past.holder
  }

  lemma KnownStep(s: State, e: Event, v: VolumeName, d: DriveID)
    requires Sound(s) && Known(s) && Enabled(s, e) && Disciplined(s, e)
    requires HostedBy(Apply(s, e), v, d) && v !in Apply(s, e).past.credits
    ensures v in Apply(s, e).past.holder
  {
    if HostedBy(s, v, d) {
      StandsUnlessReleased(s, e, v);
    } else {
      NewHoldIsKept(s, e, v, d);
    }
  }

  lemma NewHoldIsKept(s: State, e: Event, v: VolumeName, d: DriveID)
    requires Sound(s) && Enabled(s, e) && Disciplined(s, e)
    requires !HostedBy(s, v, d) && HostedBy(Apply(s, e), v, d)
    ensures v in PastAfter(s, e).holder
  {
    HostingAll(s, e, v, d);
  }

  // ---------------------------------------------------------------- runs

  ghost predicate Kept(s: State) {
    Sound(s) && Solvent(s) && Standing(s) && Known(s)
  }

  lemma KeptStep(s: State, e: Event)
    requires Kept(s) && Enabled(s, e) && Disciplined(s, e)
    ensures Kept(Apply(s, e))
  {
    var s' := Apply(s, e);
    SoundStep(s, e);
    SolventStep(s, e);
    forall v ensures Backed(s', v) { BackedStep(s, e, v); }
    forall m | m in s'.moves ensures Tracked(s', s'.moves[m]) { TrackedStep(s, e, m); }
    forall v, d | HostedBy(s', v, d) && v !in s'.past.credits ensures v in s'.past.holder { KnownStep(s, e, v, d); }
  }

  lemma {:induction false} KeptRun(s: State, es: seq<Event>)
    requires Kept(s) && Runs(s, es) && DisciplinedRun(s, es)
    ensures Kept(After(s, es))
    decreases |es|
  {
    if es != [] {
      KeptStep(s, es[0]);
      KeptRun(Apply(s, es[0]), es[1..]);
    }
  }

  ghost predicate Reached(es: seq<Event>) {
    Runs(Empty(), es) && DisciplinedRun(Empty(), es)
  }

  lemma {:induction false} StandsThroughout(s: State, more: seq<Event>, v: VolumeName)
    requires Runs(s, more) && v in s.past.holder
    requires forall i :: 0 <= i < |more| ==> more[i] != OnRelease(v, Credit)
    ensures v in After(s, more).past.holder
    decreases |more|
  {
    if more != [] {
      StandsUnlessReleased(s, more[0], v);
      StandsThroughout(Apply(s, more[0]), more[1..], v);
    }
  }

  /** A standing volume is held by some drive ever after, until it is released. */
  lemma StandingIsHeld(s: State, more: seq<Event>, v: VolumeName)
    requires Kept(s) && v in s.past.holder && Runs(s, more) && DisciplinedRun(s, more)
    requires forall i :: 0 <= i < |more| ==> more[i] != OnRelease(v, Credit)
    ensures exists d :: HostedBy(After(s, more), v, d)
  {
    StandsThroughout(s, more, v);
    KeptRun(s, more);
    var s' := After(s, more);
    assert Backed(s', v);
    assert HostedBy(s', v, s'.past.holder[v]);
  }

  /** Whatever Moves start, interleave, abort or finish, a volume that some drive holds and that
      was never released is held by some drive ever after, until it is released... */
  lemma NeverDropped(es: seq<Event>, more: seq<Event>, v: VolumeName, d: DriveID)
    requires Reached(es) && HostedBy(After(Empty(), es), v, d) && v !in After(Empty(), es).past.credits
    requires Runs(After(Empty(), es), more) && DisciplinedRun(After(Empty(), es), more)
    requires forall i :: 0 <= i < |more| ==> more[i] != OnRelease(v, Credit)
    ensures exists d' :: HostedBy(After(After(Empty(), es), more), v, d')
  {
    KeptRun(Empty(), es);
    StandingIsHeld(After(Empty(), es), more, v);
  }

  /** ...and so is a volume from its reservation on, whatever became of earlier volumes of the
      same name. */
  lemma NeverDroppedSinceReserved(es: seq<Event>, more: seq<Event>, v: VolumeName)
    requires Reached(es) && Enabled(After(Empty(), es), OnCreate(v, ReserveDrive))
    requires
      var s := Apply(After(Empty(), es), OnCreate(v, ReserveDrive));
      Runs(s, more) && DisciplinedRun(s, more)
    requires forall i :: 0 <= i < |more| ==> more[i] != OnRelease(v, Credit)
    ensures exists d :: HostedBy(After(Apply(After(Empty(), es), OnCreate(v, ReserveDrive)), more), v, d)
  {
    KeptRun(Empty(), es);
    ReservedIsHeld(After(Empty(), es), more, v);
  }

  lemma ReservedIsHeld(s: State, more: seq<Event>, v: VolumeName)
    requires Kept(s) && Enabled(s, OnCreate(v, ReserveDrive))
    requires
      var s' := Apply(s, OnCreate(v, ReserveDrive));
      Runs(s', more) && DisciplinedRun(s', more)
    requires forall i :: 0 <= i < |more| ==> more[i] != OnRelease(v, Credit)
    ensures exists d :: HostedBy(After(Apply(s, OnCreate(v, ReserveDrive)), more), v, d)
  {
    KeptStep(s, OnCreate(v, ReserveDrive));
    StandingIsHeld(Apply(s, OnCreate(v, ReserveDrive)), more, v);
  }

  /** When a Move lands, the destination holds everything the source copy held, keeps
      Free + Allocated, and has no negative free bytes. */
  lemma LandingTakesAll(es: seq<Event>, m: nat)
    requires Reached(es) && Enabled(After(Empty(), es), OnMove(m, LandMove))
    ensures LandsWhole(After(Empty(), es), m)
  {
    KeptRun(Empty(), es);
    LandingStep(After(Empty(), es), m);
  }

  ghost predicate LandsWhole(s: State, m: nat)
    requires Enabled(s, OnMove(m, LandMove))
  {
    var s', call := Apply(s, OnMove(m, LandMove)), s.moves[m];
    && call.dst in s.drives && call.dst in s'.drives && call.src != call.dst
    && (forall v :: Hosts(call.source, v) || HostedBy(s, v, call.dst) ==> HostedBy(s', v, call.dst))
    && 0 <= s'.drives[call.dst].free
    && s'.drives[call.dst].free + s'.drives[call.dst].alloc == s.drives[call.dst].free + s.drives[call.dst].alloc
  }

  lemma LandingStep(s: State, m: nat)
    requires Kept(s) && Enabled(s, OnMove(m, LandMove))
    ensures LandsWhole(s, m)
  {
    var call := s.moves[m];
    assert Tracked(s, call) && MoveRead(s, call) && MoveSized(call) && MoveShaped(call);
    assert Shaped(s.drives[call.dst]);
    TakeInConserves(call.target, call.got);
    TakeInWellFormed(call.target, call.got);
    forall v | Hosts(call.source, v) || HostedBy(s, v, call.dst)
      ensures HostedBy(Apply(s, OnMove(m, LandMove)), v, call.dst)
    {
      TakeInHosts(call.target, call.got, v);
    }
  }

  /** Nothing in the run takes `v` off `d`: no credit of `v` there, no Move out of `d`. */
  ghost predicate Undisturbed(s: State, es: seq<Event>, v: VolumeName, d: DriveID)
    requires Runs(s, es)
    decreases |es|
  {
    es == [] || (!Takes(s, es[0], v, d) && Undisturbed(Apply(s, es[0]), es[1..], v, d))
  }

  /** So before it lands a Move's volumes stay on the source, and afterwards on the destination,
      unless they are released or moved on from there. */
  lemma {:induction false} StaysOn(s: State, es: seq<Event>, v: VolumeName, d: DriveID)
    requires Sound(s) && Runs(s, es) && DisciplinedRun(s, es) && HostedBy(s, v, d) && Undisturbed(s, es, v, d)
    ensures HostedBy(After(s, es), v, d)
    decreases |es|
  {
    if es != [] {
      HostingAll(s, es[0], v, d);
      SoundStep(s, es[0]);
      StaysOn(Apply(s, es[0]), es[1..], v, d);
    }
  }

  /** In every run, Move included, no drive has negative free bytes. */
  lemma FreeNeverNegative(es: seq<Event>, d: DriveID)
    requires Reached(es) && d in After(Empty(), es).drives
    ensures 0 <= After(Empty(), es).drives[d].free
  {
    KeptRun(Empty(), es);
  }

  // ---------------------------------------------------------------- source or destination

  /** The event leaves `v` and the Move `m` from `src` to `dst` alone: the volume is not released,
      the Move is not started again and aims where it should, and no other Move resets either drive. */
  ghost predicate LetsBe(s: State, e: Event, m: nat, src: DriveID, dst: DriveID, v: VolumeName)
    requires Enabled(s, e)
  {
    && e != OnRelease(v, Credit)
    && (e.OnMove? && e.m == m ==> !e.move.StartMove? && (e.move.AimMove? ==> e.move.dst == dst))
    && (e.OnMove? && e.m != m ==> !Resets(s, e, src) && !Resets(s, e, dst))
  }

  ghost predicate LetBe(s: State, es: seq<Event>, m: nat, src: DriveID, dst: DriveID, v: VolumeName)
    requires Runs(s, es)
    decreases |es|
  {
    es == [] || (LetsBe(s, es[0], m, src, dst, v) && LetBe(Apply(s, es[0]), es[1..], m, src, dst, v))
  }

  predicate HasLanded(es: seq<Event>, m: nat) {
    es != [] && (es[0] == OnMove(m, LandMove) || HasLanded(es[1..], m))
  }

  /** The Move, if it is still under way, has the volume from its source's list. */
  ghost predicate Departing(s: State, m: nat, src: DriveID, dst: DriveID, v: VolumeName) {
    && HostedBy(s, v, src)
    && (m in s.moves ==>
          && !s.moves[m].Landed? && s.moves[m].src == src && Hosts(s.moves[m].source, v)
          && (s.moves[m].Aiming? ==> s.moves[m].dst == dst))
  }

  ghost predicate Arrived(s: State, m: nat, src: DriveID, dst: DriveID, v: VolumeName) {
    && HostedBy(s, v, dst)
    && (m in s.moves ==> s.moves[m].Landed? && s.moves[m].src == src && s.moves[m].dst == dst)
  }

  /** What stays put does so because nobody takes the volume off... */
  lemma DepartingStays(s: State, e: Event, m: nat, src: DriveID, dst: DriveID, v: VolumeName)
    requires Enabled(s, e) && LetsBe(s, e, m, src, dst, v) && Departing(s, m, src, dst, v)
    ensures !Takes(s, e, v, src)
  {
  }

  lemma ArrivedStays(s: State, e: Event, m: nat, src: DriveID, dst: DriveID, v: VolumeName)
    requires Enabled(s, e) && LetsBe(s, e, m, src, dst, v) && Arrived(s, m, src, dst, v) && src != dst
    ensures !Takes(s, e, v, dst)
  {
  }

  /** ...and because the Move goes on as it was. */
  lemma DepartingMove(s: State, e: Event, m: nat, src: DriveID, dst: DriveID, v: VolumeName)
    requires Enabled(s, e) && LetsBe(s, e, m, src, dst, v) && Departing(s, m, src, dst, v)
    requires e != OnMove(m, LandMove) && HostedBy(Apply(s, e), v, src)
    ensures Departing(Apply(s, e), m, src, dst, v)
  {
  }

  lemma ArrivedMove(s: State, e: Event, m: nat, src: DriveID, dst: DriveID, v: VolumeName)
    requires Enabled(s, e) && LetsBe(s, e, m, src, dst, v) && HostedBy(Apply(s, e), v, dst)
    requires if e == OnMove(m, LandMove) then Departing(s, m, src, dst, v) else Arrived(s, m, src, dst, v)
    ensures Arrived(Apply(s, e), m, src, dst, v)
  {
  }

  lemma DepartingStep(s: State, e: Event, m: nat, src: DriveID, dst: DriveID, v: VolumeName)
    requires Kept(s) && Enabled(s, e) && LetsBe(s, e, m, src, dst, v)
    requires Departing(s, m, src, dst, v)
    ensures if e == OnMove(m, LandMove) then Arrived(Apply(s, e), m, src, dst, v)
            else Departing(Apply(s, e), m, src, dst, v)
  {
    if e == OnMove(m, LandMove) {
      LandingStep(s, m);
      ArrivedMove(s, e, m, src, dst, v);
    } else {
      HostingAll(s, e, v, src);
      DepartingStays(s, e, m, src, dst, v);
      DepartingMove(s, e, m, src, dst, v);
    }
  }

  lemma ArrivedStep(s: State, e: Event, m: nat, src: DriveID, dst: DriveID, v: VolumeName)
    requires Sound(s) && src != dst && Enabled(s, e) && LetsBe(s, e, m, src, dst, v)
    requires Arrived(s, m, src, dst, v)
    ensures Arrived(Apply(s, e), m, src, dst, v) && e != OnMove(m, LandMove)
  {
    HostingAll(s, e, v, dst);
    ArrivedStays(s, e, m, src, dst, v);
    ArrivedMove(s, e, m, src, dst, v);
  }

  lemma {:induction false} ArrivedRun(s: State, es: seq<Event>, m: nat, src: DriveID, dst: DriveID, v: VolumeName)
    requires Sound(s) && Runs(s, es) && DisciplinedRun(s, es) && LetBe(s, es, m, src, dst, v)
    requires Arrived(s, m, src, dst, v) && src != dst
    ensures HostedBy(After(s, es), v, dst)
    decreases |es|
  {
    if es != [] {
      ArrivedStep(s, es[0], m, src, dst, v);
      SoundStep(s, es[0]);
      ArrivedRun(Apply(s, es[0]), es[1..], m, src, dst, v);
    }
  }

  lemma {:induction false} DepartingRun(s: State, es: seq<Event>, m: nat, src: DriveID, dst: DriveID, v: VolumeName)
    requires Kept(s) && Runs(s, es) && DisciplinedRun(s, es) && LetBe(s, es, m, src, dst, v)
    requires Departing(s, m, src, dst, v)
    ensures HostedBy(After(s, es), v, if HasLanded(es, m) then dst else src)
    decreases |es|
  {
    if es != [] {
      var s', rest := Apply(s, es[0]), es[1..];
      DepartingStep(s, es[0], m, src, dst, v);
      KeptStep(s, es[0]);
      if es[0] == OnMove(m, LandMove) {
        LandingStep(s, m);
        ArrivedRun(s', rest, m, src, dst, v);
      } else {
        DepartingRun(s', rest, m, src, dst, v);
      }
    }
  }

  /** From the start of a Move on, aborted or not, each volume its source held is on the source
      until the Move lands and on the destination from then on, unless it is released or another
      Move resets one of the two drives. */
  lemma SourceOrDestination(es: seq<Event>, m: nat, src: DriveID, more: seq<Event>, dst: DriveID, v: VolumeName)
    requires Reached(es) && Enabled(After(Empty(), es), OnMove(m, StartMove(src)))
    requires HostedBy(After(Empty(), es), v, src)
    requires
      var s := Apply(After(Empty(), es), OnMove(m, StartMove(src)));
      Runs(s, more) && DisciplinedRun(s, more) && LetBe(s, more, m, src, dst, v)
    ensures
      var s := Apply(After(Empty(), es), OnMove(m, StartMove(src)));
      HostedBy(After(s, more), v, if HasLanded(more, m) then dst else src)
  {
    var s, e := After(Empty(), es), OnMove(m, StartMove(src));
    KeptRun(Empty(), es);
    KeptStep(s, e);
    DepartingRun(Apply(s, e), more, m, src, dst, v);
  }
}
