/** The allocator's promises over whole runs without Move: any interleaving of create, expand,
    stage, grow, delete, release, resync, health and removal steps, with stale reads, conflicts
    and crashes anywhere. */
module Books {
  import opened Objects
  import opened Cluster
  import opened Versions
  import opened Removal
  import opened Placement
  import opened Accounting
  import opened Claims
  import opened Quota
  import Release

  // ---------------------------------------------------------------- charges and credits

  function Count(m: map<VolumeName, nat>, v: VolumeName): nat {
    if v in m then m[v] else 0
  }

  ghost predicate Held(s: State, v: VolumeName) {
    exists d :: HostedBy(s, v, d)
  }

  /** Every charge but a standing one has been credited back. */
  ghost predicate Even(s: State, v: VolumeName) {
    Count(s.past.charges, v) == Count(s.past.credits, v) + (if Held(s, v) then 1 else 0)
  }

  ghost predicate Counted(s: State) {
    forall v :: Even(s, v)
  }

  lemma CountsAfter(s: State, e: Event, v: VolumeName)
    requires Enabled(s, e) && !IsMove(e)
    ensures Count(PastAfter(s, e).charges, v) ==
            Count(s.past.charges, v) + (if e == OnCreate(v, ReserveDrive) then 1 else 0)
    ensures Count(PastAfter(s, e).credits, v) ==
            Count(s.past.credits, v) + (if e == OnRelease(v, Credit) then 1 else 0)
  {
    match e
    case OnCreate(u, step) => CreateCounts(s, u, step, v);
    case OnVolume(u, step) => VolumeCounts(s, u, step);
    case _ =>
  }

  lemma CreateCounts(s: State, u: VolumeName, e: CreateStep, v: VolumeName)
    requires CreateEnabled(s, u, e)
    ensures Count(CreatePast(s, u, e).charges, v) ==
            Count(s.past.charges, v) + (if u == v && e.ReserveDrive? then 1 else 0)
    ensures CreatePast(s, u, e).credits == s.past.credits
  {
  }

  lemma VolumeCounts(s: State, u: VolumeName, e: VolumeStep)
    requires VolumeEnabled(s, u, e)
    ensures VolumePast(s, u, e).charges == s.past.charges && VolumePast(s, u, e).credits == s.past.credits
  {
  }

  /** Holding starts with the reservation and ends with the credit. */
  lemma HeldAfter(s: State, e: Event, v: VolumeName)
    requires Sound(s) && Placed(s) && Enabled(s, e) && Disciplined(s, e) && !IsMove(e)
    ensures e == OnCreate(v, ReserveDrive) ==> !Held(s, v) && Held(Apply(s, e), v)
    ensures e == OnRelease(v, Credit) ==> Held(s, v) && !Held(Apply(s, e), v)
    ensures e != OnCreate(v, ReserveDrive) && e != OnRelease(v, Credit) ==> (Held(Apply(s, e), v) <==> Held(s, v))
  {
    if e == OnCreate(v, ReserveDrive) {
      ReservedAlone(s, v);
      HostingChanges(s, e, v, s.calls[v].pick.id);
      assert Held(Apply(s, e), v);
    } else {
      HoldsAfter(s, e, v);
      if e == OnRelease(v, Credit) { CreditedAlone(s, v); }
    }
  }

  lemma HoldsAfter(s: State, e: Event, v: VolumeName)
    requires Sound(s) && Enabled(s, e) && !IsMove(e) && e != OnCreate(v, ReserveDrive)
    ensures forall d :: HostedBy(Apply(s, e), v, d) <==> HostedBy(s, v, d) && !Loses(s, e, v, d)
  {
    forall d ensures HostedBy(Apply(s, e), v, d) <==> HostedBy(s, v, d) && !Loses(s, e, v, d) {
      HostingChanges(s, e, v, d);
    }
  }

  lemma ReservedAlone(s: State, v: VolumeName)
    requires Placed(s) && Consistent(s) && CreateEnabled(s, v, ReserveDrive)
    ensures Nowhere(s, v)
  {
    assert CallPlaced(s, v, s.calls[v]) && CallRead(s, v, s.calls[v]);
  }

  lemma CreditedAlone(s: State, v: VolumeName)
    requires Placed(s) && Consistent(s) && ReleaseEnabled(s, v, Credit)
    ensures HostedBy(s, v, s.releases[v].vol.driveLabel) && OnlyOn(s, v, s.releases[v].vol.driveLabel)
  {
    assert ReleaseOf(s, v, s.releases[v]) && ReleaseReads(s, v, s.releases[v]);
  }

  lemma EvenStep(s: State, e: Event, v: VolumeName)
    requires Sound(s) && Placed(s) && Even(s, v)
    requires Enabled(s, e) && Disciplined(s, e) && !IsMove(e)
    ensures Even(Apply(s, e), v)
  {
    CountsAfter(s, e, v);
    HeldAfter(s, e, v);
  }

  // ---------------------------------------------------------------- all invariants together

  ghost predicate InOrder(s: State) {
    Sound(s) && Placed(s) && Coverage(s) && Capacity(s) && AllClaims(s) && Counted(s)
  }

  lemma InOrderStep(s: State, e: Event)
    requires InOrder(s) && Enabled(s, e) && Disciplined(s, e) && !IsMove(e)
    ensures InOrder(Apply(s, e))
  {
    SoundStep(s, e);
    PlacedStep(s, e);
    CoverageStep(s, e);
    CapacityStep(s, e);
    ClaimsStep(s, e);
    forall v ensures Even(Apply(s, e), v) { EvenStep(s, e, v); }
  }

  lemma NoMovesTail(es: seq<Event>)
    requires NoMoves(es) && es != []
    ensures !IsMove(es[0]) && NoMoves(es[1..])
  {
  }

  lemma {:induction false} InOrderRun(s: State, es: seq<Event>)
    requires InOrder(s) && Runs(s, es) && DisciplinedRun(s, es) && NoMoves(es)
    ensures InOrder(After(s, es))
    decreases |es|
  {
    if es != [] {
      NoMovesTail(es);
      InOrderStep(s, es[0]);
      InOrderRun(Apply(s, es[0]), es[1..]);
    }
  }

  /** A run the theorems below speak about. */
  ghost predicate Lawful(es: seq<Event>) {
    Runs(Empty(), es) && DisciplinedRun(Empty(), es) && NoMoves(es)
  }

  lemma LawfulInOrder(es: seq<Event>)
    requires Lawful(es)
    ensures InOrder(After(Empty(), es))
  {
    InOrderRun(Empty(), es);
  }

  // ---------------------------------------------------------------- theorems

  /** The recorded sizes of the volumes on a finalizer list. */
  ghost function RecordedSizes(fins: seq<Finalizer>, volumes: map<VolumeName, Volume>): int {
    if fins == [] then 0
    else
      var last := fins[|fins| - 1];
      RecordedSizes(fins[..|fins| - 1], volumes) +
      (if last.VolumeRef? && last.volume in volumes then volumes[last.volume].size else 0)
  }

  lemma CoveredHere(s: State, v: VolumeName, d: DriveID)
    requires Placed(s) && Coverage(s) && HostedBy(s, v, d)
    ensures v in s.volumes && Fits(s.past, v, s.volumes[v].size)
    ensures Bound(s.past, v) <= EntryOf(s.past, v).reserved
  {
    assert Anchored(s, v, d) && Covered(s, v, d) && Promised(s, v);
  }

  lemma {:induction false} RecordedAtMostCommitted(s: State, fins: seq<Finalizer>, d: DriveID)
    requires Placed(s) && Coverage(s) && d in s.drives
    requires forall v :: Holds(fins, v) ==> HostedBy(s, v, d)
    ensures RecordedSizes(fins, s.volumes) <= Committed(fins, s.past.ledger)
  {
    if fins != [] {
      var init, last := fins[..|fins| - 1], fins[|fins| - 1];
      assert fins == init + [last];
      assert forall v :: Holds(init, v) ==> Holds(fins, v);
      RecordedAtMostCommitted(s, init, d);
      if last.VolumeRef? {
        assert Holds(fins, last.volume);
        assert HostedBy(s, last.volume, d);
        CoveredHere(s, last.volume, d);
      }
    }
  }

  /** Free and Allocated stay in range, together within Total, and Allocated covers the
      recorded sizes of the drive's volumes. */
  lemma CapacityHolds(es: seq<Event>, d: DriveID)
    requires Lawful(es) && d in After(Empty(), es).drives
    ensures
      var s := After(Empty(), es);
      var drive := s.drives[d];
      && 0 <= drive.free && 0 <= drive.alloc
      && drive.free + drive.alloc <= drive.total <= MAX_INT64
      && RecordedSizes(drive.fins, s.volumes) <= drive.alloc
  {
    LawfulInOrder(es);
    var s := After(Empty(), es);
    assert forall v :: Holds(s.drives[d].fins, v) ==> HostedBy(s, v, d);
    RecordedAtMostCommitted(s, s.drives[d].fins, d);
  }

  /** Two-phase expansion: a held volume's recorded size, whatever the controller granted for it
      since its record was made, and the quota asked of the filesystem are all within what its
      drive has set aside for it. */
  lemma ExpansionCovered(es: seq<Event>, v: VolumeName, d: DriveID)
    requires Lawful(es) && HostedBy(After(Empty(), es), v, d)
    ensures
      var s := After(Empty(), es);
      var entry := EntryOf(s.past, v);
      && v in s.volumes
      && 0 <= s.volumes[v].size <= entry.reserved
      && entry.granted <= entry.reserved
      && 0 <= entry.quota <= entry.reserved
      && entry.reserved <= s.drives[d].alloc
  {
    LawfulInOrder(es);
    var s := After(Empty(), es);
    CoveredHere(s, v, d);
    assert Balanced(s.drives[d], s.past.ledger);
    HeldReserves(s, d);
    CommittedShare(s.drives[d].fins, s.past.ledger, v);
  }

  /** So the block limit written for any quota up to 2^53 bytes exceeds what is set aside by less
      than a block. */
  lemma LimitWithinReservation(es: seq<Event>, v: VolumeName, d: DriveID)
    requires Lawful(es) && HostedBy(After(Empty(), es), v, d)
    requires EntryOf(After(Empty(), es).past, v).quota <= MANTISSA
    ensures
      var entry := EntryOf(After(Empty(), es).past, v);
      && 0 <= entry.quota <= BytesOf(BlocksFor(entry.quota))
      && BytesOf(BlocksFor(entry.quota)) < entry.reserved + BLOCK
  {
    ExpansionCovered(es, v, d);
    LimitCovers(EntryOf(After(Empty(), es).past, v).quota);
  }

  /** However often creation is attempted and cut off, at most one drive holds a volume, and it
      has been charged exactly once more than it has been credited if one does. */
  lemma ChargedOnce(es: seq<Event>, v: VolumeName)
    requires Lawful(es)
    ensures
      var s := After(Empty(), es);
      && (forall d, d' :: HostedBy(s, v, d) && HostedBy(s, v, d') ==> d == d')
      && Count(s.past.credits, v) <= Count(s.past.charges, v) <= Count(s.past.credits, v) + 1
      && (Count(s.past.charges, v) == Count(s.past.credits, v) + 1 <==> Held(s, v))
  {
    LawfulInOrder(es);
    var s := After(Empty(), es);
    assert Even(s, v);
    forall d, d' | HostedBy(s, v, d) && HostedBy(s, v, d') ensures d == d' {
      assert Anchored(s, v, d) && Anchored(s, v, d');
    }
  }

  /** The record names the drive CreateVolume settled on, with the requested size; no other drive
      holds the volume, and that one does unless the call found it reserved and had begun late. */
  ghost predicate AnswersRightly(s: State, v: VolumeName, e: Event)
    requires Enabled(s, e) && v in s.calls && s.calls[v].Recorded?
  {
    var s', call := Apply(s, e), s.calls[v];
    var d := call.pick.id;
    && v in s'.volumes && s'.volumes[v].driveLabel == d && s'.volumes[v].fsuuid == d
    && s'.volumes[v].node == call.pick.drive.node && (HostedBy(s', v, d) ==> s'.volumes[v].node == s'.drives[d].node)
    && call.req.bytes.Some? && s'.volumes[v].size == call.req.bytes.value && s'.volumes[v].claim == call.req.claim
    && (e == OnCreate(v, AlreadyReserved) ==> s'.drives == s.drives)
    && (e == OnCreate(v, ReserveDrive) || v !in s.past.late ==> HostedBy(s', v, d))
    && OnlyOn(s', v, d)
  }

  lemma SuccessStep(s: State, v: VolumeName, e: Event)
    requires Sound(s) && Placed(s) && Enabled(s, e)
    requires e == OnCreate(v, ReserveDrive) || e == OnCreate(v, AlreadyReserved)
    ensures AnswersRightly(s, v, e)
  {
    assert CallPlaced(s, v, s.calls[v]) && Recordful(s, v);
    SuccessHolds(s, v, e);
    SuccessKeepsRecord(s, v, e);
  }

  lemma SuccessKeepsRecord(s: State, v: VolumeName, e: Event)
    requires Enabled(s, e) && (e == OnCreate(v, ReserveDrive) || e == OnCreate(v, AlreadyReserved))
    ensures Apply(s, e).volumes == s.volumes
    ensures e == OnCreate(v, AlreadyReserved) ==> Apply(s, e).drives == s.drives
  {
  }

  lemma SuccessHolds(s: State, v: VolumeName, e: Event)
    requires Sound(s) && Placed(s) && Enabled(s, e)
    requires e == OnCreate(v, ReserveDrive) || e == OnCreate(v, AlreadyReserved)
    ensures OnlyOn(Apply(s, e), v, s.calls[v].pick.id)
    ensures e == OnCreate(v, ReserveDrive) || v !in s.past.late ==> HostedBy(Apply(s, e), v, s.calls[v].pick.id)
  {
    assert CallPlaced(s, v, s.calls[v]);
    forall x ensures HostedBy(Apply(s, e), v, x) <==> Gains(s, e, v, x) || HostedBy(s, v, x) {
      HostingChanges(s, e, v, x);
    }
  }

  /** CreateVolume answers success in two ways; either way it answers rightly. */
  lemma CreateSucceeds(es: seq<Event>, v: VolumeName, e: Event)
    requires Lawful(es) && Enabled(After(Empty(), es), e)
    requires e == OnCreate(v, ReserveDrive) || e == OnCreate(v, AlreadyReserved)
    ensures AnswersRightly(After(Empty(), es), v, e)
  {
    LawfulInOrder(es);
    SuccessStep(After(Empty(), es), v, e);
  }

  /** Nobody held the volume, and the requested bytes move from Free to Allocated of one drive. */
  ghost predicate ChargesExactly(s: State, v: VolumeName)
    requires Enabled(s, OnCreate(v, ReserveDrive))
  {
    var s', call := Apply(s, OnCreate(v, ReserveDrive)), s.calls[v];
    var d := call.pick.id;
    && !Held(s, v) && call.req.bytes.Some?
    && d in s.drives && s'.drives.Keys == s.drives.Keys
    && s'.drives[d].free == s.drives[d].free - call.req.bytes.value
    && s'.drives[d].alloc == s.drives[d].alloc + call.req.bytes.value
    && forall x :: x in s.drives && x != d ==> s'.drives[x] == s.drives[x]
  }

  lemma ChargeStep(s: State, v: VolumeName)
    requires Sound(s) && Placed(s) && Enabled(s, OnCreate(v, ReserveDrive))
    ensures ChargesExactly(s, v)
  {
    assert CallPlaced(s, v, s.calls[v]) && CallRead(s, v, s.calls[v]) && Admitted(v, s.calls[v]);
  }

  /** The reservation is made for a volume nobody holds, and takes exactly the requested bytes
      from the Free of that one drive. */
  lemma ChargeIsExact(es: seq<Event>, v: VolumeName)
    requires Lawful(es) && Enabled(After(Empty(), es), OnCreate(v, ReserveDrive))
    ensures ChargesExactly(After(Empty(), es), v)
  {
    LawfulInOrder(es);
    ChargeStep(After(Empty(), es), v);
  }

  lemma CreditEvens(s: State, v: VolumeName)
    requires InOrder(s) && Enabled(s, OnRelease(v, Credit))
    ensures
      var s' := Apply(s, OnRelease(v, Credit));
      Nowhere(s', v) && Count(s'.past.credits, v) == Count(s'.past.charges, v)
  {
    assert Even(s, v);
    HeldAfter(s, OnRelease(v, Credit), v);
    EvenStep(s, OnRelease(v, Credit), v);
  }

  /** Without Move, the handler's credit takes the volume off its only holder, so it cannot happen again before
      a new charge, and it returns the recorded size. */
  lemma CreditsOnce(es: seq<Event>, v: VolumeName)
    requires Lawful(es) && Enabled(After(Empty(), es), OnRelease(v, Credit))
    ensures
      var s := After(Empty(), es);
      var s' := Apply(s, OnRelease(v, Credit));
      var d := s.releases[v].vol.driveLabel;
      && HostedBy(s, v, d) && Nowhere(s', v)
      && d in s'.drives
      && s'.drives[d].free == s.drives[d].free + s.releases[v].vol.size
      && s'.drives[d].free + s'.drives[d].alloc == s'.drives[d].total == s.drives[d].total
      && Count(s'.past.credits, v) == Count(s'.past.charges, v)
  {
    LawfulInOrder(es);
    var s := After(Empty(), es);
    CreditEvens(s, v);
    Release.CreditStep(s, v);
  }

  /** Without Move, a volume record vanishes only when no drive at all holds the volume any more. */
  lemma RecordOutlivesHold(es: seq<Event>, e: Event, v: VolumeName)
    requires Lawful(es) && Enabled(After(Empty(), es), e) && Disciplined(After(Empty(), es), e) && !IsMove(e)
    requires v in After(Empty(), es).volumes && v !in Apply(After(Empty(), es), e).volumes
    ensures e == OnRelease(v, Purge)
    ensures Nowhere(After(Empty(), es), v) && Nowhere(Apply(After(Empty(), es), e), v)
  {
    LawfulInOrder(es);
    var s := After(Empty(), es);
    InOrderStep(s, e);
    forall d ensures !HostedBy(Apply(s, e), v, d) { assert Anchored(Apply(s, e), v, d); }
    Release.OnlyPurgeVanishes(es, e, v);
    assert ReleaseOf(s, v, s.releases[v]);
  }

  /** A drive carries the label of a claim exactly when it holds a volume with that claim, and
      never holds two of them. */
  lemma ClaimExclusive(es: seq<Event>, d: DriveID, c: nat)
    requires Lawful(es) && d in After(Empty(), es).drives
    ensures
      var s := After(Empty(), es);
      && (c in s.drives[d].claims <==>
            exists v :: HostedBy(s, v, d) && v in s.volumes && s.volumes[v].claim == Claim(c))
      && (forall v, w | HostedBy(s, v, d) && HostedBy(s, w, d) && v in s.volumes && w in s.volumes ::
            s.volumes[v].claim == Claim(c) == s.volumes[w].claim ==> v == w)
  {
    LawfulInOrder(es);
    var s := After(Empty(), es);
    assert Labelled(s, s.drives[d], c) && Exclusive(s, s.drives[d]);
    forall v | HostedBy(s, v, d) ensures v in s.volumes && s.volumes[v].claim == ClaimOf(s, v) {
      assert Anchored(s, v, d) && Recordful(s, v);
    }
    if c in s.drives[d].claims {
      var v :| Hosts(s.drives[d], v) && ClaimOf(s, v) == Claim(c);
      assert HostedBy(s, v, d);
    }
  }
}
