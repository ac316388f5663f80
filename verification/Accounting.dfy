/** The books, in runs without Move: what a drive has set aside covers every size recorded,
    granted or asked of the filesystem, and its counters never go wrong. */
module Accounting {
  import opened Objects
  import opened Cluster
  import opened Versions
  import opened Removal
  import opened Placement

  // ---------------------------------------------------------------- coverage

  function Asked(h: History, v: VolumeName): int {
    if v in h.asked && h.asked[v].bytes.Some? then h.asked[v].bytes.value else 0
  }

  /** The largest size anybody was promised for `v`: the one asked for, or a later grant. */
  function Bound(h: History, v: VolumeName): int {
    Max(EntryOf(h, v).granted, Asked(h, v))
  }

  /** The volume is, or may yet be, on a drive. */
  ghost predicate Live(s: State, v: VolumeName) {
    v in s.volumes && (!s.volumes[v].deleting || !Nowhere(s, v))
  }

  ghost predicate Within(s: State, v: VolumeName, size: int) {
    Live(s, v) ==> 0 <= size <= Bound(s.past, v)
  }

  ghost predicate Fits(h: History, v: VolumeName, size: int) {
    && 0 <= size <= Bound(h, v)
    && 0 <= EntryOf(h, v).quota <= Bound(h, v)
  }

  /** Recorded and quota sizes stay within the promise, which exceeds the request only for a
      volume that a drive holds. */
  ghost predicate Promised(s: State, v: VolumeName) {
    Live(s, v) ==>
      && Fits(s.past, v, s.volumes[v].size)
      && (Nowhere(s, v) ==> EntryOf(s.past, v).granted <= Asked(s.past, v))
  }

  /** What was promised for a held volume is set aside. */
  ghost predicate Covered(s: State, v: VolumeName, d: DriveID) {
    HostedBy(s, v, d) ==> Bound(s.past, v) <= EntryOf(s.past, v).reserved
  }

  ghost predicate CallCovered(s: State, v: VolumeName, call: Call) {
    && ((call.ExpandRead? || call.ExpandPlaced? || call.StageRead? || call.StageLimited? || call.GrowRead?
         || call.GrowLimited?) ==> Within(s, v, call.vol.size))
    && ((call.ExpandRead? || call.ExpandPlaced?) ==> call.vol.size < call.want)
    && ((call.GrowRead? || call.GrowLimited?) ==> Within(s, v, call.want))
  }

  ghost predicate Sized(h: History) {
    forall v :: v in h.asked ==> h.asked[v].bytes.Some? && 0 <= h.asked[v].bytes.value <= MAX_INT64
  }

  ghost predicate Coverage(s: State) {
    && Sized(s.past)
    && (forall v :: Promised(s, v))
    && (forall v, d :: Covered(s, v, d))
    && (forall v :: v in s.calls ==> CallCovered(s, v, s.calls[v]))
    && (forall v :: v in s.releases ==> Within(s, v, s.releases[v].vol.size))
  }

  // ---------------------------------------------------------------- what changes a promise

  /** An entry changes only in the events of its own volume's CSI calls. */
  lemma EntryFrame(s: State, e: Event, v: VolumeName)
    requires Enabled(s, e) && !IsMove(e) && !CsiEventOn(e, v)
    ensures EntryOf(PastAfter(s, e), v) == EntryOf(s.past, v)
  {
    if PastAfter(s, e).ledger != s.past.ledger {
      OneEntry(s, e);
    }
  }

  lemma AskedFrame(s: State, e: Event, v: VolumeName)
    requires Enabled(s, e) && Disciplined(s, e)
    ensures v in s.past.asked || !(e.OnCreate? && e.v == v && e.create.StartCreate?) ==>
              Asked(PastAfter(s, e), v) == Asked(s.past, v)
  {
  }

  /** Within the life of a record, promises only grow. */
  lemma BoundGrows(s: State, e: Event, v: VolumeName)
    requires Placed(s) && v in s.volumes && Enabled(s, e) && Disciplined(s, e) && !IsMove(e)
    ensures Bound(s.past, v) <= Bound(PastAfter(s, e), v)
  {
    assert Recordful(s, v);
    AskedFrame(s, e, v);
    if !CsiEventOn(e, v) {
      EntryFrame(s, e, v);
    }
  }

  /** A live volume was live before, unless its record is new, and was held if it is still wanted
      and held no longer. */
  lemma LiveBefore(s: State, e: Event, v: VolumeName)
    requires Sound(s) && Placed(s) && Enabled(s, e) && Disciplined(s, e) && !IsMove(e)
    requires e != OnCreate(v, CreateRecord) && Live(Apply(s, e), v)
    ensures Live(s, v) && (Nowhere(Apply(s, e), v) ==> Nowhere(s, v))
  {
    var s' := Apply(s, e);
    if e == OnCreate(v, RewriteRecord) {
      RewriteIsLive(s, v);
      forall x ensures HostedBy(s', v, x) <==> HostedBy(s, v, x) { HostingChanges(s, e, v, x); }
    } else {
      RecordChanges(s, e, v);
      if !s.volumes[v].deleting {
        StandingHolds(s, e, v);
      } else {
        TerminatingHolds(s, e, v);
      }
    }
  }

  lemma StandingHolds(s: State, e: Event, v: VolumeName)
    requires Sound(s) && Placed(s) && Enabled(s, e) && Disciplined(s, e) && !IsMove(e)
    requires v in s.volumes && !s.volumes[v].deleting
    ensures forall x :: HostedBy(s, v, x) ==> HostedBy(Apply(s, e), v, x)
  {
    assert v in s.releases ==> ReleaseOf(s, v, s.releases[v]);
    forall x | HostedBy(s, v, x) ensures HostedBy(Apply(s, e), v, x) {
      HostingChanges(s, e, v, x);
    }
  }

  /** A size that was within the promise stays within it. */
  lemma WithinKept(s: State, e: Event, v: VolumeName, size: int)
    requires Sound(s) && Placed(s)
    requires Enabled(s, e) && Disciplined(s, e) && !IsMove(e) && e != OnCreate(v, CreateRecord)
    requires Within(s, v, size)
    ensures Within(Apply(s, e), v, size)
  {
    if Live(Apply(s, e), v) {
      LiveBefore(s, e, v);
      BoundGrows(s, e, v);
    }
  }

  // ---------------------------------------------------------------- promises

  lemma PromisedFrame(s: State, e: Event, v: VolumeName)
    requires Sound(s) && Placed(s) && Coverage(s)
    requires Enabled(s, e) && Disciplined(s, e) && !IsMove(e) && !CsiEventOn(e, v)
    ensures Promised(Apply(s, e), v)
  {
    assert Promised(s, v);
    if Live(Apply(s, e), v) {
      LiveBefore(s, e, v);
      RecordChanges(s, e, v);
      EntryFrame(s, e, v);
      AskedFrame(s, e, v);
    }
  }

  /** The recorded size and the books after a step of CreateVolume, for a record that stays. */
  lemma CreateFits(s: State, v: VolumeName, e: CreateStep)
    requires CreateEnabled(s, v, e) && Disciplined(s, OnCreate(v, e)) && !e.CreateRecord?
    requires Sized(s.past) && v in s.past.asked && Live(s, v) && Promised(s, v)
    requires v in s.calls ==> CallPlaced(s, v, s.calls[v])
    ensures Fits(CreatePast(s, v, e), v, s.volumes[v].size)
    ensures e.RewriteRecord? ==> Fits(CreatePast(s, v, e), v, CreateWrite(s, v, e).vol.size)
    ensures Nowhere(s, v) ==> EntryOf(CreatePast(s, v, e), v).granted <= Asked(CreatePast(s, v, e), v)
  {
  }

  lemma PromisedRecord(s: State, v: VolumeName)
    requires Placed(s) && Sized(s.past) && CreateEnabled(s, v, CreateRecord)
    ensures Promised(Apply(s, OnCreate(v, CreateRecord)), v)
  {
    assert CallPlaced(s, v, s.calls[v]);
  }

  lemma PromisedCreate(s: State, v: VolumeName, e: CreateStep)
    requires Sound(s) && Placed(s) && Coverage(s)
    requires CreateEnabled(s, v, e) && Disciplined(s, OnCreate(v, e))
    ensures Promised(Apply(s, OnCreate(v, e)), v)
  {
    if e.CreateRecord? {
      PromisedRecord(s, v);
    } else if Live(Apply(s, OnCreate(v, e)), v) {
      LiveBefore(s, OnCreate(v, e), v);
      assert Recordful(s, v) && Promised(s, v);
      assert v in s.calls ==> CallPlaced(s, v, s.calls[v]);
      CreateFits(s, v, e);
      StoredRecord(s, CreateWrite(s, v, e), v);
    }
  }

  /** The books after a step of one of the other CSI calls. */
  lemma VolumePastFits(s: State, v: VolumeName, e: VolumeStep)
    requires VolumeEnabled(s, v, e) && Disciplined(s, OnVolume(v, e))
    requires Live(s, v) && Fits(s.past, v, s.volumes[v].size)
    requires v in s.calls ==> CallCovered(s, v, s.calls[v])
    ensures VolumePast(s, v, e).asked == s.past.asked
    ensures Fits(VolumePast(s, v, e), v, s.volumes[v].size)
    ensures e.GrowRecord? ==> Fits(VolumePast(s, v, e), v, s.calls[v].want)
    ensures Nowhere(s, v) && EntryOf(s.past, v).granted <= Asked(s.past, v) ==>
              EntryOf(VolumePast(s, v, e), v).granted <= Asked(s.past, v)
  {
    if e.GrantExpand? { GrantIsForHolder(s, v); }
  }

  /** The hypothesis about expansions, for a record that stays. */
  lemma GrantIsForHolder(s: State, v: VolumeName)
    requires Live(s, v) && VolumeEnabled(s, v, GrantExpand) && GrantInTime(s, v)
    ensures Nowhere(s, v) ==> s.calls[v].want <= Asked(s.past, v)
  {
    if OnItsDrive(s, v) { assert HostedBy(s, v, s.volumes[v].driveLabel); }
  }

  lemma VolumeWriteSize(s: State, v: VolumeName, e: VolumeStep)
    requires VolumeEnabled(s, v, e) && v in s.volumes && VolumeWrite(s, v, e).PutVolume?
    requires v in s.calls ==> CallRead(s, v, s.calls[v])
    ensures VolumeWrite(s, v, e).vol.size == if e.GrowRecord? then s.calls[v].want else s.volumes[v].size
  {
  }

  lemma PromisedVolume(s: State, v: VolumeName, e: VolumeStep)
    requires Sound(s) && Placed(s) && Coverage(s)
    requires VolumeEnabled(s, v, e) && Disciplined(s, OnVolume(v, e))
    ensures Promised(Apply(s, OnVolume(v, e)), v)
  {
    if Live(Apply(s, OnVolume(v, e)), v) {
      LiveBefore(s, OnVolume(v, e), v);
      assert Promised(s, v);
      if v in s.calls { assert CallCovered(s, v, s.calls[v]) && CallRead(s, v, s.calls[v]); }
      VolumePastFits(s, v, e);
      StoredRecord(s, VolumeWrite(s, v, e), v);
      if VolumeWrite(s, v, e).PutVolume? {
        VolumeWriteSize(s, v, e);
      }
    }
  }

  lemma PromisedStep(s: State, e: Event, v: VolumeName)
    requires Sound(s) && Placed(s) && Coverage(s)
    requires Enabled(s, e) && Disciplined(s, e) && !IsMove(e)
    ensures Promised(Apply(s, e), v)
  {
    if !CsiEventOn(e, v) { PromisedFrame(s, e, v); }
    else if e.OnCreate? { PromisedCreate(s, v, e.create); }
    else { PromisedVolume(s, v, e.volume); }
  }

  // ---------------------------------------------------------------- set aside

  lemma CoveredCreate(s: State, v: VolumeName, e: CreateStep, d: DriveID)
    requires Sound(s) && Placed(s) && Coverage(s)
    requires CreateEnabled(s, v, e) && Disciplined(s, OnCreate(v, e))
    ensures Covered(Apply(s, OnCreate(v, e)), v, d)
  {
    HostingChanges(s, OnCreate(v, e), v, d);
    assert Covered(s, v, d) && Anchored(s, v, d) && Promised(s, v);
    if v in s.calls { assert CallPlaced(s, v, s.calls[v]); }
    if v in s.volumes { assert Recordful(s, v); }
    AskedFrame(s, OnCreate(v, e), v);
  }

  lemma CoveredVolume(s: State, v: VolumeName, e: VolumeStep, d: DriveID)
    requires Sound(s) && Placed(s) && Coverage(s)
    requires VolumeEnabled(s, v, e) && Disciplined(s, OnVolume(v, e))
    ensures Covered(Apply(s, OnVolume(v, e)), v, d)
  {
    HostingChanges(s, OnVolume(v, e), v, d);
    if HostedBy(s, v, d) {
      assert Covered(s, v, d);
      SetAsideKept(s, v, e, d);
    }
  }

  /** A grant for a held volume raises the promise and the reservation together. */
  lemma SetAsideKept(s: State, v: VolumeName, e: VolumeStep, d: DriveID)
    requires Placed(s) && Coverage(s) && VolumeEnabled(s, v, e) && Disciplined(s, OnVolume(v, e))
    requires Consistent(s) && HostedBy(s, v, d) && Bound(s.past, v) <= EntryOf(s.past, v).reserved
    ensures Bound(VolumePast(s, v, e), v) <= EntryOf(VolumePast(s, v, e), v).reserved
  {
    assert Anchored(s, v, d) && Promised(s, v);
    if v in s.calls { assert CallPlaced(s, v, s.calls[v]) && CallCovered(s, v, s.calls[v]) && CallRead(s, v, s.calls[v]); }
  }

  lemma CoveredStep(s: State, e: Event, v: VolumeName, d: DriveID)
    requires Sound(s) && Placed(s) && Coverage(s)
    requires Enabled(s, e) && Disciplined(s, e) && !IsMove(e)
    ensures Covered(Apply(s, e), v, d)
  {
    if !CsiEventOn(e, v) {
      HostingChanges(s, e, v, d);
      assert Covered(s, v, d);
      EntryFrame(s, e, v);
      AskedFrame(s, e, v);
    } else if e.OnCreate? {
      CoveredCreate(s, v, e.create, d);
    } else {
      CoveredVolume(s, v, e.volume, d);
    }
  }

  // ---------------------------------------------------------------- copies in flight

  /** What one of the calls below has read stays covered. */
  lemma CallCoveredKept(s: State, e: Event, v: VolumeName, call: Call)
    requires Sound(s) && Placed(s)
    requires Enabled(s, e) && Disciplined(s, e) && !IsMove(e)
    requires CallCovered(s, v, call) && (!Creating(call) ==> e != OnCreate(v, CreateRecord))
    ensures CallCovered(Apply(s, e), v, call)
  {
    if !Creating(call) && !call.DeleteRead? && !call.DeleteUnprotected? {
      WithinKept(s, e, v, call.vol.size);
      if call.GrowRead? || call.GrowLimited? {
        WithinKept(s, e, v, call.want);
      } else if Live(Apply(s, e), v) {
        LiveBefore(s, e, v);
      }
    }
  }

  lemma CallCoveredStep(s: State, e: Event, v: VolumeName)
    requires Sound(s) && Placed(s) && Coverage(s)
    requires Enabled(s, e) && Disciplined(s, e) && !IsMove(e)
    requires v in Apply(s, e).calls
    ensures CallCovered(Apply(s, e), v, Apply(s, e).calls[v])
  {
    if !CsiEventOn(e, v) {
      assert CallCovered(s, v, s.calls[v]);
      CallCoveredKept(s, e, v, s.calls[v]);
    } else if e.OnVolume? {
      VolumeNextCovered(s, v, e.volume);
      CallCoveredKept(s, e, v, VolumeNext(s, v, e.volume).value);
    } else {
      CreateNextCreates(s, v, e.create);
    }
  }

  lemma CreateNextCreates(s: State, v: VolumeName, e: CreateStep)
    requires CreateEnabled(s, v, e) && CreateNext(s, v, e).Some?
    ensures Creating(CreateNext(s, v, e).value)
  {
  }

  lemma VolumeNextCovered(s: State, v: VolumeName, e: VolumeStep)
    requires Placed(s) && Coverage(s) && VolumeEnabled(s, v, e) && Disciplined(s, OnVolume(v, e))
    requires VolumeNext(s, v, e).Some?
    ensures CallCovered(s, v, VolumeNext(s, v, e).value)
  {
    if v in s.calls { assert CallCovered(s, v, s.calls[v]); }
    if v in s.volumes { assert Promised(s, v); }
  }

  lemma ReleaseCoveredStep(s: State, e: Event, v: VolumeName)
    requires Sound(s) && Placed(s) && Coverage(s)
    requires Enabled(s, e) && Disciplined(s, e) && !IsMove(e)
    requires v in Apply(s, e).releases
    ensures Within(Apply(s, e), v, Apply(s, e).releases[v].vol.size)
  {
    if e.OnRelease? && e.v == v {
      NewReleaseCovered(s, v, e.release);
    } else {
      NoRecordMade(s, e, v);
    }
    WithinKept(s, e, v, Apply(s, e).releases[v].vol.size);
  }

  /** No record is made while one is being released. */
  lemma NoRecordMade(s: State, e: Event, v: VolumeName)
    requires Placed(s) && Enabled(s, e) && v in s.releases
    ensures e != OnCreate(v, CreateRecord)
  {
    assert ReleaseOf(s, v, s.releases[v]);
  }

  lemma NewReleaseCovered(s: State, v: VolumeName, e: ReleaseStep)
    requires Coverage(s) && ReleaseEnabled(s, v, e) && ReleaseNext(s, v, e).Some?
    ensures Within(s, v, ReleaseNext(s, v, e).value.vol.size)
  {
    if v in s.volumes { assert Promised(s, v); }
  }

  lemma CoverageStep(s: State, e: Event)
    requires Sound(s) && Placed(s) && Coverage(s)
    requires Enabled(s, e) && Disciplined(s, e) && !IsMove(e)
    ensures Coverage(Apply(s, e))
  {
    var s' := Apply(s, e);
    SizedStep(s, e);
    forall v ensures Promised(s', v) { PromisedStep(s, e, v); }
    forall v, d ensures Covered(s', v, d) { CoveredStep(s, e, v, d); }
    forall v | v in s'.calls ensures CallCovered(s', v, s'.calls[v]) { CallCoveredStep(s, e, v); }
    forall v | v in s'.releases ensures Within(s', v, s'.releases[v].vol.size) { ReleaseCoveredStep(s, e, v); }
  }

  lemma SizedStep(s: State, e: Event)
    requires Sized(s.past) && Enabled(s, e) && Disciplined(s, e)
    ensures Sized(PastAfter(s, e))
  {
  }

  // ---------------------------------------------------------------- capacity

  /** The capacity counters of a drive are in range and cover what its volumes were promised. */
  ghost predicate Balanced(drive: Drive, ledger: Ledger) {
    && 0 <= drive.free && 0 <= drive.alloc
    && drive.free + drive.alloc <= drive.total <= MAX_INT64
    && Committed(drive.fins, ledger) <= drive.alloc
  }

  ghost predicate Capacity(s: State) {
    forall d :: d in s.drives ==> Balanced(s.drives[d], s.past.ledger)
  }

  /** A drive that is not written keeps the reservation of each volume it holds. */
  lemma ReservedFrame(s: State, e: Event, v: VolumeName, d: DriveID)
    requires Sound(s) && Placed(s) && Enabled(s, e) && CsiEventOn(e, v) && HostedBy(s, v, d)
    requires !(WriteOf(s, e).PutDrive? && WriteOf(s, e).d == d)
    ensures Reserved(PastAfter(s, e).ledger, v) == Reserved(s.past.ledger, v)
  {
    assert Anchored(s, v, d);
    if v in s.calls {
      assert CallPlaced(s, v, s.calls[v]) && CallRead(s, v, s.calls[v]);
    }
    if e.OnCreate? { CreateReserved(s, v, e.create, d); }
  }

  /** CreateVolume changes a reservation only in writing the drive, or before any drive holds the volume. */
  lemma CreateReserved(s: State, v: VolumeName, e: CreateStep, d: DriveID)
    requires CreateEnabled(s, v, e) && v in s.volumes && HostedBy(s, v, d)
    requires v in s.calls ==> CallPlaced(s, v, s.calls[v])
    requires !(CreateWrite(s, v, e).PutDrive? && CreateWrite(s, v, e).d == d)
    ensures Reserved(CreatePast(s, v, e).ledger, v) == Reserved(s.past.ledger, v)
  {
  }

  lemma CommittedFrame(s: State, e: Event, d: DriveID)
    requires Sound(s) && Placed(s) && Enabled(s, e) && !IsMove(e) && d in s.drives
    requires !(WriteOf(s, e).PutDrive? && WriteOf(s, e).d == d)
    ensures Committed(s.drives[d].fins, PastAfter(s, e).ledger) == Committed(s.drives[d].fins, s.past.ledger)
  {
    assert Shaped(s.drives[d]);
    var ledger' := PastAfter(s, e).ledger;
    if ledger' != s.past.ledger {
      OneEntry(s, e);
      if HostedBy(s, e.v, d) {
        ReservedFrame(s, e, e.v, d);
      }
      CommittedUpdate(s.drives[d].fins, s.past.ledger, e.v, ledger'[e.v]);
    }
  }

  /** The ledger changes in CSI calls only, in the entry of their volume. */
  ghost predicate ChangesOnly(before: Ledger, after: Ledger, v: VolumeName) {
    after == before || (v in after && after == before[v := after[v]])
  }

  lemma OneEntry(s: State, e: Event)
    requires Enabled(s, e) && !IsMove(e) && PastAfter(s, e).ledger != s.past.ledger
    ensures (e.OnCreate? || e.OnVolume?) && ChangesOnly(s.past.ledger, PastAfter(s, e).ledger, e.v)
  {
    match e
    case OnCreate(v, step) => CreateOneEntry(s, v, step);
    case OnVolume(v, step) => VolumeOneEntry(s, v, step);
    case _ =>
  }

  lemma CreateOneEntry(s: State, v: VolumeName, e: CreateStep)
    requires CreateEnabled(s, v, e)
    ensures ChangesOnly(s.past.ledger, CreatePast(s, v, e).ledger, v)
  {
  }

  lemma VolumeOneEntry(s: State, v: VolumeName, e: VolumeStep)
    requires VolumeEnabled(s, v, e)
    ensures ChangesOnly(s.past.ledger, VolumePast(s, v, e).ledger, v)
  {
  }

  lemma HeldReserves(s: State, d: DriveID)
    requires Coverage(s) && d in s.drives
    ensures forall v :: Holds(s.drives[d].fins, v) ==> 0 <= Reserved(s.past.ledger, v)
    ensures 0 <= Committed(s.drives[d].fins, s.past.ledger)
  {
    forall v | Holds(s.drives[d].fins, v) ensures 0 <= Reserved(s.past.ledger, v) {
      assert HostedBy(s, v, d);
      assert Covered(s, v, d);
      assert 0 <= Asked(s.past, v) <= Bound(s.past, v);
    }
    CommittedNonNegative(s.drives[d].fins, s.past.ledger);
  }

  /** Device sync keeps the books exactly when the device is not smaller than what is allocated. */
  lemma ResizeBalanced(drive: Drive, total: int, ledger: Ledger)
    requires Balanced(drive, ledger) && 0 <= total <= MAX_INT64
    ensures Balanced(Resize(drive, total), ledger) <==> drive.alloc <= total
  {
  }

  lemma DriveWriteBalanced(s: State, d: DriveID, e: DriveStep)
    requires Sound(s) && Coverage(s) && Capacity(s) && DriveEnabled(s, d, e) && Disciplined(s, OnDrive(d, e))
    ensures Balanced(EditedDrive(s, d, e), s.past.ledger)
  {
    if e.Resync? {
      ResizeBalanced(s.drives[d], e.total, s.past.ledger);
    }
    if d in s.drives {
      HeldReserves(s, d);
    } else {
      assert Committed([DataProtection][..0], s.past.ledger) == 0;
    }
  }

  /** CreateVolume's reservation, on a drive with room that did not hold the volume. */
  lemma ReserveBalanced(drive: Drive, ledger: Ledger, v: VolumeName, size: int, claim: Claim, entry: Entry)
    requires Balanced(drive, ledger) && Distinct(drive.fins) && !Hosts(drive, v)
    requires 0 <= size <= drive.free && entry.reserved == size
    ensures Balanced(Reserve(drive, v, size, claim), ledger[v := entry])
  {
    CommittedUpdate(drive.fins, ledger, v, entry);
    CommittedAdd(drive.fins, ledger[v := entry], v);
  }

  /** ControllerExpandVolume's reservation. */
  lemma EnlargeBalanced(drive: Drive, ledger: Ledger, v: VolumeName, size: int, entry: Entry)
    requires Balanced(drive, ledger) && Distinct(drive.fins)
    requires 0 <= size <= drive.free
    requires Hosts(drive, v) ==> entry.reserved == Reserved(ledger, v) + size
    ensures Balanced(Enlarge(drive, size), ledger[v := entry])
    ensures Balanced(Enlarge(drive, size), ledger)
  {
    CommittedUpdate(drive.fins, ledger, v, entry);
  }

  /** The credit gives back no more than was set aside, so Allocated recomputed from Total
      still covers the volumes that stay. */
  lemma ReleaseBalanced(drive: Drive, ledger: Ledger, v: VolumeName, size: int, claim: Claim)
    requires Balanced(drive, ledger) && Distinct(drive.fins) && Hosts(drive, v)
    requires forall w :: Holds(drive.fins, w) ==> 0 <= Reserved(ledger, w)
    requires 0 <= size <= Reserved(ledger, v)
    ensures Balanced(Release(drive, v, size, claim), ledger)
  {
    CommittedDrop(drive.fins, ledger, v);
    CommittedShare(drive.fins, ledger, v);
  }

  lemma CreateWriteBalanced(s: State, v: VolumeName, e: CreateStep)
    requires Sound(s) && Placed(s) && Capacity(s) && CreateEnabled(s, v, e) && e.ReserveDrive?
    ensures Balanced(CreateWrite(s, v, e).drive, PastAfter(s, OnCreate(v, e)).ledger)
  {
    assert CallPlaced(s, v, s.calls[v]) && CallRead(s, v, s.calls[v]) && Admitted(v, s.calls[v]);
    var Recorded(req, pick) := s.calls[v];
    assert Shaped(s.drives[pick.id]);
    var size := req.bytes.value;
    var entry := PastAfter(s, OnCreate(v, e)).ledger[v];
    ReserveBalanced(pick.drive, s.past.ledger, v, size, req.claim, entry);
  }

  lemma VolumeWriteBalanced(s: State, v: VolumeName, e: VolumeStep)
    requires Sound(s) && Placed(s) && Coverage(s) && Capacity(s) && VolumeEnabled(s, v, e) && e.GrantExpand?
    ensures Balanced(VolumeWrite(s, v, e).drive, PastAfter(s, OnVolume(v, e)).ledger)
  {
    assert CallRead(s, v, s.calls[v]) && CallCovered(s, v, s.calls[v]);
    var ExpandPlaced(want, vol, drive) := s.calls[v];
    assert Shaped(s.drives[vol.driveLabel]);
    var ledger' := PastAfter(s, OnVolume(v, e)).ledger;
    EnlargeBalanced(drive, s.past.ledger, v, want - vol.size, ledger'[v]);
    assert ledger' == s.past.ledger[v := ledger'[v]];
  }

  lemma ReleaseWriteBalanced(s: State, v: VolumeName, e: ReleaseStep)
    requires Sound(s) && Placed(s) && Coverage(s) && Capacity(s) && ReleaseEnabled(s, v, e) && e.Credit?
    ensures Balanced(ReleaseWrite(s, v, e).drive, s.past.ledger)
  {
    assert ReleaseReads(s, v, s.releases[v]) && Within(s, v, s.releases[v].vol.size);
    var ReleasePlaced(vol, drive) := s.releases[v];
    assert HostedBy(s, v, vol.driveLabel) && Covered(s, v, vol.driveLabel) && Anchored(s, v, vol.driveLabel);
    assert Shaped(s.drives[vol.driveLabel]);
    HeldReserves(s, vol.driveLabel);
    ReleaseBalanced(drive, s.past.ledger, v, vol.size, vol.claim);
  }

  lemma WriteBalanced(s: State, e: Event)
    requires Sound(s) && Placed(s) && Coverage(s) && Capacity(s)
    requires Enabled(s, e) && Disciplined(s, e) && !IsMove(e)
    ensures WriteOf(s, e).PutDrive? ==> Balanced(WriteOf(s, e).drive, PastAfter(s, e).ledger)
  {
    match e
    case OnDrive(d, step) => DriveWriteBalanced(s, d, step);
    case OnCreate(v, step) => if step.ReserveDrive? { CreateWriteBalanced(s, v, step); }
    case OnVolume(v, step) => if step.GrantExpand? { VolumeWriteBalanced(s, v, step); }
    case OnRelease(v, step) => if step.Credit? { ReleaseWriteBalanced(s, v, step); }
  }

  lemma StoredBalanced(s: State, w: Write, ledger: Ledger)
    requires w.PutDrive? ==> Balanced(w.drive, ledger)
    requires forall d :: d in s.drives && !(w.PutDrive? && w.d == d) ==> Balanced(s.drives[d], ledger)
    ensures forall d :: d in DrivesAfter(s, w) ==> Balanced(DrivesAfter(s, w)[d], ledger)
  {
  }

  lemma CapacityStep(s: State, e: Event)
    requires Sound(s) && Placed(s) && Coverage(s) && Capacity(s)
    requires Enabled(s, e) && Disciplined(s, e) && !IsMove(e)
    ensures Capacity(Apply(s, e))
  {
    WriteBalanced(s, e);
    var w, ledger := WriteOf(s, e), PastAfter(s, e).ledger;
    forall d | d in s.drives && !(w.PutDrive? && w.d == d) ensures Balanced(s.drives[d], ledger) {
      CommittedFrame(s, e, d);
    }
    StoredBalanced(s, w, ledger);
  }
}
