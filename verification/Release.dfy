/** The delete handler in every run, Move included: what a credit gives back, who holds the volume
    when its record vanishes, and why there is one credit for each time a volume comes to a drive. */
module Release {
  import opened Objects
  import opened Cluster
  import opened Versions
  import opened Removal
  import opened Placement
  import opened MoveSafety
  import opened Handover
  import opened Effects

  // ---------------------------------------------------------------- one credit

  /** The drive the record names loses the volume and nothing else, gets the recorded size back and
      has its Allocated recomputed; the volume is cut out of its list and its claim goes, but no other field,
      no other drive and no record changes. */
  ghost predicate CreditsExactly(s: State, v: VolumeName, s': State)
    requires v in s.releases
  {
    var vol := s.releases[v].vol;
    var d := vol.driveLabel;
    && d in s.drives && s'.drives.Keys == s.drives.Keys && s'.volumes == s.volumes
    && Hosts(s.drives[d], v)
    && (forall w :: Hosts(s'.drives[d], w) <==> Hosts(s.drives[d], w) && w != v)
    && s'.drives[d].free == s.drives[d].free + vol.size
    && s'.drives[d].free + s'.drives[d].alloc == s'.drives[d].total == s.drives[d].total
    && (forall x :: x in s.drives && x != d ==> s'.drives[x] == s.drives[x])
    && CutsOut(s.drives[d], s'.drives[d], v, vol.claim)
  }

  ghost predicate CutsOut(was: Drive, now: Drive, v: VolumeName, claim: Claim) {
    && (exists i :: 0 <= i < |was.fins| && was.fins[i] == VolumeRef(v) && now.fins == was.fins[..i] + was.fins[i + 1..])
    && now == was.(version := now.version, fins := now.fins, free := now.free, alloc := now.alloc,
                   claims := was.claims - (if claim.Claim? then {claim.id} else {}))
  }

  lemma CreditWrites(s: State, v: VolumeName)
    requires Sound(s) && Enabled(s, OnRelease(v, Credit))
    ensures
      var vol := s.releases[v].vol;
      && vol.driveLabel in s.drives && Hosts(s.drives[vol.driveLabel], v) && Shaped(s.drives[vol.driveLabel])
      && Becomes(s, Apply(s, OnRelease(v, Credit)), vol.driveLabel,
                 Objects.Release(s.drives[vol.driveLabel], v, vol.size, vol.claim))
  {
    assert ReleaseReads(s, v, s.releases[v]);
    ReleaseWriteShaped(s, v, Credit);
  }

  lemma ReleaseCuts(drive: Drive, v: VolumeName, size: int, claim: Claim)
    requires Shaped(drive) && Hosts(drive, v)
    ensures CutsOut(drive, Objects.Release(drive, v, size, claim), v, claim)
    ensures forall w :: Hosts(Objects.Release(drive, v, size, claim), w) <==> Hosts(drive, w) && w != v
  {
    forall w ensures Holds(DropRef(drive.fins, v), w) <==> Hosts(drive, w) && w != v {
      DropRefMember(drive.fins, v, VolumeRef(w));
    }
    HoldingIsWellFormed(drive, v);
    var i := DropRefAt(drive.fins, v);
    assert drive.claims - {} == drive.claims;
  }

  lemma CreditStep(s: State, v: VolumeName)
    requires Sound(s) && Enabled(s, OnRelease(v, Credit))
    ensures CreditsExactly(s, v, Apply(s, OnRelease(v, Credit)))
  {
    CreditWrites(s, v);
    CreditMeans(s, v, Apply(s, OnRelease(v, Credit)));
  }

  lemma CreditMeans(s: State, v: VolumeName, s': State)
    requires v in s.releases
    requires
      var vol := s.releases[v].vol;
      && vol.driveLabel in s.drives && Hosts(s.drives[vol.driveLabel], v) && Shaped(s.drives[vol.driveLabel])
      && Becomes(s, s', vol.driveLabel, Objects.Release(s.drives[vol.driveLabel], v, vol.size, vol.claim))
    ensures CreditsExactly(s, v, s')
  {
    var vol := s.releases[v].vol;
    ReleaseCuts(s.drives[vol.driveLabel], v, vol.size, vol.claim);
  }

  lemma CreditIsExact(es: seq<Event>, v: VolumeName)
    requires Reached(es) && Enabled(After(Empty(), es), OnRelease(v, Credit))
    ensures CreditsExactly(After(Empty(), es), v, Apply(After(Empty(), es), OnRelease(v, Credit)))
  {
    SoundRun(Empty(), es);
    CreditStep(After(Empty(), es), v);
  }

  // ---------------------------------------------------------------- one credit per arrival

  function One(held: bool): nat { if held then 1 else 0 }

  predicate Arrives(s: State, e: Event, v: VolumeName, d: DriveID)
    requires Enabled(s, e)
  {
    Puts(s, e, v, d) && !HostedBy(s, v, d)
  }

  /** A Move out of `d` takes the volume along. */
  predicate Clears(s: State, e: Event, v: VolumeName, d: DriveID)
    requires Enabled(s, e)
  {
    Resets(s, e, d) && HostedBy(s, v, d)
  }

  ghost function Arrivals(s: State, es: seq<Event>, v: VolumeName, d: DriveID): nat
    requires Runs(s, es)
    decreases |es|
  {
    if es == [] then 0 else One(Arrives(s, es[0], v, d)) + Arrivals(Apply(s, es[0]), es[1..], v, d)
  }

  ghost function Credits(s: State, es: seq<Event>, v: VolumeName, d: DriveID): nat
    requires Runs(s, es)
    decreases |es|
  {
    if es == [] then 0 else One(Loses(s, es[0], v, d)) + Credits(Apply(s, es[0]), es[1..], v, d)
  }

  ghost function Clearings(s: State, es: seq<Event>, v: VolumeName, d: DriveID): nat
    requires Runs(s, es)
    decreases |es|
  {
    if es == [] then 0 else One(Clears(s, es[0], v, d)) + Clearings(Apply(s, es[0]), es[1..], v, d)
  }

  lemma ArrivalStep(s: State, e: Event, v: VolumeName, d: DriveID)
    requires Sound(s) && Enabled(s, e)
    ensures One(HostedBy(s, v, d)) + One(Arrives(s, e, v, d)) ==
            One(Loses(s, e, v, d)) + One(Clears(s, e, v, d)) + One(HostedBy(Apply(s, e), v, d))
  {
    HostingAll(s, e, v, d);
    if Loses(s, e, v, d) {
      assert ReleaseReads(s, v, s.releases[v]);
    }
  }

  lemma {:induction false} ArrivalsSettled(s: State, es: seq<Event>, v: VolumeName, d: DriveID)
    requires Sound(s) && Runs(s, es) && DisciplinedRun(s, es)
    ensures One(HostedBy(s, v, d)) + Arrivals(s, es, v, d) ==
            Credits(s, es, v, d) + Clearings(s, es, v, d) + One(HostedBy(After(s, es), v, d))
    decreases |es|
  {
    if es != [] {
      ArrivalStep(s, es[0], v, d);
      SoundStep(s, es[0]);
      ArrivalsSettled(Apply(s, es[0]), es[1..], v, d);
    }
  }

  /** From any point of any run on, each time a volume comes to a drive it is credited there, or moved away,
      exactly once, unless it is still there; so between two arrivals there is at most one credit. */
  lemma CreditedOncePerArrival(es: seq<Event>, more: seq<Event>, v: VolumeName, d: DriveID)
    requires Reached(es) && Runs(After(Empty(), es), more) && DisciplinedRun(After(Empty(), es), more)
    ensures
      var s := After(Empty(), es);
      One(HostedBy(s, v, d)) + Arrivals(s, more, v, d) ==
      Credits(s, more, v, d) + Clearings(s, more, v, d) + One(HostedBy(After(s, more), v, d))
  {
    SoundRun(Empty(), es);
    ArrivalsSettled(After(Empty(), es), more, v, d);
  }

  // ---------------------------------------------------------------- who holds it when the record goes

  /** The last event that put `v` on `d` or took it off put it there. */
  ghost function LastPut(s: State, es: seq<Event>, v: VolumeName, d: DriveID, held: bool): bool
    requires Runs(s, es)
    decreases |es|
  {
    if es == [] then held
    else LastPut(Apply(s, es[0]), es[1..], v, d, Puts(s, es[0], v, d) || (held && !Takes(s, es[0], v, d)))
  }

  lemma {:induction false} HeldExactly(s: State, es: seq<Event>, v: VolumeName, d: DriveID)
    requires Sound(s) && Runs(s, es) && DisciplinedRun(s, es)
    ensures HostedBy(After(s, es), v, d) <==> LastPut(s, es, v, d, HostedBy(s, v, d))
    decreases |es|
  {
    if es != [] {
      HostingAll(s, es[0], v, d);
      SoundStep(s, es[0]);
      HeldExactly(Apply(s, es[0]), es[1..], v, d);
    }
  }

  lemma VanishesByPurge(s: State, e: Event, v: VolumeName)
    requires Consistent(s) && Agreed(s) && Enabled(s, e)
    requires v in s.volumes && v !in Apply(s, e).volumes
    ensures e == OnRelease(v, Purge)
  {
    WriteLabels(s, e, v);
    StoredVolume(s, WriteOf(s, e), v);
  }

  /** In every run, disciplined or not, a record vanishes by the handler's last write only... */
  lemma OnlyPurgeVanishes(es: seq<Event>, e: Event, v: VolumeName)
    requires Runs(Empty(), es) && Enabled(After(Empty(), es), e)
    requires v in After(Empty(), es).volumes && v !in Apply(After(Empty(), es), e).volumes
    ensures e == OnRelease(v, Purge)
  {
    AgreedRun(Empty(), es);
    VanishesByPurge(After(Empty(), es), e, v);
  }

  lemma ReleaseKeepsHolds(s: State, v: VolumeName, e: ReleaseStep)
    requires ReleaseEnabled(s, v, e) && !e.Credit?
    ensures forall x :: HostedBy(Apply(s, OnRelease(v, e)), v, x) <==> HostedBy(s, v, x)
  {
  }

  /** ...and that leaves a drive holding the volume exactly if the last event that put it there or took
      it off put it there. */
  lemma PurgeLeavesExactly(es: seq<Event>, v: VolumeName, d: DriveID)
    requires Reached(es) && Enabled(After(Empty(), es), OnRelease(v, Purge))
    ensures HostedBy(Apply(After(Empty(), es), OnRelease(v, Purge)), v, d) <==> LastPut(Empty(), es, v, d, false)
  {
    HeldExactly(Empty(), es, v, d);
    ReleaseKeepsHolds(After(Empty(), es), v, Purge);
  }

  // ---------------------------------------------------------------- the drive the record names

  /** The volume has come back to the drive the handler works on since it read that drive. */
  predicate RefilledAfter(s: State, e: Event, v: VolumeName, refilled: bool)
    requires Enabled(s, e)
  {
    if e == OnRelease(v, PlaceRelease) then false
    else if v !in s.releases || s.releases[v].ReleaseRead? then refilled
    else
      var d := s.releases[v].vol.driveLabel;
      Puts(s, e, v, d) || (refilled && !Takes(s, e, v, d))
  }

  ghost function Refilled(s: State, es: seq<Event>, v: VolumeName, refilled: bool): bool
    requires Runs(s, es)
    decreases |es|
  {
    if es == [] then refilled else Refilled(Apply(s, es[0]), es[1..], v, RefilledAfter(s, es[0], v, refilled))
  }

  /** Once nothing is left to credit on it, the drive holds the volume exactly if it has come back. */
  ghost predicate RefillKnown(s: State, v: VolumeName, refilled: bool) {
    v in s.releases ==>
      match s.releases[v]
      case ReleaseRead(vol) => true
      case ReleasePlaced(vol, drive) => Hosts(drive, v) || (HostedBy(s, v, vol.driveLabel) <==> refilled)
      case Credited(vol) => HostedBy(s, v, vol.driveLabel) <==> refilled
  }

  /** The handler's own steps... */
  lemma OwnRefill(s: State, v: VolumeName, e: ReleaseStep, refilled: bool)
    requires Sound(s) && RefillKnown(s, v, refilled) && ReleaseEnabled(s, v, e) && ReleaseNext(s, v, e).Some?
    ensures RefillKnown(Apply(s, OnRelease(v, e)), v, RefilledAfter(s, OnRelease(v, e), v, refilled))
  {
    HostingAll(s, OnRelease(v, e), v, ReleaseNext(s, v, e).value.vol.driveLabel);
  }

  /** ...and everybody else's. */
  lemma RefillStep(s: State, e: Event, v: VolumeName, refilled: bool)
    requires Sound(s) && RefillKnown(s, v, refilled) && Enabled(s, e)
    ensures RefillKnown(Apply(s, e), v, RefilledAfter(s, e, v, refilled))
  {
    if e.OnRelease? && e.v == v {
      if ReleaseNext(s, v, e.release).Some? { OwnRefill(s, v, e.release, refilled); }
    } else if v in s.releases {
      HostingAll(s, e, v, s.releases[v].vol.driveLabel);
    }
  }

  lemma {:induction false} RefillRun(s: State, es: seq<Event>, v: VolumeName, refilled: bool)
    requires Sound(s) && RefillKnown(s, v, refilled) && Runs(s, es) && DisciplinedRun(s, es)
    ensures RefillKnown(After(s, es), v, Refilled(s, es, v, refilled))
    ensures Sound(After(s, es))
    decreases |es|
  {
    if es != [] {
      RefillStep(s, es[0], v, refilled);
      SoundStep(s, es[0]);
      RefillRun(Apply(s, es[0]), es[1..], v, RefilledAfter(s, es[0], v, refilled));
    }
  }

  /** In every run: when a record is about to vanish, the drive its label names holds the volume
      exactly if the volume was put there after the handler read that drive and has stayed. */
  lemma PurgeExactly(es: seq<Event>, v: VolumeName)
    requires Reached(es) && Enabled(After(Empty(), es), OnRelease(v, Purge))
    ensures
      var s := After(Empty(), es);
      v in s.volumes && (HostedBy(s, v, s.volumes[v].driveLabel) <==> Refilled(Empty(), es, v, false))
  {
    RefillRun(Empty(), es, v, false);
    var s := After(Empty(), es);
    assert ReleaseReads(s, v, s.releases[v]);
  }

  // ---------------------------------------------------------------- a release left alone

  /** The same release goes on, nothing puts the volume anywhere and no Move clears a drive that holds it. */
  ghost predicate LeftAlone(s: State, es: seq<Event>, v: VolumeName)
    requires Runs(s, es)
    decreases |es|
  {
    es == [] || (
      && es[0] != OnRelease(v, StartRelease)
      && (forall d :: !Puts(s, es[0], v, d) && !Clears(s, es[0], v, d))
      && LeftAlone(Apply(s, es[0]), es[1..], v))
  }

  ghost predicate ReleasingFrom(s: State, v: VolumeName, d: DriveID) {
    v in s.releases ==> s.releases[v].vol.driveLabel == d
  }

  /** Whoever else holds the volume keeps it. */
  lemma {:induction false} OthersKeep(s: State, es: seq<Event>, v: VolumeName, d: DriveID, x: DriveID)
    requires Sound(s) && Runs(s, es) && DisciplinedRun(s, es) && LeftAlone(s, es, v)
    requires ReleasingFrom(s, v, d) && x != d
    ensures HostedBy(After(s, es), v, x) <==> HostedBy(s, v, x)
    ensures ReleasingFrom(After(s, es), v, d)
    decreases |es|
  {
    if es != [] {
      HostingAll(s, es[0], v, x);
      SoundStep(s, es[0]);
      assert !Puts(s, es[0], v, x) && !Clears(s, es[0], v, x);
      OthersKeep(Apply(s, es[0]), es[1..], v, d, x);
    }
  }

  lemma {:induction false} NeverRefilled(s: State, es: seq<Event>, v: VolumeName)
    requires Runs(s, es) && LeftAlone(s, es, v)
    ensures !Refilled(s, es, v, false)
    decreases |es|
  {
    if es != [] {
      NeverRefilled(Apply(s, es[0]), es[1..], v);
    }
  }

  /** At the end of the release everybody but the drive that was credited still holds it. */
  lemma LeftAloneRun(s: State, more: seq<Event>, v: VolumeName, d: DriveID)
    requires Sound(s) && Runs(s, more) && DisciplinedRun(s, more) && LeftAlone(s, more, v)
    requires v in s.releases && s.releases[v].ReleaseRead? && s.releases[v].vol.driveLabel == d
    requires v in After(s, more).releases && After(s, more).releases[v].Credited?
    ensures forall x :: HostedBy(After(s, more), v, x) <==> HostedBy(s, v, x) && x != d
    ensures Sound(After(s, more))
  {
    RefillRun(s, more, v, false);
    NeverRefilled(s, more, v);
    forall x ensures HostedBy(After(s, more), v, x) <==> HostedBy(s, v, x) && x != d {
      if x != d { OthersKeep(s, more, v, d, x); } else { OthersKeep(s, more, v, d, d + 1); }
    }
  }

  /** A release that nothing is put or moved in the way of: its last write leaves no drive holding the
      volume if and only if, when it began, no drive but the one its record names did. */
  lemma ReleaseClearsExactly(es: seq<Event>, more: seq<Event>, v: VolumeName)
    requires Reached(es) && Enabled(After(Empty(), es), OnRelease(v, StartRelease))
    requires
      var s := Apply(After(Empty(), es), OnRelease(v, StartRelease));
      && Runs(s, more) && DisciplinedRun(s, more) && LeftAlone(s, more, v)
      && Enabled(After(s, more), OnRelease(v, Purge))
    ensures
      var s0 := After(Empty(), es);
      var s := After(Apply(s0, OnRelease(v, StartRelease)), more);
      Nowhere(Apply(s, OnRelease(v, Purge)), v) <==> OnlyOn(s0, v, s0.volumes[v].driveLabel)
  {
    SoundRun(Empty(), es);
    ReleaseClears(After(Empty(), es), more, v);
  }

  lemma ReleaseClears(s0: State, more: seq<Event>, v: VolumeName)
    requires Sound(s0) && Enabled(s0, OnRelease(v, StartRelease))
    requires
      var s := Apply(s0, OnRelease(v, StartRelease));
      && Runs(s, more) && DisciplinedRun(s, more) && LeftAlone(s, more, v)
      && Enabled(After(s, more), OnRelease(v, Purge))
    ensures
      var s := After(Apply(s0, OnRelease(v, StartRelease)), more);
      Nowhere(Apply(s, OnRelease(v, Purge)), v) <==> OnlyOn(s0, v, s0.volumes[v].driveLabel)
  {
    var s1 := Apply(s0, OnRelease(v, StartRelease));
    SoundStep(s0, OnRelease(v, StartRelease));
    ReleaseKeepsHolds(s0, v, StartRelease);
    LeftAloneRun(s1, more, v, s0.volumes[v].driveLabel);
    ReleaseKeepsHolds(After(s1, more), v, Purge);
  }
}
