/** When CreateVolume's success answer is right: it can leave the volume on no drive exactly if the
    call begins while an old volume of the name is being deleted and some drive still holds it. */
module Success {
  import opened Objects
  import opened Cluster
  import opened Versions
  import opened Removal
  import opened Placement
  import opened Accounting
  import opened Claims
  import opened Trace
  import opened Books

  predicate Succeeds(e: Event, v: VolumeName) {
    e == OnCreate(v, ReserveDrive) || e == OnCreate(v, AlreadyReserved)
  }

  /** The events go on with calls that have begun. */
  predicate SameCall(es: seq<Event>, v: VolumeName) {
    forall i :: 0 <= i < |es| ==> !(es[i].OnCreate? && es[i].v == v && es[i].create.StartCreate?)
  }

  /** The call that starts in `s` can go on by `more` and answer success with `e`, and then no drive
      holds the volume. */
  ghost predicate Strands(s: State, v: VolumeName, req: Request, more: seq<Event>, e: Event)
    requires Enabled(s, OnCreate(v, StartCreate(req)))
  {
    var s1 := Apply(s, OnCreate(v, StartCreate(req)));
    && Runs(s1, more) && DisciplinedRun(s1, more) && NoMoves(more) && SameCall(more, v)
    && Succeeds(e, v) && Enabled(After(s1, more), e)
    && Nowhere(Apply(After(s1, more), e), v)
  }

  // ---------------------------------------------------------------- a call that begins in time

  lemma {:induction false} LateKept(s: State, es: seq<Event>, v: VolumeName)
    requires Runs(s, es) && SameCall(es, v)
    ensures v in After(s, es).past.late <==> v in s.past.late
    decreases |es|
  {
    if es != [] {
      LateSame(s, es[0], v);
      LateKept(Apply(s, es[0]), es[1..], v);
    }
  }

  lemma OnTimeSucceeds(s: State, v: VolumeName, e: Event)
    requires InOrder(s) && Enabled(s, e) && Succeeds(e, v) && v !in s.past.late
    ensures HostedBy(Apply(s, e), v, s.calls[v].pick.id)
  {
    SuccessHolds(s, v, e);
  }

  lemma NeverStrandsInTime(s: State, v: VolumeName, req: Request, more: seq<Event>, e: Event)
    requires InOrder(s) && Enabled(s, OnCreate(v, StartCreate(req))) && Disciplined(s, OnCreate(v, StartCreate(req)))
    requires !Lingering(s, v)
    ensures !Strands(s, v, req, more, e)
  {
    if Strands(s, v, req, more, e) {
      var s1 := Apply(s, OnCreate(v, StartCreate(req)));
      InOrderStep(s, OnCreate(v, StartCreate(req)));
      InOrderRun(s1, more);
      LateKept(s1, more, v);
      OnTimeSucceeds(After(s1, more), v, e);
    }
  }

  // ---------------------------------------------------------------- a call that begins too early

  /** Both actors go on in turn: CreateVolume finds the old volume on its drive, the delete handler
      takes it off and purges the record, CreateVolume makes a new record. */
  function Overtaking(s: State, v: VolumeName): seq<Event>
    requires v in s.volumes
  {
    [OnCreate(v, ListDrive(s.volumes[v].driveLabel, true))]
    + ((if v in s.releases then [OnRelease(v, AbortRelease)] else []) + Handling(v))
  }

  function Handling(v: VolumeName): seq<Event> {
    [OnRelease(v, StartRelease), OnRelease(v, PlaceRelease), OnRelease(v, Credit), OnRelease(v, Purge),
     OnCreate(v, CreateRecord)]
  }

  /** CreateVolume has read the old holder `pick` and the record `vol` is terminating. */
  ghost predicate Overtaken(s: State, v: VolumeName, req: Request, pick: Candidate, vol: Volume) {
    && v in s.calls && s.calls[v] == Chosen(req, pick) && Hosts(pick.drive, v)
    && v in s.volumes && s.volumes[v] == vol && vol.deleting && IsReleased(vol) && vol.driveLabel == pick.id
    && pick.id in s.drives && s.drives[pick.id] == pick.drive
    && OnlyOn(s, v, pick.id)
  }

  /** The record names the drive that still holds the volume. */
  lemma LingeringHolder(s: State, v: VolumeName)
    requires Placed(s) && Lingering(s, v)
    ensures IsReleased(s.volumes[v]) && HostedBy(s, v, s.volumes[v].driveLabel)
    ensures OnlyOn(s, v, s.volumes[v].driveLabel)
  {
    var d :| d in s.drives && Hosts(s.drives[d], v);
    assert HostedBy(s, v, d) && Anchored(s, v, d) && Recordful(s, v);
    forall x ensures HostedBy(s, v, x) ==> x == d { assert Anchored(s, v, x); }
  }

  /** An event that writes no drive changes no hold. */
  lemma SameHolds(s: State, s': State, v: VolumeName)
    requires s'.drives == s.drives
    ensures Nowhere(s, v) <==> Nowhere(s', v)
    ensures forall d :: OnlyOn(s, v, d) <==> OnlyOn(s', v, d)
  {
    assert forall x :: HostedBy(s, v, x) <==> HostedBy(s', v, x);
  }

  lemma ListingOvertaken(s: State, v: VolumeName, req: Request) returns (s2: State, pick: Candidate)
    requires Lingering(s, v) && IsReleased(s.volumes[v])
    requires HostedBy(s, v, s.volumes[v].driveLabel) && OnlyOn(s, v, s.volumes[v].driveLabel)
    requires v !in s.calls
    ensures
      var s1 := Apply(s, OnCreate(v, StartCreate(req)));
      var list := OnCreate(v, ListDrive(s.volumes[v].driveLabel, true));
      Enabled(s1, list) && s2 == Apply(s1, list)
    ensures Overtaken(s2, v, req, pick, s.volumes[v]) && s2.releases == s.releases
  {
    var d := s.volumes[v].driveLabel;
    var s1 := Apply(s, OnCreate(v, StartCreate(req)));
    assert s1.calls[v] == Listing(req, s.drives.Keys, {}) && s1.drives == s.drives;
    s2 := Apply(s1, OnCreate(v, ListDrive(d, true)));
    pick := Candidate(d, s.drives[d]);
    assert s2.drives == s.drives && s2.volumes == s.volumes;
    SameHolds(s, s2, v);
  }

  /** The handler reads the record and the drive... */
  lemma ReadingRuns(s: State, v: VolumeName, req: Request, pick: Candidate, vol: Volume) returns (s': State)
    requires Overtaken(s, v, req, pick, vol) && v !in s.releases
    ensures Leads(s, Handling(v)[..2], s', true)
    ensures Overtaken(s', v, req, pick, vol) && v in s'.releases && s'.releases[v] == ReleasePlaced(vol, pick.drive)
  {
    var e1, e2 := OnRelease(v, StartRelease), OnRelease(v, PlaceRelease);
    var s1 := Apply(s, e1);
    assert s1.releases[v] == ReleaseRead(vol);
    s' := Apply(s1, e2);
    assert s'.drives == s.drives && s'.volumes == s.volumes;
    SameHolds(s, s', v);
    LeadsStep(s1, e2, [], s', true);
    LeadsStep(s, e1, [e2] + [], s', true);
    assert Handling(v)[..2] == [e1] + ([e2] + []);
  }

  /** ...takes the volume off... */
  lemma CreditRuns(s: State, v: VolumeName, req: Request, pick: Candidate, vol: Volume) returns (s': State)
    requires Overtaken(s, v, req, pick, vol) && v in s.releases && s.releases[v] == ReleasePlaced(vol, pick.drive)
    ensures Leads(s, Handling(v)[2..3], s', true)
    ensures v in s'.calls && s'.calls[v] == Chosen(req, pick) && v in s'.releases && s'.releases[v] == Credited(vol)
    ensures v in s'.volumes && s'.volumes[v] == vol && Nowhere(s', v)
  {
    var e := OnRelease(v, Credit);
    s' := Apply(s, e);
    DropRefMember(pick.drive.fins, v, VolumeRef(v));
    forall x ensures !HostedBy(s', v, x) { StoredHosts(s, ReleaseWrite(s, v, Credit), v, x); }
    LeadsStep(s, e, [], s', true);
    assert Handling(v)[2..3] == [e] + [];
  }

  /** ...and purges the record, and CreateVolume makes a new one for the drive it had read. */
  lemma PurgeRuns(s: State, v: VolumeName, req: Request, pick: Candidate, vol: Volume) returns (s': State)
    requires v in s.calls && s.calls[v] == Chosen(req, pick) && Hosts(pick.drive, v)
    requires v in s.releases && s.releases[v] == Credited(vol) && vol.deleting && IsReleased(vol)
    requires v in s.volumes && s.volumes[v] == vol && Nowhere(s, v)
    ensures Leads(s, Handling(v)[3..], s', true)
    ensures v in s'.calls && s'.calls[v] == Recorded(req, pick) && Nowhere(s', v)
  {
    var e1, e2 := OnRelease(v, Purge), OnCreate(v, CreateRecord);
    assert vol.fins[..0] == [] && WithoutFinalizer([], PurgeProtection) == [];
    assert WithoutFinalizer(vol.fins, PurgeProtection) == [];
    var s1 := Apply(s, e1);
    assert v !in s1.volumes && s1.drives == s.drives;
    s' := Apply(s1, e2);
    assert s'.drives == s.drives;
    SameHolds(s, s', v);
    LeadsStep(s1, e2, [], s', true);
    LeadsStep(s, e1, [e2] + [], s', true);
    assert Handling(v)[3..] == [e1] + ([e2] + []);
  }

  lemma HandlingRuns(s: State, v: VolumeName, req: Request, pick: Candidate, vol: Volume) returns (s': State)
    requires Overtaken(s, v, req, pick, vol) && v !in s.releases
    ensures Leads(s, Handling(v), s', true)
    ensures v in s'.calls && s'.calls[v] == Recorded(req, pick) && Nowhere(s', v)
  {
    var read := ReadingRuns(s, v, req, pick, vol);
    var mid := CreditRuns(read, v, req, pick, vol);
    s' := PurgeRuns(mid, v, req, pick, vol);
    Join(read, Handling(v)[2..3], mid, Handling(v)[3..], s', true);
    Join(s, Handling(v)[..2], read, Handling(v)[2..3] + Handling(v)[3..], s', true);
    assert Handling(v) == Handling(v)[..2] + (Handling(v)[2..3] + Handling(v)[3..]);
  }

  /** A handler that is under way may stop and start again. */
  lemma AbortingRuns(s: State, v: VolumeName, req: Request, pick: Candidate, vol: Volume) returns (s': State)
    requires Overtaken(s, v, req, pick, vol)
    ensures Leads(s, (if v in s.releases then [OnRelease(v, AbortRelease)] else []) + Handling(v), s', true)
    ensures v in s'.calls && s'.calls[v] == Recorded(req, pick) && Nowhere(s', v)
  {
    if v in s.releases {
      var e := OnRelease(v, AbortRelease);
      var s1 := Apply(s, e);
      assert forall x :: HostedBy(s1, v, x) ==> HostedBy(s, v, x);
      s' := HandlingRuns(s1, v, req, pick, vol);
      LeadsStep(s, e, Handling(v), s', true);
    } else {
      s' := HandlingRuns(s, v, req, pick, vol);
      assert [] + Handling(v) == Handling(v);
    }
  }

  lemma OvertakingRuns(s: State, v: VolumeName, req: Request) returns (s': State, pick: Candidate)
    requires Placed(s) && v !in s.calls && Lingering(s, v)
    ensures Leads(Apply(s, OnCreate(v, StartCreate(req))), Overtaking(s, v), s', true)
    ensures v in s'.calls && s'.calls[v] == Recorded(req, pick) && Hosts(pick.drive, v) && Nowhere(s', v)
  {
    LingeringHolder(s, v);
    var s2;
    s2, pick := ListingOvertaken(s, v, req);
    s' := AbortingRuns(s2, v, req, pick, s.volumes[v]);
    LeadsStep(Apply(s, OnCreate(v, StartCreate(req))), OnCreate(v, ListDrive(s.volumes[v].driveLabel, true)),
              (if v in s.releases then [OnRelease(v, AbortRelease)] else []) + Handling(v), s', true);
  }

  lemma StrandsWhenLate(s: State, v: VolumeName, req: Request)
    requires Placed(s) && Enabled(s, OnCreate(v, StartCreate(req))) && Lingering(s, v)
    ensures Strands(s, v, req, Overtaking(s, v), OnCreate(v, AlreadyReserved))
  {
    var s', pick := OvertakingRuns(s, v, req);
    OvertakingIsCalm(s, v);
    SuccessChangesNoDrive(s', v);
  }

  lemma OvertakingIsCalm(s: State, v: VolumeName)
    requires v in s.volumes
    ensures NoMoves(Overtaking(s, v)) && SameCall(Overtaking(s, v), v)
  {
  }

  lemma SuccessChangesNoDrive(s: State, v: VolumeName)
    requires Enabled(s, OnCreate(v, AlreadyReserved)) && Nowhere(s, v)
    ensures Nowhere(Apply(s, OnCreate(v, AlreadyReserved)), v)
  {
    forall x ensures !HostedBy(Apply(s, OnCreate(v, AlreadyReserved)), v, x) {
      assert !HostedBy(s, v, x);
    }
  }

  // ---------------------------------------------------------------- exactly

  /** From any point of any run without Move: a creation that starts here can end in success with the
      volume on no drive if and only if the record is being deleted and a drive still holds it. */
  lemma SuccessIsRightExactly(es: seq<Event>, v: VolumeName, req: Request)
    requires Lawful(es)
    requires
      var s := After(Empty(), es);
      Enabled(s, OnCreate(v, StartCreate(req))) && Disciplined(s, OnCreate(v, StartCreate(req)))
    ensures
      var s := After(Empty(), es);
      (exists more, e :: Strands(s, v, req, more, e)) <==> Lingering(s, v)
  {
    var s := After(Empty(), es);
    LawfulInOrder(es);
    if Lingering(s, v) {
      StrandsWhenLate(s, v, req);
    } else {
      forall more, e ensures !Strands(s, v, req, more, e) { NeverStrandsInTime(s, v, req, more, e); }
    }
  }
}
