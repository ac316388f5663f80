/** When an expansion is safe to grant: a volume can come to outgrow what its drive has set aside for
    it exactly if the expansion was granted, beyond the requested size, to a standing record whose
    volume no drive held. */
module Grants {
  import opened Objects
  import opened Cluster
  import opened Removal
  import opened Placement
  import opened Accounting
  import opened Claims
  import opened Books
  import opened Trace

  /** From `s` the run can go on, within the hypotheses and without Move, until a drive holds the
      volume with more bytes recorded than it has set aside. */
  ghost predicate Outgrows(s: State, more: seq<Event>, v: VolumeName) {
    && Runs(s, more) && DisciplinedRun(s, more) && NoMoves(more)
    && v in After(s, more).volumes
    && exists d :: HostedBy(After(s, more), v, d) &&
                   EntryOf(After(s, more).past, v).reserved < After(s, more).volumes[v].size
  }

  /** The grant promises a standing volume that no drive holds more than was requested. */
  ghost predicate Premature(s: State, v: VolumeName)
    requires Enabled(s, OnVolume(v, GrantExpand))
  {
    v in s.volumes && !s.volumes[v].deleting && Nowhere(s, v) && Asked(s.past, v) < s.calls[v].want
  }

  // ---------------------------------------------------------------- granted in time

  lemma InTime(s: State, v: VolumeName)
    requires InOrder(s) && Enabled(s, OnVolume(v, GrantExpand)) && !Premature(s, v)
    ensures Disciplined(s, OnVolume(v, GrantExpand))
  {
    if v in s.volumes && !s.volumes[v].deleting {
      assert Recordful(s, v);
      if !Nowhere(s, v) {
        var d :| HostedBy(s, v, d);
        assert Anchored(s, v, d);
      }
    }
  }

  lemma NeverOutgrows(s: State, more: seq<Event>, v: VolumeName)
    requires InOrder(s)
    ensures !Outgrows(s, more, v)
  {
    if Outgrows(s, more, v) {
      InOrderRun(s, more);
      var d :| HostedBy(After(s, more), v, d);
      CoveredHere(After(s, more), v, d);
    }
  }

  // ---------------------------------------------------------------- granted too early

  /** The record stands, nobody holds the volume, and more than the request has been granted. */
  ghost predicate Early(s: State, v: VolumeName, req: Request, want: int) {
    && v in s.volumes && !s.volumes[v].deleting && Nowhere(s, v)
    && v in s.past.asked && s.past.asked[v] == req
    && req.bytes.Some? && 0 <= req.bytes.value <= MAX_INT64 && req.bytes.value < want
    && want <= EntryOf(s.past, v).granted
  }

  /** An empty drive with room for every request. */
  predicate Roomy(s: State, x: DriveID) {
    && x in s.drives && s.drives[x].fins == [DataProtection] && s.drives[x].status == Ready
    && !s.drives[x].cordoned && !s.drives[x].deleting && s.drives[x].claims == {} && s.drives[x].free == MAX_INT64
  }

  ghost predicate Leading(s: State, es: seq<Event>, s': State) {
    Leads(s, es, s', true) && NoMoves(es)
  }

  lemma OneLeading(s: State, e: Event)
    requires Enabled(s, e) && Disciplined(s, e) && !IsMove(e)
    ensures Leading(s, [e], Apply(s, e))
  {
    OneLeads(s, e, Apply(s, e), true);
  }

  lemma Chain(s: State, a: seq<Event>, mid: State, b: seq<Event>, s': State)
    requires Leading(s, a, mid) && Leading(mid, b, s')
    ensures Leading(s, a + b, s')
  {
    Join(s, a, mid, b, s', true);
    NoMovesJoin(a, b);
  }

  lemma GrantIsEarly(s: State, v: VolumeName)
    requires Sound(s) && Placed(s) && Coverage(s) && Enabled(s, OnVolume(v, GrantExpand)) && Premature(s, v)
    ensures Early(Apply(s, OnVolume(v, GrantExpand)), v, s.past.asked[v], s.calls[v].want)
    ensures v !in Apply(s, OnVolume(v, GrantExpand)).calls
  {
    assert Recordful(s, v);
    var e := OnVolume(v, GrantExpand);
    forall x ensures !HostedBy(Apply(s, e), v, x) { HostingChanges(s, e, v, x); }
  }

  lemma {:induction false} Above(drives: set<DriveID>) returns (x: DriveID)
    ensures forall d :: d in drives ==> d < x
    decreases |drives|
  {
    if drives == {} {
      x := 0;
    } else {
      var d :| d in drives;
      var y := Above(drives - {d});
      x := if y <= d then d + 1 else y;
      assert forall c :: c in drives ==> c == d || c in drives - {d};
    }
  }

  /** A new drive appears. */
  lemma DriveAppears(s: State, v: VolumeName, req: Request, want: int) returns (x: DriveID, es: seq<Event>, s': State)
    requires Early(s, v, req, want) && v !in s.calls
    ensures Leading(s, es, s') && Early(s', v, req, want) && Roomy(s', x) && v !in s'.calls
  {
    x := Above(s.drives.Keys);
    var e := OnDrive(x, InitDrive(MAX_INT64, MAX_INT64, 0, 0));
    s' := Apply(s, e);
    es := [e];
    OneLeading(s, e);
    assert forall y :: HostedBy(s', v, y) ==> HostedBy(s, v, y);
  }

  function ListingIn(s: State, v: VolumeName, req: Request, pending: set<DriveID>): State {
    s.(calls := s.calls[v := Listing(req, pending, {})])
  }

  lemma OtherListed(s: State, v: VolumeName, req: Request, pending: set<DriveID>, y: DriveID)
    requires y in pending && Nowhere(s, v)
    ensures Leading(ListingIn(s, v, req, pending), [OnCreate(v, ListDrive(y, false))], ListingIn(s, v, req, pending - {y}))
  {
    var s1, s2 := ListingIn(s, v, req, pending), ListingIn(s, v, req, pending - {y});
    assert !HostedBy(s, v, y);
    assert Listed(s1, v, s1.calls[v], y, false) == s2.calls[v];
    OneLeading(s1, OnCreate(v, ListDrive(y, false)));
    assert s1.calls[v := s2.calls[v]] == s2.calls;
  }

  /** CreateVolume lists the other drives, which do not match... */
  lemma {:induction false} OthersListed(s: State, v: VolumeName, req: Request, pending: set<DriveID>, x: DriveID)
    returns (es: seq<Event>)
    requires x in pending && Nowhere(s, v)
    ensures Leading(ListingIn(s, v, req, pending), es, ListingIn(s, v, req, {x}))
    decreases |pending|
  {
    if pending == {x} {
      es := [];
    } else {
      var y :| y in pending && y != x;
      OtherListed(s, v, req, pending, y);
      var rest := OthersListed(s, v, req, pending - {y}, x);
      es := [OnCreate(v, ListDrive(y, false))] + rest;
      Chain(ListingIn(s, v, req, pending), [OnCreate(v, ListDrive(y, false))], ListingIn(s, v, req, pending - {y}),
            rest, ListingIn(s, v, req, {x}));
    }
  }

  /** ...and settles on the new one. */
  lemma NewDriveChosen(s: State, v: VolumeName, req: Request, want: int, x: DriveID) returns (es: seq<Event>, s': State)
    requires Early(s, v, req, want) && Roomy(s, x) && v in s.calls && s.calls[v] == Listing(req, {x}, {})
    ensures Leading(s, es, s') && Early(s', v, req, want) && Roomy(s', x)
    ensures v in s'.calls && s'.calls[v] == Chosen(req, Candidate(x, s'.drives[x]))
  {
    var pick := Candidate(x, s.drives[x]);
    var e1, e2 := OnCreate(v, ListDrive(x, true)), OnCreate(v, PickDrive(pick));
    assert !HostedBy(s, v, x) && {x} - {x} == {} && {} + {pick} == {pick};
    var s1 := s.(calls := s.calls[v := Listing(req, {}, {pick})]);
    assert Listed(s, v, s.calls[v], x, true) == s1.calls[v];
    s' := s.(calls := s.calls[v := Chosen(req, pick)]);
    TwoLead(s, e1, s1, e2, s', true);
    es := [e1, e2];
    assert forall y :: HostedBy(s', v, y) ==> HostedBy(s, v, y);
  }

  lemma CreationStarts(s: State, v: VolumeName, req: Request, want: int, x: DriveID) returns (es: seq<Event>, s': State)
    requires Early(s, v, req, want) && Roomy(s, x) && v !in s.calls
    ensures Leading(s, es, s') && Early(s', v, req, want) && Roomy(s', x)
    ensures v in s'.calls && s'.calls[v] == Listing(req, {x}, {})
  {
    var e := OnCreate(v, StartCreate(req));
    var s1 := Apply(s, e);
    OneLeading(s, e);
    assert forall y :: HostedBy(s1, v, y) ==> HostedBy(s, v, y);
    assert s1 == ListingIn(s1, v, req, s.drives.Keys);
    var rest := OthersListed(s1, v, req, s.drives.Keys, x);
    s' := ListingIn(s1, v, req, {x});
    es := [e] + rest;
    Chain(s, [e], s1, rest, s');
    assert forall y :: HostedBy(s', v, y) ==> HostedBy(s, v, y);
  }

  /** The new drive holds the volume at the requested size, with more granted. */
  ghost predicate Overgranted(s: State, v: VolumeName, want: int, x: DriveID) {
    && v in s.volumes && !s.volumes[v].deleting && HostedBy(s, v, x)
    && s.volumes[v].size < want <= EntryOf(s.past, v).granted && EntryOf(s.past, v).reserved < want
  }

  /** It rewrites the record and reserves the drive. */
  lemma NewDriveReserved(s: State, v: VolumeName, req: Request, want: int, x: DriveID) returns (es: seq<Event>, s': State)
    requires Early(s, v, req, want) && Roomy(s, x)
    requires v in s.calls && s.calls[v] == Chosen(req, Candidate(x, s.drives[x]))
    ensures Leading(s, es, s') && Overgranted(s', v, want, x) && v !in s'.calls
  {
    var pick, e := Candidate(x, s.drives[x]), OnCreate(v, ReserveDrive);
    RewritingLeads(s, v, req, pick);
    var rewrite, s1 := [OnCreate(v, ReadRecord), OnCreate(v, RewriteRecord)], RewrittenIn(s, v, req, pick);
    assert Hosts(pick.drive, v) == HostedBy(s, v, x);
    s' := Apply(s1, e);
    OneLeading(s1, e);
    Chain(s, rewrite, s1, [e], s');
    es := rewrite + [e];
  }

  /** The node stages the volume and grows it to the granted size. */
  lemma NodeGrows(s: State, v: VolumeName, want: int, x: DriveID) returns (es: seq<Event>, s': State)
    requires Overgranted(s, v, want, x) && v !in s.calls
    ensures Leading(s, es, s') && v in s'.volumes && HostedBy(s', v, x)
    ensures EntryOf(s'.past, v).reserved < want == s'.volumes[v].size
  {
    var stage, start := OnVolume(v, EditVolume(true, false)), OnVolume(v, StartGrow(want));
    var s1 := Apply(s, stage);
    var s2 := Apply(s1, start);
    TwoLead(s, stage, s1, start, s2, true);
    var grow;
    grow, s' := QuotaAndRecord(s2, v, want);
    Chain(s, [stage, start], s2, grow, s');
    es := [stage, start] + grow;
  }

  lemma QuotaAndRecord(s: State, v: VolumeName, want: int) returns (es: seq<Event>, s': State)
    requires v in s.volumes && v in s.calls && s.calls[v] == GrowRead(want, s.volumes[v]) && !s.volumes[v].deleting
    ensures Leading(s, es, s') && s'.drives == s.drives && v !in s'.calls
    ensures v in s'.volumes && s'.volumes[v].size == want && s'.volumes[v].driveLabel == s.volumes[v].driveLabel
    ensures EntryOf(s'.past, v).reserved == EntryOf(s.past, v).reserved
  {
    var s1 := Apply(s, OnVolume(v, GrowQuota));
    assert s1.calls[v] == GrowLimited(want, s.volumes[v]);
    s' := Apply(s1, OnVolume(v, GrowRecord));
    es := [OnVolume(v, GrowQuota), OnVolume(v, GrowRecord)];
    TwoLead(s, OnVolume(v, GrowQuota), s1, OnVolume(v, GrowRecord), s', true);
  }

  lemma OutgrowsWhenEarly(s: State, v: VolumeName, req: Request, want: int) returns (es: seq<Event>)
    requires Early(s, v, req, want) && v !in s.calls
    ensures Outgrows(s, es, v)
  {
    var x, es1, s1 := DriveAppears(s, v, req, want);
    var es2, s2 := CreationStarts(s1, v, req, want, x);
    var es3, s3 := NewDriveChosen(s2, v, req, want, x);
    var es4, s4 := NewDriveReserved(s3, v, req, want, x);
    var es5, s5 := NodeGrows(s4, v, want, x);
    Chain(s, es1, s1, es2, s2);
    Chain(s, es1 + es2, s2, es3, s3);
    Chain(s, es1 + es2 + es3, s3, es4, s4);
    Chain(s, es1 + es2 + es3 + es4, s4, es5, s5);
    es := es1 + es2 + es3 + es4 + es5;
    assert HostedBy(After(s, es), v, x);
  }

  // ---------------------------------------------------------------- exactly

  lemma OutgrowsIfPremature(s: State, v: VolumeName) returns (more: seq<Event>)
    requires InOrder(s) && Enabled(s, OnVolume(v, GrantExpand)) && Premature(s, v)
    ensures Outgrows(Apply(s, OnVolume(v, GrantExpand)), more, v)
  {
    GrantIsEarly(s, v);
    more := OutgrowsWhenEarly(Apply(s, OnVolume(v, GrantExpand)), v, s.past.asked[v], s.calls[v].want);
  }

  lemma NeverIfInTime(s: State, v: VolumeName)
    requires InOrder(s) && Enabled(s, OnVolume(v, GrantExpand)) && !Premature(s, v)
    ensures forall more :: !Outgrows(Apply(s, OnVolume(v, GrantExpand)), more, v)
  {
    InTime(s, v);
    InOrderStep(s, OnVolume(v, GrantExpand));
    forall more ensures !Outgrows(Apply(s, OnVolume(v, GrantExpand)), more, v) {
      NeverOutgrows(Apply(s, OnVolume(v, GrantExpand)), more, v);
    }
  }

  /** From any point of any run without Move: once an expansion is granted here, the volume can come to be
      recorded on a drive above what is set aside for it if and only if the grant exceeds the requested
      size and is for a standing record whose volume no drive holds. */
  lemma GrantIsSafeExactly(es: seq<Event>, v: VolumeName)
    requires Lawful(es) && Enabled(After(Empty(), es), OnVolume(v, GrantExpand))
    ensures
      var s := After(Empty(), es);
      (exists more :: Outgrows(Apply(s, OnVolume(v, GrantExpand)), more, v)) <==> Premature(s, v)
  {
    LawfulInOrder(es);
    if Premature(After(Empty(), es), v) {
      var more := OutgrowsIfPremature(After(Empty(), es), v);
    } else {
      NeverIfInTime(After(Empty(), es), v);
    }
  }
}
