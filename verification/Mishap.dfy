/** Runs that go wrong, event by event: each shows what one of the hypotheses keeps out, or where a
    property ends. */
module Mishap {
  import opened Objects
  import opened Cluster
  import opened Placement
  import opened Trace
  import opened Books
  import opened Success
  import opened Grants
  import opened Handover

  // ---------------------------------------------------------------- a volume on the only drive

  function Seen(s: State, d: DriveID): Candidate
    requires d in s.drives
  {
    Candidate(d, s.drives[d])
  }

  /** CreateVolume `v` settles on `d`, the only drive... */
  function Choosing(s: State, v: VolumeName, d: DriveID, req: Request): seq<Event>
    requires d in s.drives
  {
    [OnCreate(v, StartCreate(req))] + [OnCreate(v, ListDrive(d, true))] + [OnCreate(v, PickDrive(Seen(s, d)))]
  }

  function ChosenIn(s: State, v: VolumeName, d: DriveID, req: Request): State
    requires d in s.drives
  {
    s.(calls := s.calls[v := Chosen(req, Seen(s, d))],
       past := s.past.(asked := s.past.asked[v := req], late := s.past.late - {v}))
  }

  /** ...makes the record... */
  function RecordedIn(s: State, v: VolumeName, d: DriveID, req: Request): State
    requires d in s.drives
  {
    var s1 := ChosenIn(s, v, d, req);
    s1.(clock := s.clock + 1,
        volumes := s.volumes[v := NewRecord(req, Seen(s, d)).(version := s.clock + 1)],
        calls := s.calls[v := Recorded(req, Seen(s, d))],
        past := Recording(s1.past, v))
  }

  /** ...and reserves. */
  function PlacedIn(s: State, v: VolumeName, d: DriveID, req: Request): State
    requires d in s.drives
  {
    var s1 := RecordedIn(s, v, d, req);
    var size := SizeFor(req, s.drives[d]);
    s1.(clock := s.clock + 2,
        drives := s.drives[d := Reserve(s.drives[d], v, size, req.claim).(version := s.clock + 2)],
        calls := s.calls,
        past := Charged(s1.past, v, d, size))
  }

  ghost predicate Open(s: State, v: VolumeName, d: DriveID, req: Request) {
    && v !in s.calls && v !in s.volumes && s.drives.Keys == {d}
    && Admits(s.drives[d], req) && !Hosts(s.drives[d], v) && 0 <= s.drives[d].free
    && (v in s.past.asked ==> s.past.asked[v] == req)
  }

  predicate Sized(req: Request) {
    req.bytes.Some? && 0 <= req.bytes.value <= MAX_INT64
  }

  /** CreateVolume `v` has started, and has `pending` left to list. */
  function StartedIn(s: State, v: VolumeName, req: Request, pending: set<DriveID>, matched: set<Candidate>): State {
    s.(calls := s.calls[v := Listing(req, pending, matched)],
       past := s.past.(asked := s.past.asked[v := req], late := s.past.late - {v}))
  }

  lemma StartingLeads(s: State, v: VolumeName, req: Request)
    requires v !in s.calls && (v in s.volumes ==> !s.volumes[v].deleting)
    requires v in s.past.asked ==> s.past.asked[v] == req
    ensures Leads(s, [OnCreate(v, StartCreate(req))], StartedIn(s, v, req, s.drives.Keys, {}), Sized(req))
  {
    OneLeads(s, OnCreate(v, StartCreate(req)), StartedIn(s, v, req, s.drives.Keys, {}), Sized(req));
  }

  /** The call has listed the only drive, which matches. */
  lemma ListingLeads(s: State, v: VolumeName, d: DriveID, req: Request)
    requires Open(s, v, d, req)
    ensures Leads(s, [OnCreate(v, StartCreate(req))] + [OnCreate(v, ListDrive(d, true))],
                  StartedIn(s, v, req, {}, {Seen(s, d)}), Sized(req))
  {
    var s1, s2 := StartedIn(s, v, req, {d}, {}), StartedIn(s, v, req, {}, {Seen(s, d)});
    StartingLeads(s, v, req);
    assert {d} - {d} == {} && {} + {Seen(s, d)} == {Seen(s, d)};
    assert Listed(s1, v, s1.calls[v], d, true) == Listing(req, {}, {Seen(s, d)});
    OneLeads(s1, OnCreate(v, ListDrive(d, true)), s2, Sized(req));
    Join(s, [OnCreate(v, StartCreate(req))], s1, [OnCreate(v, ListDrive(d, true))], s2, Sized(req));
  }

  lemma PickingLeads(s: State, v: VolumeName, d: DriveID, req: Request)
    requires Open(s, v, d, req)
    ensures Leads(StartedIn(s, v, req, {}, {Seen(s, d)}), [OnCreate(v, PickDrive(Seen(s, d)))], ChosenIn(s, v, d, req), true)
  {
    OneLeads(StartedIn(s, v, req, {}, {Seen(s, d)}), OnCreate(v, PickDrive(Seen(s, d))), ChosenIn(s, v, d, req), true);
  }

  lemma ChoosingLeads(s: State, v: VolumeName, d: DriveID, req: Request)
    requires Open(s, v, d, req)
    ensures Leads(s, Choosing(s, v, d, req), ChosenIn(s, v, d, req), Sized(req))
  {
    ListingLeads(s, v, d, req);
    PickingLeads(s, v, d, req);
    Join(s, [OnCreate(v, StartCreate(req))] + [OnCreate(v, ListDrive(d, true))], StartedIn(s, v, req, {}, {Seen(s, d)}),
         [OnCreate(v, PickDrive(Seen(s, d)))], ChosenIn(s, v, d, req), Sized(req));
  }

  lemma RecordingLeads(s: State, v: VolumeName, d: DriveID, req: Request)
    requires Open(s, v, d, req)
    ensures Leads(ChosenIn(s, v, d, req), [OnCreate(v, CreateRecord)], RecordedIn(s, v, d, req), true)
  {
    OneLeads(ChosenIn(s, v, d, req), OnCreate(v, CreateRecord), RecordedIn(s, v, d, req), true);
  }

  lemma ReservingLeads(s: State, v: VolumeName, d: DriveID, req: Request)
    requires Open(s, v, d, req)
    ensures Leads(RecordedIn(s, v, d, req), [OnCreate(v, ReserveDrive)], PlacedIn(s, v, d, req), true)
  {
    assert s.calls[v := Recorded(req, Seen(s, d))] - {v} == s.calls;
    OneLeads(RecordedIn(s, v, d, req), OnCreate(v, ReserveDrive), PlacedIn(s, v, d, req), true);
  }

  function Placing(s: State, v: VolumeName, d: DriveID, req: Request): seq<Event>
    requires d in s.drives
  {
    Choosing(s, v, d, req) + [OnCreate(v, CreateRecord)] + [OnCreate(v, ReserveDrive)]
  }

  lemma PlacingLeads(s: State, v: VolumeName, d: DriveID, req: Request)
    requires Open(s, v, d, req)
    ensures Leads(s, Placing(s, v, d, req), PlacedIn(s, v, d, req), Sized(req))
  {
    ChoosingLeads(s, v, d, req);
    RecordingLeads(s, v, d, req);
    ReservingLeads(s, v, d, req);
    Join(s, Choosing(s, v, d, req), ChosenIn(s, v, d, req), [OnCreate(v, CreateRecord)], RecordedIn(s, v, d, req), Sized(req));
    Join(s, Choosing(s, v, d, req) + [OnCreate(v, CreateRecord)], RecordedIn(s, v, d, req),
         [OnCreate(v, ReserveDrive)], PlacedIn(s, v, d, req), Sized(req));
  }

  // ---------------------------------------------------------------- the first drive

  const TEN := Request(Some(10), NoClaim)

  function NewDrive(version: nat, d: DriveID, total: int): Drive {
    Drive(version, d, 0, 0, total, total, 0, Ready, false, false, [DataProtection], {})
  }

  function OneDrive(total: int): State {
    Empty().(clock := 1, drives := map[0 := NewDrive(1, 0, total)])
  }

  lemma OneDriveLeads(total: int)
    requires 0 <= total <= MAX_INT64
    ensures Leads(Empty(), [OnDrive(0, InitDrive(total, total, 0, 0))], OneDrive(total), true)
  {
    OneLeads(Empty(), OnDrive(0, InitDrive(total, total, 0, 0)), OneDrive(total), true);
  }

  // ---------------------------------------------------------------- a report on a stripped drive

  function Standing(version: nat, status: DriveStatus, fins: seq<Finalizer>, removing: set<DriveID>): State {
    Empty().(clock := version, removing := removing,
             drives := map[0 := NewDrive(version, 0, 100).(status := status, fins := fins)])
  }

  function Removing(): seq<Event> {
    [OnDrive(0, InitDrive(100, 100, 0, 0))]
    + ([OnDrive(0, MarkRemoved), OnDrive(0, StripFinalizers)]
       + [OnDrive(0, SetHealth(Lost)), OnDrive(0, SetHealth(Ready))])
  }

  lemma RemovingLeads()
    ensures Leads(Empty(), Removing(), Standing(5, Ready, [], {0}), false)
  {
    var removed, stripped, ready :=
      Standing(2, Removed, [DataProtection], {}), Standing(3, Removed, [], {0}), Standing(5, Ready, [], {0});
    OneDriveLeads(100);
    TwoLead(OneDrive(100), OnDrive(0, MarkRemoved), removed, OnDrive(0, StripFinalizers), stripped, false);
    ReportsLead();
    Join(OneDrive(100), [OnDrive(0, MarkRemoved), OnDrive(0, StripFinalizers)], stripped,
         [OnDrive(0, SetHealth(Lost)), OnDrive(0, SetHealth(Ready))], ready, false);
    Join(Empty(), Removing()[..1], OneDrive(100), Removing()[1..], ready, false);
    assert Removing() == Removing()[..1] + Removing()[1..];
  }

  lemma ReportsLead()
    ensures Leads(Standing(3, Removed, [], {0}), [OnDrive(0, SetHealth(Lost)), OnDrive(0, SetHealth(Ready))],
                  Standing(5, Ready, [], {0}), false)
  {
    TwoLead(Standing(3, Removed, [], {0}), OnDrive(0, SetHealth(Lost)), Standing(4, Lost, [], {0}),
            OnDrive(0, SetHealth(Ready)), Standing(5, Ready, [], {0}), false);
  }

  /** Without the hypothesis about reports on stripped drives, a Removed drive can hold a volume: the
      drive controller stops between stripping the finalizers and deleting the object, the device
      disappears and comes back, a volume is placed there, and Remove accepts the drive again. */
  lemma RemovedWithVolume()
    ensures
      var es := Removing() + Placing(Standing(5, Ready, [], {0}), 7, 0, TEN) + [OnDrive(0, MarkRemoved)];
      && Runs(Empty(), es)
      && 0 in After(Empty(), es).drives
      && After(Empty(), es).drives[0].status == Removed && Hosts(After(Empty(), es).drives[0], 7)
  {
    var s := Standing(5, Ready, [], {0});
    RemovingLeads();
    assert Open(s, 7, 0, TEN);
    PlacingLeads(s, 7, 0, TEN);
    Join(Empty(), Removing(), s, Placing(s, 7, 0, TEN), PlacedIn(s, 7, 0, TEN), false);
    Then(Empty(), Removing() + Placing(s, 7, 0, TEN), PlacedIn(s, 7, 0, TEN), OnDrive(0, MarkRemoved), false);
  }

  // ---------------------------------------------------------------- a retry

  /** A retried CreateVolume finds the volume on a drive. */
  lemma FindingLeads(s: State, v: VolumeName, d: DriveID, req: Request)
    requires v !in s.calls && d in s.drives && Hosts(s.drives[d], v) && (v in s.volumes ==> !s.volumes[v].deleting)
    requires v in s.past.asked ==> s.past.asked[v] == req
    ensures Leads(s, Finding(v, d, req), ChosenIn(s, v, d, req), Sized(req))
  {
    var s1 := StartedIn(s, v, req, s.drives.Keys, {});
    StartingLeads(s, v, req);
    assert Listed(s1, v, s1.calls[v], d, true) == Chosen(req, Seen(s, d));
    OneLeads(s1, OnCreate(v, ListDrive(d, true)), ChosenIn(s, v, d, req), Sized(req));
    Join(s, [OnCreate(v, StartCreate(req))], s1, [OnCreate(v, ListDrive(d, true))], ChosenIn(s, v, d, req), Sized(req));
  }

  function Finding(v: VolumeName, d: DriveID, req: Request): seq<Event> {
    [OnCreate(v, StartCreate(req))] + [OnCreate(v, ListDrive(d, true))]
  }

  // ---------------------------------------------------------------- a request without a size

  const ALL := Request(None, NoClaim)

  /** A volume takes the whole drive of 100 bytes; the device then grows to 250. */
  lemma GrowingLeads() returns (es: seq<Event>, s: State)
    ensures Leads(Empty(), es, s, false)
    ensures 7 !in s.calls && 7 in s.volumes && !s.volumes[7].deleting && s.volumes[7].claim == NoClaim
    ensures 7 in s.past.asked && s.past.asked[7] == ALL
    ensures 0 in s.drives && Hosts(s.drives[0], 7) && s.drives[0].free == 150 && s.drives[0].alloc == 100
  {
    var s0 := OneDrive(100);
    OneDriveLeads(100);
    assert Open(s0, 7, 0, ALL);
    PlacingLeads(s0, 7, 0, ALL);
    var first := [OnDrive(0, InitDrive(100, 100, 0, 0))];
    Join(Empty(), first, s0, Placing(s0, 7, 0, ALL), PlacedIn(s0, 7, 0, ALL), false);
    es := first + Placing(s0, 7, 0, ALL);
    s := PlacedIn(s0, 7, 0, ALL);
    Then(Empty(), es, s, OnDrive(0, Resync(250)), false);
    es, s := es + [OnDrive(0, Resync(250))], Apply(s, OnDrive(0, Resync(250)));
  }

  /** A request without a capacity range asks again for whatever is free: there is a run in which its
      retry answers success and leaves a volume recorded at 150 bytes on a drive with 100 set aside. */
  lemma UnsizedRetryOvercommits() returns (es: seq<Event>)
    ensures Runs(Empty(), es) && Enabled(After(Empty(), es), OnCreate(7, AlreadyReserved))
    ensures
      var s := Apply(After(Empty(), es), OnCreate(7, AlreadyReserved));
      && 0 in s.drives && 7 in s.volumes && Hosts(s.drives[0], 7)
      && s.volumes[7].driveLabel == 0 && s.volumes[7].size == 150 && s.drives[0].alloc == 100
  {
    var s;
    es, s := GrowingLeads();
    FindingLeads(s, 7, 0, ALL);
    var found, pick := ChosenIn(s, 7, 0, ALL), Seen(s, 0);
    RewritingLeads(found, 7, ALL, pick);
    var find, rewrite := Finding(7, 0, ALL), [OnCreate(7, ReadRecord), OnCreate(7, RewriteRecord)];
    Join(Empty(), es, s, find, found, false);
    Join(Empty(), es + find, found, rewrite, RewrittenIn(found, 7, ALL, pick), false);
    es := es + find + rewrite;
  }

  // ---------------------------------------------------------------- a volume on a drive, by the rules

  predicate Record7(vol: Volume) {
    && vol.driveLabel == 0 && vol.fsuuid == 0 && vol.node == 0 && vol.size == 10
    && !vol.deleting && !vol.published && vol.fins == [PVProtection, PurgeProtection]
  }

  /** Volume 7 of ten bytes is on drive 0, the only one; nobody is doing anything. */
  ghost predicate Held7(s: State) {
    && s.calls == map[] && s.releases == map[] && s.moves == map[] && s.handlers == map[]
    && s.drives.Keys == {0} && s.drives[0].fsuuid == 0 && s.drives[0].node == 0 && s.drives[0].tier == 0
    && s.drives[0].fins == [DataProtection, VolumeRef(7)] && !s.drives[0].deleting
    && s.drives[0].status == Ready && 10 <= s.drives[0].free
    && 7 in s.volumes && Record7(s.volumes[7]) && 7 in s.past.asked && s.past.asked[7] == TEN
  }

  ghost predicate Settled7(s: State) {
    Held7(s) && s.drives[0].free == 990 && !s.volumes[7].staged
  }

  function Settling(): seq<Event> {
    [OnDrive(0, InitDrive(1000, 1000, 0, 0))] + Placing(OneDrive(1000), 7, 0, TEN)
  }

  lemma PlacingSettles()
    ensures Open(OneDrive(1000), 7, 0, TEN) && Settled7(PlacedIn(OneDrive(1000), 7, 0, TEN))
  {
  }

  lemma SettlingLeads() returns (s: State)
    ensures Leads(Empty(), Settling(), s, true) && Settled7(s)
  {
    PlacingSettles();
    s := PlacedIn(OneDrive(1000), 7, 0, TEN);
    OneDriveLeads(1000);
    PlacingLeads(OneDrive(1000), 7, 0, TEN);
    Join(Empty(), [OnDrive(0, InitDrive(1000, 1000, 0, 0))], OneDrive(1000), Placing(OneDrive(1000), 7, 0, TEN), s, true);
  }

  // ---------------------------------------------------------------- deletion

  function Deleting(): seq<Event> {
    [OnVolume(7, StartDelete), OnVolume(7, Unprotect)] + [OnVolume(7, DeleteRecord)]
  }

  /** The record is marked for deletion and ready for the delete handler; nothing else has changed. */
  ghost predicate Deleted7(s: State, s': State) {
    && 7 in s'.volumes && s'.volumes[7].deleting && IsReleased(s'.volumes[7])
    && s'.volumes[7].driveLabel == 0 && s'.volumes[7].size == 10 && !s'.volumes[7].published
    && s' == s.(clock := s'.clock, volumes := s'.volumes)
  }

  /** DeleteVolume runs to its end. */
  lemma DeletingLeads(s: State) returns (s': State)
    requires s.calls == map[] && 7 in s.volumes && Record7(s.volumes[7]) && !s.volumes[7].staged
    ensures Leads(s, Deleting(), s', true) && Deleted7(s, s')
  {
    var s1 := Apply(s, OnVolume(7, StartDelete));
    assert s1 == s.(calls := map[7 := DeleteRead(s.volumes[7])]);
    var s2 := Apply(s1, OnVolume(7, Unprotect));
    TwoLead(s, OnVolume(7, StartDelete), s1, OnVolume(7, Unprotect), s2, true);
    UnprotectReleases(s.volumes[7]);
    Then(s, [OnVolume(7, StartDelete), OnVolume(7, Unprotect)], s2, OnVolume(7, DeleteRecord), true);
    s' := Apply(s2, OnVolume(7, DeleteRecord));
    assert map[7 := DeleteUnprotected] - {7} == map[];
  }

  /** The delete handler reads the record and drive 0. */
  lemma ReleasingLeads(s: State) returns (s': State)
    requires 7 in s.volumes && s.volumes[7].deleting && IsReleased(s.volumes[7]) && s.volumes[7].driveLabel == 0
    requires s.releases == map[] && 0 in s.drives
    ensures Leads(s, [OnRelease(7, StartRelease), OnRelease(7, PlaceRelease)], s', true)
    ensures s' == s.(releases := map[7 := ReleasePlaced(s.volumes[7], s.drives[0])])
  {
    var s1 := s.(releases := map[7 := ReleaseRead(s.volumes[7])]);
    s' := s.(releases := map[7 := ReleasePlaced(s.volumes[7], s.drives[0])]);
    assert Apply(s, OnRelease(7, StartRelease)) == s1 && Apply(s1, OnRelease(7, PlaceRelease)) == s';
    TwoLead(s, OnRelease(7, StartRelease), s1, OnRelease(7, PlaceRelease), s', true);
  }

  /** Its last write lets the record go. */
  lemma PurgingLeads(s: State) returns (s': State)
    requires 7 in s.volumes && s.volumes[7].deleting && IsReleased(s.volumes[7])
    requires s.releases == map[7 := Credited(s.volumes[7])]
    ensures Leads(s, [OnRelease(7, Purge)], s', true)
    ensures 7 !in s'.volumes && s'.drives == s.drives && s'.handlers == s.handlers
  {
    var vol := s.volumes[7];
    assert vol.fins[..0] == [] && WithoutFinalizer([], PurgeProtection) == [];
    assert WithoutFinalizer(vol.fins, PurgeProtection) == WithoutFinalizer(vol.fins[..0], PurgeProtection) + [];
    s' := Apply(s, OnRelease(7, Purge));
    OneLeads(s, OnRelease(7, Purge), s', true);
  }

  // ---------------------------------------------------------------- a creation that begins too early

  lemma EarlyCreation(es: seq<Event>, s: State)
    requires Lawful(es) && After(Empty(), es) == s && 7 !in s.calls && Lingering(s, 7)
    ensures Strands(s, 7, TEN, Overtaking(s, 7), OnCreate(7, AlreadyReserved))
  {
    LawfulInOrder(es);
    StrandsWhenLate(s, 7, TEN);
  }

  lemma NoMovesYet()
    ensures NoMoves(Settling() + Deleting())
  {
  }

  lemma DeletedLeads() returns (s: State)
    ensures Leads(Empty(), Settling() + Deleting(), s, true)
    ensures 7 !in s.calls && Lingering(s, 7) && 7 in s.past.asked && s.past.asked[7] == TEN
  {
    var s0 := SettlingLeads();
    s := DeletingLeads(s0);
    Join(Empty(), Settling(), s0, Deleting(), s, true);
    assert Hosts(s.drives[0], 7);
  }

  /** A lawful run in which CreateVolume answers success and the volume is on no drive. */
  lemma SuccessWithoutDrive() returns (es: seq<Event>, more: seq<Event>)
    ensures Lawful(es) && Enabled(After(Empty(), es), OnCreate(7, StartCreate(TEN)))
    ensures Disciplined(After(Empty(), es), OnCreate(7, StartCreate(TEN)))
    ensures Strands(After(Empty(), es), 7, TEN, more, OnCreate(7, AlreadyReserved))
  {
    var s := DeletedLeads();
    NoMovesYet();
    es, more := Settling() + Deleting(), Overtaking(s, 7);
    EarlyCreation(es, s);
  }

  // ---------------------------------------------------------------- an expansion before the reservation

  /** A record of ten bytes names drive 0, which does not hold the volume: CreateVolume stopped
      between its two writes. */
  ghost predicate Unreserved(s: State) {
    && s.calls == map[] && s.drives == map[0 := NewDrive(1, 0, 1000)]
    && 7 in s.volumes && s.volumes[7].driveLabel == 0 && s.volumes[7].size == 10 && !s.volumes[7].deleting
    && 7 in s.past.asked && s.past.asked[7] == TEN
  }

  function Recordless(): seq<Event> {
    [OnDrive(0, InitDrive(1000, 1000, 0, 0))] + Choosing(OneDrive(1000), 7, 0, TEN) + [OnCreate(7, CreateRecord)]
  }

  lemma RecordedLeads()
    ensures Leads(Empty(), Recordless(), RecordedIn(OneDrive(1000), 7, 0, TEN), true)
  {
    var s0 := OneDrive(1000);
    OneDriveLeads(1000);
    assert Open(s0, 7, 0, TEN);
    ChoosingLeads(s0, 7, 0, TEN);
    RecordingLeads(s0, 7, 0, TEN);
    var first, choose := [OnDrive(0, InitDrive(1000, 1000, 0, 0))], Choosing(s0, 7, 0, TEN);
    Join(Empty(), first, s0, choose, ChosenIn(s0, 7, 0, TEN), true);
    Join(Empty(), first + choose, ChosenIn(s0, 7, 0, TEN), [OnCreate(7, CreateRecord)], RecordedIn(s0, 7, 0, TEN), true);
  }

  lemma AbortLeads() returns (s: State)
    ensures Leads(RecordedIn(OneDrive(1000), 7, 0, TEN), [OnVolume(7, Abort)], s, true) && Unreserved(s)
  {
    var s0 := RecordedIn(OneDrive(1000), 7, 0, TEN);
    s := Apply(s0, OnVolume(7, Abort));
    OneLeads(s0, OnVolume(7, Abort), s, true);
    assert map[7 := Recorded(TEN, Seen(OneDrive(1000), 0))] - {7} == map[];
  }

  function Asking(): seq<Event> {
    [OnVolume(7, StartExpand(200)), OnVolume(7, PlaceExpand)]
  }

  /** An expansion to two hundred bytes is about to be granted all the same. */
  lemma AskingLeads(s: State) returns (s': State)
    requires Unreserved(s)
    ensures Leads(s, Asking(), s', true)
    ensures Enabled(s', OnVolume(7, GrantExpand)) && Premature(s', 7)
  {
    var s1 := Apply(s, OnVolume(7, StartExpand(200)));
    assert s1.calls[7] == ExpandRead(200, s.volumes[7]);
    s' := Apply(s1, OnVolume(7, PlaceExpand));
    assert s'.calls[7] == ExpandPlaced(200, s.volumes[7], s.drives[0]);
    TwoLead(s, OnVolume(7, StartExpand(200)), s1, OnVolume(7, PlaceExpand), s', true);
  }

  lemma NoMovesAsking()
    ensures NoMoves(Recordless() + [OnVolume(7, Abort)] + Asking())
  {
  }

  /** A lawful run up to the grant of an expansion, after which the volume can outgrow its drive: what was
      cut off between its two writes is expanded before it is reserved. */
  lemma ExpansionBeforeReservation() returns (es: seq<Event>, more: seq<Event>)
    ensures Lawful(es) && Enabled(After(Empty(), es), OnVolume(7, GrantExpand))
    ensures Outgrows(Apply(After(Empty(), es), OnVolume(7, GrantExpand)), more, 7)
  {
    RecordedLeads();
    var s0 := AbortLeads();
    var s := AskingLeads(s0);
    Join(Empty(), Recordless(), RecordedIn(OneDrive(1000), 7, 0, TEN), [OnVolume(7, Abort)], s0, true);
    Join(Empty(), Recordless() + [OnVolume(7, Abort)], s0, Asking(), s, true);
    NoMovesAsking();
    es := Recordless() + [OnVolume(7, Abort)] + Asking();
    GrantIsSafeExactly(es, 7);
    more :| Outgrows(Apply(s, OnVolume(7, GrantExpand)), more, 7);
  }

  // ---------------------------------------------------------------- a Move that has landed

  /** Drive 1 is empty and cordoned, drive 0 is cordoned and holds volume 7. */
  ghost predicate Cordoned(s: State) {
    && s.calls == map[] && s.releases == map[] && s.handlers == map[]
    && 7 in s.volumes && Record7(s.volumes[7]) && 7 in s.past.asked && s.past.asked[7] == TEN
    && 0 in s.drives && s.drives[0].cordoned && s.drives[0].fins == [DataProtection, VolumeRef(7)] && s.drives[0].fsuuid == 0
    && s.drives[0].node == 0 && s.drives[0].tier == 0 && !s.drives[0].deleting
    && s.drives[0].status == Ready && 10 <= s.drives[0].free
    && 1 in s.drives && s.drives[1] == NewDrive(s.drives[1].version, 1, 5000).(cordoned := true)
  }

  function Cordoning(): seq<Event> {
    [OnDrive(1, InitDrive(5000, 5000, 0, 0))] + [OnDrive(0, Cordon(true)), OnDrive(1, Cordon(true))]
  }

  lemma CordoningLeads(s: State) returns (s': State)
    requires Held7(s)
    ensures Leads(s, Cordoning(), s', true) && Cordoned(s') && s'.moves == map[]
    ensures s'.volumes == s.volumes && s'.past == s.past
  {
    var s1 := Apply(s, OnDrive(1, InitDrive(5000, 5000, 0, 0)));
    var s2 := Apply(s1, OnDrive(0, Cordon(true)));
    s' := Apply(s2, OnDrive(1, Cordon(true)));
    OneLeads(s, OnDrive(1, InitDrive(5000, 5000, 0, 0)), s1, true);
    TwoLead(s1, OnDrive(0, Cordon(true)), s2, OnDrive(1, Cordon(true)), s', true);
    Join(s, [OnDrive(1, InitDrive(5000, 5000, 0, 0))], s1, [OnDrive(0, Cordon(true)), OnDrive(1, Cordon(true))], s', true);
  }

  lemma OneVolume()
    ensures VolumesOf([DataProtection, VolumeRef(7)]) == [7]
    ensures Required([Moved(7, 10)]) == 10
  {
    assert [DataProtection, VolumeRef(7)][..1] == [DataProtection] && [DataProtection][..0] == [];
    assert VolumesOf([DataProtection]) == [];
    assert [Moved(7, 10)][..0] == [];
  }

  function Gathered(drive: Drive, src: DriveID): MoveCall {
    Gathering(src, drive, [], [Moved(7, 10)])
  }

  /** Move `m` out of `src`, which holds just volume 7, gathers it. */
  lemma GatheringLeads(s: State, m: nat, src: DriveID) returns (s': State)
    requires m !in s.moves && src in s.drives && s.drives[src].cordoned && s.drives[src].fins == [DataProtection, VolumeRef(7)]
    requires 7 in s.volumes && s.volumes[7].size == 10 && !s.volumes[7].published
    ensures Leads(s, [OnMove(m, StartMove(src)), OnMove(m, GatherVolume)], s', true)
    ensures s' == s.(moves := s.moves[m := Gathered(s.drives[src], src)])
  {
    OneVolume();
    var s1 := s.(moves := s.moves[m := Gathering(src, s.drives[src], [7], [])]);
    s' := s.(moves := s.moves[m := Gathered(s.drives[src], src)]);
    assert Apply(s, OnMove(m, StartMove(src))) == s1;
    assert [7][1..] == [] && [] + [Moved(7, 10)] == [Moved(7, 10)];
    TwoLead(s, OnMove(m, StartMove(src)), s1, OnMove(m, GatherVolume), s', true);
  }

  lemma TakenInOne(drive: Drive)
    ensures TakeIn(drive, [Moved(7, 10)]) ==
            if Hosts(drive, 7) then drive
            else drive.(fins := drive.fins + [VolumeRef(7)], free := drive.free - 10, alloc := drive.alloc + 10)
  {
    assert [Moved(7, 10)][..0] == [];
  }

  function Landing(m: nat, dst: DriveID): seq<Event> {
    [OnMove(m, AimMove(dst)), OnMove(m, LandMove)]
  }

  /** A cordoned drive that does not hold the volume. */
  predicate Waits(s: State, dst: DriveID) {
    && dst in s.drives && s.drives[dst].node == 0 && s.drives[dst].tier == 0 && !s.drives[dst].deleting
    && s.drives[dst].cordoned && s.drives[dst].status == Ready && 10 <= s.drives[dst].free
    && s.drives[dst].fins == [DataProtection]
  }

  /** It lands on `dst`. */
  lemma LandingLeads(s: State, m: nat, src: DriveID, source: Drive, dst: DriveID) returns (s': State)
    requires m in s.moves && s.moves[m] == Gathered(source, src) && source.node == 0 && source.tier == 0
    requires src != dst && Waits(s, dst)
    ensures Leads(s, Landing(m, dst), s', true)
    ensures s'.drives == s.drives[dst := s.drives[dst].(version := s.clock + 1, status := Moving,
              fins := [DataProtection, VolumeRef(7)], free := s.drives[dst].free - 10, alloc := s.drives[dst].alloc + 10)]
    ensures s' == s.(clock := s'.clock, drives := s'.drives, moves := s.moves[m := Landed(src, source, [Moved(7, 10)], dst)],
                     past := s'.past)
    ensures s'.past.asked == s.past.asked && s'.past.ledger == s.past.ledger
  {
    OneVolume();
    TakenInOne(s.drives[dst]);
    assert [DataProtection] + [VolumeRef(7)] == [DataProtection, VolumeRef(7)];
    var s1 := s.(moves := s.moves[m := Aiming(src, source, [Moved(7, 10)], dst, s.drives[dst])]);
    assert Apply(s, OnMove(m, AimMove(dst))) == s1;
    s' := Apply(s1, OnMove(m, LandMove));
    TwoLead(s, OnMove(m, AimMove(dst)), s1, OnMove(m, LandMove), s', true);
  }

  /** The Move has landed on drive 1, and the record still names drive 0. */
  ghost predicate Landed7(s: State) {
    && s.calls == map[] && s.releases == map[] && s.handlers == map[]
    && 7 in s.volumes && Record7(s.volumes[7]) && 7 in s.past.asked && s.past.asked[7] == TEN
    && 0 in s.drives && s.drives[0].cordoned && s.drives[0].fins == [DataProtection, VolumeRef(7)] && s.drives[0].fsuuid == 0
    && s.drives[0].node == 0 && s.drives[0].tier == 0 && !s.drives[0].deleting
    && s.drives[0].status == Ready && 10 <= s.drives[0].free
    && 1 in s.drives && s.drives[1].fsuuid == 1 && s.drives[1].node == 0 && s.drives[1].tier == 0 && s.drives[1].cordoned
    && s.drives[1].fins == [DataProtection, VolumeRef(7)] && s.drives[1].status == Moving && s.drives[1].alloc == 10
    && s.moves == map[0 := Landed(0, s.drives[0], [Moved(7, 10)], 1)]
  }

  function Moving7(): seq<Event> {
    Cordoning() + ([OnMove(0, StartMove(0)), OnMove(0, GatherVolume)] + Landing(0, 1))
  }

  lemma HasLanded7(s: State, s': State)
    requires Cordoned(s) && s.moves == map[]
    requires s' == s.(clock := s'.clock, drives := s'.drives, past := s'.past,
                      moves := map[0 := Landed(0, s.drives[0], [Moved(7, 10)], 1)])
    requires s'.past.asked == s.past.asked
    requires s'.drives == s.drives[1 := s.drives[1].(version := s.clock + 1, status := Moving,
               fins := [DataProtection, VolumeRef(7)], free := s.drives[1].free - 10, alloc := s.drives[1].alloc + 10)]
    ensures Landed7(s')
  {
  }

  lemma OutOfCordoned(s: State) returns (s': State)
    requires Cordoned(s) && s.moves == map[]
    ensures Leads(s, [OnMove(0, StartMove(0)), OnMove(0, GatherVolume)] + Landing(0, 1), s', true) && Landed7(s')
    ensures s'.volumes == s.volumes && s'.past.ledger == s.past.ledger
  {
    var s1 := GatheringLeads(s, 0, 0);
    s' := LandingLeads(s1, 0, 0, s.drives[0], 1);
    assert s'.moves == map[0 := Landed(0, s.drives[0], [Moved(7, 10)], 1)];
    HasLanded7(s, s');
    Join(s, [OnMove(0, StartMove(0)), OnMove(0, GatherVolume)], s1, Landing(0, 1), s', true);
  }

  lemma MovingLeads(s: State) returns (s': State)
    requires Held7(s)
    ensures Leads(s, Moving7(), s', true) && Landed7(s')
    ensures s'.volumes == s.volumes && s'.past.ledger == s.past.ledger
  {
    var s1 := CordoningLeads(s);
    s' := OutOfCordoned(s1);
    Join(s, Cordoning(), s1, [OnMove(0, StartMove(0)), OnMove(0, GatherVolume)] + Landing(0, 1), s', true);
  }

  lemma LandedLeads() returns (s: State)
    ensures Leads(Empty(), Settling() + Moving7(), s, true) && Landed7(s) && !s.volumes[7].staged
  {
    var s0 := SettlingLeads();
    s := MovingLeads(s0);
    Join(Empty(), Settling(), s0, Moving7(), s, true);
  }

  // ---------------------------------------------------------------- a Move with an expansion pending

  /** Volume 7 has been granted two hundred bytes and is staged. */
  lemma GrantedLeads(s: State) returns (s': State)
    requires Settled7(s)
    ensures Leads(s, Asking() + [OnVolume(7, GrantExpand), OnVolume(7, EditVolume(true, false))], s', true)
    ensures Held7(s') && s'.volumes[7].staged && 200 <= EntryOf(s'.past, 7).granted
  {
    var s1 := Apply(s, OnVolume(7, StartExpand(200)));
    assert s1 == s.(calls := map[7 := ExpandRead(200, s.volumes[7])]);
    var s2 := Apply(s1, OnVolume(7, PlaceExpand));
    TwoLead(s, OnVolume(7, StartExpand(200)), s1, OnVolume(7, PlaceExpand), s2, true);
    assert s2 == s.(calls := map[7 := ExpandPlaced(200, s.volumes[7], s.drives[0])]);
    s' := GrantAndStage(s, s2);
    Join(s, Asking(), s2, [OnVolume(7, GrantExpand), OnVolume(7, EditVolume(true, false))], s', true);
  }

  lemma GrantAndStage(s: State, s2: State) returns (s': State)
    requires Settled7(s) && s2 == s.(calls := map[7 := ExpandPlaced(200, s.volumes[7], s.drives[0])])
    ensures Leads(s2, [OnVolume(7, GrantExpand), OnVolume(7, EditVolume(true, false))], s', true)
    ensures Held7(s') && s'.volumes[7].staged && 200 <= EntryOf(s'.past, 7).granted
  {
    assert map[7 := ExpandPlaced(200, s.volumes[7], s.drives[0])] - {7} == map[];
    var s3 := Apply(s2, OnVolume(7, GrantExpand));
    s' := Apply(s3, OnVolume(7, EditVolume(true, false)));
    TwoLead(s2, OnVolume(7, GrantExpand), s3, OnVolume(7, EditVolume(true, false)), s', true);
  }

  /** The node grows the volume to what was granted. */
  lemma GrowingOut(s: State) returns (es: seq<Event>, s': State)
    requires Landed7(s) && s.volumes[7].staged && 200 <= EntryOf(s.past, 7).granted
    ensures Leads(s, es, s', true) && s'.drives == s.drives && 7 in s'.volumes && s'.volumes[7].size == 200
  {
    var s1 := Apply(s, OnVolume(7, StartGrow(200)));
    assert s1.calls[7] == GrowRead(200, s.volumes[7]);
    OneLeads(s, OnVolume(7, StartGrow(200)), s1, true);
    var grow;
    grow, s' := QuotaAndRecord(s1, 7, 200);
    Join(s, [OnVolume(7, StartGrow(200))], s1, grow, s', true);
    es := [OnVolume(7, StartGrow(200))] + grow;
  }

  /** A run within all hypotheses: an expansion is granted, then a Move carries the volume to drive 1 at its
      recorded ten bytes, then the node grows it to the granted two hundred. */
  lemma MoveForgetsGrant() returns (es: seq<Event>)
    ensures Runs(Empty(), es) && DisciplinedRun(Empty(), es)
    ensures
      var s := After(Empty(), es);
      && 1 in s.drives && s.drives[1].fins == [DataProtection, VolumeRef(7)] && s.drives[1].alloc == 10
      && 7 in s.volumes && s.volumes[7].size == 200
  {
    var grant := Asking() + [OnVolume(7, GrantExpand), OnVolume(7, EditVolume(true, false))];
    var s0 := SettlingLeads();
    var s1 := GrantedLeads(s0);
    var s2 := MovingLeads(s1);
    var grow, s3 := GrowingOut(s2);
    Join(Empty(), Settling(), s0, grant, s1, true);
    Join(Empty(), Settling() + grant, s1, Moving7(), s2, true);
    Join(Empty(), Settling() + grant + Moving7(), s2, grow, s3, true);
    es := Settling() + grant + Moving7() + grow;
  }

  // ---------------------------------------------------------------- a Move and a release

  /** The destination is left with a volume that has no record, which its handler cannot get past. */
  ghost predicate Orphaned(s: State) {
    && 7 !in s.volumes && 1 in s.drives && s.drives[1].status == Moving
    && s.drives[1].fins == [DataProtection, VolumeRef(7)]
  }

  lemma CreditAndPurge(s: State) returns (s': State)
    requires 7 in s.volumes && s.volumes[7].deleting && IsReleased(s.volumes[7]) && s.volumes[7].driveLabel == 0
    requires 0 in s.drives && Hosts(s.drives[0], 7) && s.releases == map[7 := ReleasePlaced(s.volumes[7], s.drives[0])]
    requires 1 in s.drives
    ensures Leads(s, [OnRelease(7, Credit)] + [OnRelease(7, Purge)], s', true)
    ensures 7 !in s'.volumes && 1 in s'.drives && s'.drives[1] == s.drives[1]
  {
    var s1 := Apply(s, OnRelease(7, Credit));
    OneLeads(s, OnRelease(7, Credit), s1, true);
    s' := PurgingLeads(s1);
    Join(s, [OnRelease(7, Credit)], s1, [OnRelease(7, Purge)], s', true);
  }

  /** A run within all hypotheses, with one Move: the volume is deleted after the Move has landed, the
      release credits the source its record still names, and the record vanishes while the destination
      holds the volume. */
  lemma ReleaseMissesDestination() returns (es: seq<Event>)
    ensures Runs(Empty(), es) && DisciplinedRun(Empty(), es) && Orphaned(After(Empty(), es))
  {
    var s0 := LandedLeads();
    var s1 := DeletingLeads(s0);
    var s2 := ReleasingLeads(s1);
    var s3 := CreditAndPurge(s2);
    es := Settling() + Moving7();
    Join(Empty(), es, s0, Deleting(), s1, true);
    es := es + Deleting();
    Join(Empty(), es, s1, [OnRelease(7, StartRelease), OnRelease(7, PlaceRelease)], s2, true);
    es := es + [OnRelease(7, StartRelease), OnRelease(7, PlaceRelease)];
    Join(Empty(), es, s2, [OnRelease(7, Credit)] + [OnRelease(7, Purge)], s3, true);
    es := es + ([OnRelease(7, Credit)] + [OnRelease(7, Purge)]);
  }

  /** And from there, a handler of the destination that has begun can do nothing but stop. */
  lemma OrphanBlocks(s: State, e: HandlerStep)
    requires Orphaned(s) && 1 in s.handlers && s.handlers[1] == Walking(s.drives[1], 0) && HandlerEnabled(s, 1, e)
    ensures e.Refresh? || e.AbortHandler?
  {
    OneVolume();
  }

  /** The Move finishes, so the source no longer holds the volume its record names it for. */
  lemma ResettingLeads(s: State) returns (s': State)
    requires Landed7(s)
    ensures Leads(s, [OnMove(0, ResetSource)], s', true) && Waits(s', 0)
    ensures s' == s.(clock := s'.clock, drives := s.drives[0 := s'.drives[0]], moves := map[])
  {
    s' := Apply(s, OnMove(0, ResetSource));
    OneLeads(s, OnMove(0, ResetSource), s', true);
    assert map[0 := Landed(0, s.drives[0], [Moved(7, 10)], 1)] - {0} == map[];
  }

  /** The release finds nothing to credit. */
  lemma SkippingLeads(s: State) returns (s': State)
    requires 7 in s.volumes && 0 in s.drives && s.drives[0].fins == [DataProtection]
    requires s.releases == map[7 := ReleasePlaced(s.volumes[7], s.drives[0])]
    ensures Leads(s, [OnRelease(7, SkipCredit)], s', true) && s' == s.(releases := map[7 := Credited(s.volumes[7])])
  {
    s' := s.(releases := map[7 := Credited(s.volumes[7])]);
    OneLeads(s, OnRelease(7, SkipCredit), s', true);
  }

  function FirstHalf(): seq<Event> {
    [OnMove(0, ResetSource)] + Deleting() + [OnRelease(7, StartRelease), OnRelease(7, PlaceRelease)] + [OnRelease(7, SkipCredit)]
  }

  /** Up to the last write of the release. */
  lemma HalfReleased(s: State) returns (s': State)
    requires Landed7(s) && !s.volumes[7].staged
    ensures Leads(s, FirstHalf(), s', true) && Waits(s', 0)
    ensures s'.moves == map[] && s'.drives == s.drives[0 := s'.drives[0]]
    ensures 7 in s'.volumes && s'.volumes[7].deleting && IsReleased(s'.volumes[7]) && s'.volumes[7].driveLabel == 0
    ensures s'.volumes[7].size == 10 && !s'.volumes[7].published && s'.releases == map[7 := Credited(s'.volumes[7])]
  {
    var s1 := ResettingLeads(s);
    var s2 := DeletingLeads(s1);
    var s3 := ReleasingLeads(s2);
    s' := SkippingLeads(s3);
    Join(s, [OnMove(0, ResetSource)], s1, Deleting(), s2, true);
    Join(s, [OnMove(0, ResetSource)] + Deleting(), s2, [OnRelease(7, StartRelease), OnRelease(7, PlaceRelease)], s3, true);
    Join(s, [OnMove(0, ResetSource)] + Deleting() + [OnRelease(7, StartRelease), OnRelease(7, PlaceRelease)], s3,
         [OnRelease(7, SkipCredit)], s', true);
  }

  function SecondHalf(): seq<Event> {
    [OnMove(1, StartMove(1)), OnMove(1, GatherVolume)] + Landing(1, 0)
  }

  /** A second Move brings the volume back before it. */
  lemma MovedBack(s: State) returns (s': State)
    requires Waits(s, 0) && s.moves == map[] && 1 in s.drives && s.drives[1].cordoned
    requires s.drives[1].fins == [DataProtection, VolumeRef(7)] && s.drives[1].node == 0 && s.drives[1].tier == 0
    requires 7 in s.volumes && s.volumes[7].deleting && IsReleased(s.volumes[7]) && s.volumes[7].driveLabel == 0
    requires s.volumes[7].size == 10 && !s.volumes[7].published && s.releases == map[7 := Credited(s.volumes[7])]
    ensures Leads(s, SecondHalf(), s', true)
    ensures s'.volumes == s.volumes && s'.releases == s.releases && HostedBy(s', 7, 0)
  {
    var s1 := GatheringLeads(s, 1, 1);
    s' := LandingLeads(s1, 1, 1, s.drives[1], 0);
    Join(s, [OnMove(1, StartMove(1)), OnMove(1, GatherVolume)], s1, Landing(1, 0), s', true);
  }

  /** A run within all hypotheses, with two Moves: a volume comes back to the drive its terminating record
      names after the release has read that drive, and the record vanishes while that drive holds it. */
  lemma ReleaseOvertakenByMove() returns (es: seq<Event>)
    ensures Runs(Empty(), es) && Runs(Empty(), es + [OnRelease(7, Purge)]) && DisciplinedRun(Empty(), es + [OnRelease(7, Purge)])
    ensures
      var s, s' := After(Empty(), es), After(Empty(), es + [OnRelease(7, Purge)]);
      7 in s.volumes && s.volumes[7].driveLabel == 0 && 7 !in s'.volumes && HostedBy(s', 7, 0)
  {
    var s0 := LandedLeads();
    var s1 := HalfReleased(s0);
    var s2 := MovedBack(s1);
    var s3 := PurgingLeads(s2);
    es := Settling() + Moving7() + FirstHalf();
    Join(Empty(), Settling() + Moving7(), s0, FirstHalf(), s1, true);
    Join(Empty(), es, s1, SecondHalf(), s2, true);
    es := es + SecondHalf();
    Join(Empty(), es, s2, [OnRelease(7, Purge)], s3, true);
  }

  // ---------------------------------------------------------------- around the handler

  /** A lawful run that goes around the move handler: a Moving drive is reported Lost and then Ready,
      and is Ready with a listed volume whose record names another drive. */
  lemma ReadyAroundHandler() returns (es: seq<Event>)
    ensures Runs(Empty(), es) && DisciplinedRun(Empty(), es)
    ensures
      var s := After(Empty(), es);
      && 1 in s.drives && s.drives[1].status == Ready && Hosts(s.drives[1], 7)
      && 7 in s.volumes && s.volumes[7].driveLabel == 0
  {
    var s := LandedLeads();
    var lost, ready := OnDrive(1, SetHealth(Lost)), OnDrive(1, SetHealth(Ready));
    var s1 := Apply(s, lost);
    TwoLead(s, lost, s1, ready, Apply(s1, ready), true);
    Join(Empty(), Settling() + Moving7(), s, [lost, ready], Apply(s1, ready), true);
    es := Settling() + Moving7() + [lost, ready];
  }

  // ---------------------------------------------------------------- a retry behind the handler's back

  /** The handler of drive 1 starts on a fresh copy... */
  lemma HandlerLeads(s: State) returns (s': State)
    requires s.handlers == map[] && 1 in s.drives && s.drives[1].status == Moving
    ensures Leads(s, [OnHandler(1, Refresh), OnHandler(1, StartHandler)], s', true)
    ensures s' == s.(caches := s.caches[1 := s.drives[1]], handlers := map[1 := Walking(s.drives[1], 0)])
  {
    var s1 := s.(caches := s.caches[1 := s.drives[1]]);
    assert map[] - {1} == s.handlers;
    assert Apply(s, OnHandler(1, Refresh)) == s1;
    s' := s1.(handlers := map[1 := Walking(s.drives[1], 0)]);
    TwoLead(s, OnHandler(1, Refresh), s1, OnHandler(1, StartHandler), s', true);
  }

  /** ...and points the record at it. */
  lemma PointingLeads(s: State) returns (s': State)
    requires 1 in s.drives && s.drives[1].fins == [DataProtection, VolumeRef(7)] && s.drives[1].fsuuid == 1 && s.drives[1].node == 0
    requires s.handlers == map[1 := Walking(s.drives[1], 0)] && 7 in s.volumes && Record7(s.volumes[7])
    ensures Leads(s, [OnHandler(1, ReadVolume)] + [OnHandler(1, PointVolume)], s', true)
    ensures s'.calls == s.calls && s'.drives == s.drives && s'.handlers == map[1 := Walking(s.drives[1], 1)]
    ensures 7 in s'.volumes && !s'.volumes[7].deleting && Points(s', 7, 1)
  {
    OneVolume();
    var s1 := s.(handlers := map[1 := Repointing(s.drives[1], 0, s.volumes[7])]);
    assert Apply(s, OnHandler(1, ReadVolume)) == s1;
    OneLeads(s, OnHandler(1, ReadVolume), s1, true);
    s' := PointedLeads(s1, s.volumes[7]);
    Join(s, [OnHandler(1, ReadVolume)], s1, [OnHandler(1, PointVolume)], s', true);
  }

  lemma PointedLeads(s: State, vol: Volume) returns (s': State)
    requires 1 in s.drives && s.drives[1].fins == [DataProtection, VolumeRef(7)] && s.drives[1].fsuuid == 1
    requires 7 in s.volumes && s.volumes[7] == vol && !vol.deleting && s.handlers == map[1 := Repointing(s.drives[1], 0, vol)]
    ensures Leads(s, [OnHandler(1, PointVolume)], s', true)
    ensures s'.calls == s.calls && s'.drives == s.drives && s'.handlers == map[1 := Walking(s.drives[1], 1)]
    ensures 7 in s'.volumes && !s'.volumes[7].deleting && Points(s', 7, 1)
  {
    OneVolume();
    s' := Apply(s, OnHandler(1, PointVolume));
    OneLeads(s, OnHandler(1, PointVolume), s', true);
  }

  lemma RetryAfterPointing(s: State, pick: Candidate) returns (s': State)
    requires s.calls == map[7 := Chosen(TEN, pick)] && pick.id == 0
    requires 7 in s.volumes && !s.volumes[7].deleting
    requires 1 in s.drives && s.drives[1].fins == [DataProtection, VolumeRef(7)]
    requires s.handlers == map[1 := Walking(s.drives[1], 1)]
    ensures Leads(s, [OnCreate(7, ReadRecord), OnCreate(7, RewriteRecord)], s', true)
    ensures Enabled(s', OnHandler(1, MarkReady)) && s'.drives == s.drives
    ensures 7 in s'.volumes && s'.volumes[7].driveLabel == 0
  {
    OneVolume();
    RewritingLeads(s, 7, TEN, pick);
    s' := RewrittenIn(s, 7, TEN, pick);
  }

  /** A lawful run with one Move only: a retried CreateVolume, which found the volume on the source,
      labels the record back behind the handler, and the drive turns Ready all the same. */
  lemma RetryBehindHandler() returns (es: seq<Event>)
    ensures Runs(Empty(), es) && DisciplinedRun(Empty(), es)
    ensures Enabled(After(Empty(), es), OnHandler(1, MarkReady))
    ensures
      var s := After(Empty(), es);
      1 in s.drives && Hosts(s.drives[1], 7) && 7 in s.volumes && s.volumes[7].driveLabel == 0
  {
    var s := LandedLeads();
    FindingLeads(s, 7, 0, TEN);
    var s1 := ChosenIn(s, 7, 0, TEN);
    assert s1.calls == map[7 := Chosen(TEN, Seen(s, 0))];
    var s2 := HandlerLeads(s1);
    var s3 := PointingLeads(s2);
    var s4 := RetryAfterPointing(s3, Seen(s, 0));
    es := Settling() + Moving7();
    Join(Empty(), es, s, Finding(7, 0, TEN), s1, true);
    es := es + Finding(7, 0, TEN);
    Join(Empty(), es, s1, [OnHandler(1, Refresh), OnHandler(1, StartHandler)], s2, true);
    es := es + [OnHandler(1, Refresh), OnHandler(1, StartHandler)];
    Join(Empty(), es, s2, [OnHandler(1, ReadVolume)] + [OnHandler(1, PointVolume)], s3, true);
    es := es + ([OnHandler(1, ReadVolume)] + [OnHandler(1, PointVolume)]);
    Join(Empty(), es, s3, [OnCreate(7, ReadRecord), OnCreate(7, RewriteRecord)], s4, true);
    es := es + [OnCreate(7, ReadRecord), OnCreate(7, RewriteRecord)];
  }
}
