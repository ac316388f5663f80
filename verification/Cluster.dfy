/** DirectPV's actors as steps over a versioned API server.

    Every event is one API call of one actor (or one edit by somebody else). An actor keeps
    what it has read in `calls`, `releases`, `moves` or `handlers` between its calls, so reads may
    be stale when they are used. An Update lands only if the version read is still current and, on
    an object marked for deletion, only if it adds no finalizer; a Delete (or an Update of an object
    marked for deletion) makes an object vanish only when its finalizers are empty. Crashes,
    conflicts and errors are the Abort events, allowed anywhere. */
module Cluster {
  import opened Objects

  /** A CreateVolume request; no `bytes` means no capacity range was given. */
  datatype Request = Request(bytes: Option<int>, claim: Claim)

  /** A drive as one actor read it. */
  datatype Candidate = Candidate(id: DriveID, drive: Drive)

  /** A CSI call in flight, by what it has read so far. */
  datatype Call =
    | Listing(req: Request, pending: set<DriveID>, matched: set<Candidate>)
    | Chosen(req: Request, pick: Candidate)
    | Reusing(req: Request, pick: Candidate, vol: Volume)
    | Recorded(req: Request, pick: Candidate)
    | DeleteRead(vol: Volume)
    | DeleteUnprotected
    | ExpandRead(want: int, vol: Volume)
    | ExpandPlaced(want: int, vol: Volume, drive: Drive)
    | StageRead(vol: Volume)
    | StageLimited(vol: Volume)
    | GrowRead(want: int, vol: Volume)
    | GrowLimited(want: int, vol: Volume)

  /** The delete handler of one volume. */
  datatype ReleaseCall =
    | ReleaseRead(vol: Volume)
    | ReleasePlaced(vol: Volume, drive: Drive)
    | Credited(vol: Volume)

  datatype Moved = Moved(name: VolumeName, size: int)

  /** An administrator's Move. */
  datatype MoveCall =
    | Gathering(src: DriveID, source: Drive, todo: seq<VolumeName>, got: seq<Moved>)
    | Aiming(src: DriveID, source: Drive, got: seq<Moved>, dst: DriveID, target: Drive)
    | Landed(src: DriveID, source: Drive, got: seq<Moved>, dst: DriveID)

  /** The drive controller's move handler on its copy of a drive: `at` of the listed volumes are
      done, and the next one's record may have been read. */
  datatype HandlerCall =
    | Walking(drive: Drive, at: nat)
    | Repointing(drive: Drive, at: nat, vol: Volume)

  /** What has happened so far, kept for stating properties; no actor reads it. */
  datatype History = History(
    ledger: Ledger,
    asked: map<VolumeName, Request>,
    charges: map<VolumeName, nat>,
    credits: map<VolumeName, nat>,
    holder: map<VolumeName, DriveID>,
    late: set<VolumeName>)

  datatype State = State(
    clock: nat,
    drives: map<DriveID, Drive>,
    volumes: map<VolumeName, Volume>,
    calls: map<VolumeName, Call>,
    releases: map<VolumeName, ReleaseCall>,
    removing: set<DriveID>,
    moves: map<nat, MoveCall>,
    caches: map<DriveID, Drive>,
    handlers: map<DriveID, HandlerCall>,
    past: History)

  /** Everybody who writes a single drive: initialisation, health checks and device sync,
      cordon, Remove, and the drive controller's removal. */
  datatype DriveStep =
    | InitDrive(total: int, free: int, node: nat, tier: nat)
    | SetHealth(status: DriveStatus)
    | Resync(total: int)
    | Cordon(on: bool)
    | MarkRemoved
    | StripFinalizers
    | DeleteDrive

  /** CreateVolume, one API call at a time. */
  datatype CreateStep =
    | StartCreate(req: Request)
    | ListDrive(d: DriveID, eligible: bool)
    | PickDrive(pick: Candidate)
    | CreateRecord
    | ReadRecord
    | RewriteRecord
    | ReserveDrive
    | AlreadyReserved

  /** DeleteVolume, ControllerExpandVolume and the node calls. `Abort` ends any CSI call early. */
  datatype VolumeStep =
    | StartDelete
    | Unprotect
    | DeleteRecord
    | ExpandIdle(want: int)
    | StartExpand(want: int)
    | PlaceExpand
    | GrantExpand
    | StartStage
    | StageQuota
    | StageRecord
    | EditVolume(staged: bool, published: bool)
    | StartGrow(want: int)
    | GrowQuota
    | GrowRecord
    | Abort

  /** The delete handler. */
  datatype ReleaseStep =
    | StartRelease
    | PlaceRelease
    | Credit
    | SkipCredit
    | Purge
    | AbortRelease

  /** Move. */
  datatype MoveStep =
    | StartMove(src: DriveID)
    | GatherVolume
    | AimMove(dst: DriveID)
    | LandMove
    | ResetSource
    | AbortMove

  /** The move handler and the informer that feeds it: `Refresh` brings the controller's cached copy
      of a drive up to date. Staging a volume writes its record behind the handler's back. */
  datatype HandlerStep =
    | Refresh
    | StartHandler
    | SkipVolume
    | ReadVolume
    | StageVolume
    | PointVolume
    | MarkReady
    | AbortHandler

  /** One step of one actor. */
  datatype Event =
    | OnDrive(d: DriveID, drive: DriveStep)
    | OnCreate(v: VolumeName, create: CreateStep)
    | OnVolume(v: VolumeName, volume: VolumeStep)
    | OnRelease(v: VolumeName, release: ReleaseStep)
    | OnMove(m: nat, move: MoveStep)
    | OnHandler(d: DriveID, handler: HandlerStep)

  predicate IsMove(e: Event) {
    e.OnMove? || e.OnHandler?
  }

  // ---------------------------------------------------------------- the API server

  /** What one event writes to the store. */
  datatype Write =
    | Nothing
    | PutDrive(d: DriveID, drive: Drive)
    | PutVolume(v: VolumeName, vol: Volume)

  function DrivesAfter(s: State, w: Write): map<DriveID, Drive> {
    if !w.PutDrive? then s.drives
    else if w.drive.deleting && w.drive.fins == [] then s.drives - {w.d}
    else s.drives[w.d := w.drive.(version := s.clock + 1)]
  }

  function VolumesAfter(s: State, w: Write): map<VolumeName, Volume> {
    if !w.PutVolume? then s.volumes
    else if w.vol.deleting && w.vol.fins == [] then s.volumes - {w.v}
    else s.volumes[w.v := w.vol.(version := s.clock + 1)]
  }

  predicate DriveCurrent(s: State, d: DriveID, drive: Drive) {
    d in s.drives && s.drives[d].version == drive.version
  }

  predicate VolumeCurrent(s: State, v: VolumeName, vol: Volume) {
    v in s.volumes && s.volumes[v].version == vol.version
  }

  /** An Update of an object marked for deletion must not add finalizers. */
  predicate AddsNone<F(==)>(before: seq<F>, after: seq<F>) {
    forall i :: 0 <= i < |after| ==> after[i] in before
  }

  // ---------------------------------------------------------------- local computations

  /** The match rules that speak about state this model changes; the remaining ones
      (access tier, labels, topology) are the `eligible` flag of ListDrive. */
  predicate Admits(drive: Drive, req: Request) {
    && !drive.deleting
    && drive.status == Ready
    && !drive.cordoned
    && (req.bytes.Some? ==> req.bytes.value <= drive.free)
    && (req.claim.Claim? ==> req.claim.id !in drive.claims)
  }

  function SizeFor(req: Request, drive: Drive): int {
    if req.bytes.Some? then req.bytes.value else drive.free
  }

  function NewRecord(req: Request, pick: Candidate): Volume {
    NewVolume(pick.id, pick.drive.fsuuid, pick.drive.node, SizeFor(req, pick.drive), req.claim)
  }

  function Required(got: seq<Moved>): int {
    if got == [] then 0 else Required(got[..|got| - 1]) + got[|got| - 1].size
  }

  /** Move's loop over the gathered volumes. */
  function TakeIn(drive: Drive, got: seq<Moved>): Drive {
    if got == [] then drive
    else
      var before := TakeIn(drive, got[..|got| - 1]);
      var last := got[|got| - 1];
      if Hosts(before, last.name) then before
      else before.(fins := AddRef(before.fins, last.name),
                   free := before.free - last.size,
                   alloc := before.alloc + last.size)
  }

  // ---------------------------------------------------------------- history

  function Bump(m: map<VolumeName, nat>, v: VolumeName): map<VolumeName, nat> {
    m[v := (if v in m then m[v] else 0) + 1]
  }

  function Max(a: int, b: int): int { if a < b then b else a }

  function EntryOf(h: History, v: VolumeName): Entry {
    if v in h.ledger then h.ledger[v] else Entry(0, 0, 0)
  }

  /** A new record: nothing has been granted or asked of the filesystem for it yet. */
  function Recording(h: History, v: VolumeName): History {
    h.(ledger := h.ledger[v := Entry(0, 0, 0)])
  }

  function Charged(h: History, v: VolumeName, d: DriveID, size: int): History {
    var e := EntryOf(h, v);
    h.(ledger := h.ledger[v := e.(reserved := size, granted := Max(e.granted, size))],
       charges := Bump(h.charges, v),
       holder := h.holder[v := d])
  }

  /** Taking `v` off `d`; the volume is gone for good if `d` was its last holder. */
  function CreditedBack(h: History, v: VolumeName, d: DriveID): History {
    h.(credits := Bump(h.credits, v),
       holder := if v in h.holder && h.holder[v] == d then h.holder - {v} else h.holder)
  }

  /** A grant of `want`, with `extra` more bytes set aside for it by the drive that holds it. */
  function Granted(h: History, v: VolumeName, want: int, extra: int): History {
    var e := EntryOf(h, v);
    h.(ledger := h.ledger[v := e.(reserved := e.reserved + extra, granted := Max(e.granted, want))])
  }

  function Limited(h: History, v: VolumeName, bytes: int): History {
    var e := EntryOf(h, v);
    h.(ledger := h.ledger[v := e.(quota := Max(e.quota, bytes))])
  }

  function Names(got: seq<Moved>): set<VolumeName> {
    set i | 0 <= i < |got| :: got[i].name
  }

  function Handed(h: History, names: set<VolumeName>, d: DriveID): History {
    h.(holder := map v | v in h.holder.Keys + names :: if v in names then d else h.holder[v])
  }

  // ---------------------------------------------------------------- drive steps

  predicate DriveEnabled(s: State, d: DriveID, e: DriveStep) {
    match e
    case InitDrive(total, free, node, tier) => d !in s.drives && 0 <= free <= total <= MAX_INT64
    case SetHealth(status) =>
      && d in s.drives && status in {Ready, Lost, Error, Repairing}
      && (status == Ready ==> s.drives[d].status != Moving)
    case Resync(total) => d in s.drives && 0 <= total <= MAX_INT64
    case Cordon(on) => d in s.drives
    case MarkRemoved => d in s.drives && s.drives[d].status != Removed && VolumeCount(s.drives[d]) <= 0
    case StripFinalizers => d in s.drives && s.drives[d].status == Removed && VolumeCount(s.drives[d]) <= 0
    case DeleteDrive => d in s.removing && d in s.drives
  }

  function EditedDrive(s: State, d: DriveID, e: DriveStep): Drive
    requires DriveEnabled(s, d, e)
  {
    match e
    case InitDrive(total, free, node, tier) =>
      Drive(0, d, node, tier, total, free, 0, Ready, false, false, [DataProtection], {})
    case SetHealth(status) => s.drives[d].(status := status)
    case Resync(total) => Resize(s.drives[d], total)
    case Cordon(on) => s.drives[d].(cordoned := on)
    case MarkRemoved => s.drives[d].(status := Removed)
    case StripFinalizers => Strip(s.drives[d])
    case DeleteDrive => s.drives[d].(deleting := true)
  }

  // ---------------------------------------------------------------- CreateVolume

  predicate CreateEnabled(s: State, v: VolumeName, e: CreateStep) {
    if e.StartCreate? then v !in s.calls
    else v in s.calls && match e
      case StartCreate(req) => false
      case ListDrive(d, eligible) => s.calls[v].Listing? && d in s.calls[v].pending
      case PickDrive(pick) =>
        && s.calls[v].Listing? && s.calls[v].pending == {}
        && pick in s.calls[v].matched && -1 <= pick.drive.free
        && forall c :: c in s.calls[v].matched ==> c.drive.free <= pick.drive.free
      case CreateRecord => s.calls[v].Chosen? && v !in s.volumes
      case ReadRecord => s.calls[v].Chosen? && v in s.volumes
      case RewriteRecord =>
        && s.calls[v].Reusing? && VolumeCurrent(s, v, s.calls[v].vol)
        && (s.volumes[v].deleting ==> AddsNone(s.volumes[v].fins, NewRecord(s.calls[v].req, s.calls[v].pick).fins))
      case ReserveDrive =>
        && s.calls[v].Recorded? && !Hosts(s.calls[v].pick.drive, v)
        && DriveCurrent(s, s.calls[v].pick.id, s.calls[v].pick.drive) && !s.drives[s.calls[v].pick.id].deleting
      case AlreadyReserved => s.calls[v].Recorded? && Hosts(s.calls[v].pick.drive, v)
  }

  /** The lister hands over one more drive. */
  function Listed(s: State, v: VolumeName, call: Call, d: DriveID, eligible: bool): Call
    requires call.Listing?
  {
    if d !in s.drives then call.(pending := call.pending - {d})
    else
      var seen := Candidate(d, s.drives[d]);
      if Hosts(seen.drive, v) then Chosen(call.req, seen)
      else if eligible && Admits(seen.drive, call.req) then
        call.(pending := call.pending - {d}, matched := call.matched + {seen})
      else call.(pending := call.pending - {d})
  }

  function CreateWrite(s: State, v: VolumeName, e: CreateStep): Write
    requires CreateEnabled(s, v, e)
  {
    match e
    case CreateRecord => PutVolume(v, NewRecord(s.calls[v].req, s.calls[v].pick))
    case RewriteRecord => PutVolume(v, Reuse(s.calls[v].vol, NewRecord(s.calls[v].req, s.calls[v].pick)))
    case ReserveDrive =>
      var Recorded(req, pick) := s.calls[v];
      PutDrive(pick.id, Reserve(pick.drive, v, SizeFor(req, pick.drive), req.claim))
    case _ => Nothing
  }

  function CreateNext(s: State, v: VolumeName, e: CreateStep): Option<Call>
    requires CreateEnabled(s, v, e)
  {
    match e
    case StartCreate(req) => Some(Listing(req, s.drives.Keys, {}))
    case ListDrive(d, eligible) => Some(Listed(s, v, s.calls[v], d, eligible))
    case PickDrive(pick) => Some(Chosen(s.calls[v].req, pick))
    case CreateRecord => Some(Recorded(s.calls[v].req, s.calls[v].pick))
    case ReadRecord => Some(Reusing(s.calls[v].req, s.calls[v].pick, s.volumes[v]))
    case RewriteRecord => Some(Recorded(s.calls[v].req, s.calls[v].pick))
    case ReserveDrive => None
    case AlreadyReserved => None
  }

  // ---------------------------------------------------------------- the other CSI calls

  predicate VolumeEnabled(s: State, v: VolumeName, e: VolumeStep) {
    match e
    case StartDelete => v !in s.calls && v in s.volumes && !s.volumes[v].staged && !s.volumes[v].published
    case Unprotect => v in s.calls && s.calls[v].DeleteRead? && VolumeCurrent(s, v, s.calls[v].vol)
    case DeleteRecord => v in s.calls && s.calls[v].DeleteUnprotected? && v in s.volumes
    case ExpandIdle(want) => v !in s.calls && v in s.volumes && want <= s.volumes[v].size
    case StartExpand(want) => v !in s.calls && v in s.volumes && s.volumes[v].size < want
    case PlaceExpand => v in s.calls && s.calls[v].ExpandRead? && s.calls[v].vol.driveLabel in s.drives
    case GrantExpand =>
      && v in s.calls && s.calls[v].ExpandPlaced?
      && s.calls[v].want - s.calls[v].vol.size <= s.calls[v].drive.free
      && DriveCurrent(s, s.calls[v].vol.driveLabel, s.calls[v].drive)
    case StartStage => v !in s.calls && v in s.volumes
    case StageQuota => v in s.calls && s.calls[v].StageRead?
    case StageRecord => v in s.calls && s.calls[v].StageLimited? && VolumeCurrent(s, v, s.calls[v].vol)
    case EditVolume(staged, published) => v !in s.calls && v in s.volumes
    case StartGrow(want) => v !in s.calls && v in s.volumes && s.volumes[v].staged && s.volumes[v].size < want
    case GrowQuota => v in s.calls && s.calls[v].GrowRead?
    case GrowRecord => v in s.calls && s.calls[v].GrowLimited? && VolumeCurrent(s, v, s.calls[v].vol)
    case Abort => v in s.calls
  }

  function VolumeWrite(s: State, v: VolumeName, e: VolumeStep): Write
    requires VolumeEnabled(s, v, e)
  {
    match e
    case Unprotect =>
      var vol := s.calls[v].vol;
      PutVolume(v, vol.(fins := WithoutFinalizer(vol.fins, PVProtection)))
    case DeleteRecord => PutVolume(v, s.volumes[v].(deleting := true))
    case GrantExpand =>
      var ExpandPlaced(want, vol, drive) := s.calls[v];
      PutDrive(vol.driveLabel, Enlarge(drive, want - vol.size))
    case StageRecord => PutVolume(v, s.calls[v].vol.(staged := true))
    case EditVolume(staged, published) => PutVolume(v, s.volumes[v].(staged := staged, published := published))
    case GrowRecord => PutVolume(v, s.calls[v].vol.(size := s.calls[v].want))
    case _ => Nothing
  }

  function VolumeNext(s: State, v: VolumeName, e: VolumeStep): Option<Call>
    requires VolumeEnabled(s, v, e)
  {
    match e
    case StartDelete => Some(DeleteRead(s.volumes[v]))
    case Unprotect => Some(DeleteUnprotected)
    case StartExpand(want) => Some(ExpandRead(want, s.volumes[v]))
    case PlaceExpand =>
      var ExpandRead(want, vol) := s.calls[v];
      Some(ExpandPlaced(want, vol, s.drives[vol.driveLabel]))
    case StartStage => Some(StageRead(s.volumes[v]))
    case StageQuota => Some(StageLimited(s.calls[v].vol))
    case StartGrow(want) => Some(GrowRead(want, s.volumes[v]))
    case GrowQuota => Some(GrowLimited(s.calls[v].want, s.calls[v].vol))
    case _ => None
  }

  // ---------------------------------------------------------------- the delete handler

  predicate ReleaseEnabled(s: State, v: VolumeName, e: ReleaseStep) {
    match e
    case StartRelease => v !in s.releases && v in s.volumes && s.volumes[v].deleting && IsReleased(s.volumes[v])
    case PlaceRelease => v in s.releases && s.releases[v].ReleaseRead? && s.releases[v].vol.driveLabel in s.drives
    case Credit =>
      && v in s.releases && s.releases[v].ReleasePlaced? && Hosts(s.releases[v].drive, v)
      && DriveCurrent(s, s.releases[v].vol.driveLabel, s.releases[v].drive)
    case SkipCredit => v in s.releases && s.releases[v].ReleasePlaced? && !Hosts(s.releases[v].drive, v)
    case Purge => v in s.releases && s.releases[v].Credited? && VolumeCurrent(s, v, s.releases[v].vol)
    case AbortRelease => v in s.releases
  }

  function ReleaseWrite(s: State, v: VolumeName, e: ReleaseStep): Write
    requires ReleaseEnabled(s, v, e)
  {
    match e
    case Credit =>
      var ReleasePlaced(vol, drive) := s.releases[v];
      PutDrive(vol.driveLabel, Release(drive, v, vol.size, vol.claim))
    case Purge =>
      var vol := s.releases[v].vol;
      PutVolume(v, vol.(fins := WithoutFinalizer(vol.fins, PurgeProtection)))
    case _ => Nothing
  }

  function ReleaseNext(s: State, v: VolumeName, e: ReleaseStep): Option<ReleaseCall>
    requires ReleaseEnabled(s, v, e)
  {
    match e
    case StartRelease => Some(ReleaseRead(s.volumes[v]))
    case PlaceRelease => Some(ReleasePlaced(s.releases[v].vol, s.drives[s.releases[v].vol.driveLabel]))
    case Credit => Some(Credited(s.releases[v].vol))
    case SkipCredit => Some(Credited(s.releases[v].vol))
    case _ => None
  }

  // ---------------------------------------------------------------- Move

  predicate MoveEnabled(s: State, m: nat, e: MoveStep) {
    if e.StartMove? then
      && m !in s.moves && e.src in s.drives && s.drives[e.src].cordoned
      && VolumesOf(s.drives[e.src].fins) != []
    else m in s.moves && match e
      case StartMove(src) => false
      case GatherVolume =>
        && s.moves[m].Gathering? && s.moves[m].todo != []
        && s.moves[m].todo[0] in s.volumes && !s.volumes[s.moves[m].todo[0]].published
      case AimMove(dst) =>
        && s.moves[m].Gathering? && s.moves[m].todo == []
        && dst in s.drives && dst != s.moves[m].src
        && s.drives[dst].node == s.moves[m].source.node && s.drives[dst].tier == s.moves[m].source.tier
        && s.drives[dst].cordoned && s.drives[dst].status == Ready
        && Required(s.moves[m].got) <= s.drives[dst].free
      case LandMove =>
        && s.moves[m].Aiming? && DriveCurrent(s, s.moves[m].dst, s.moves[m].target)
        && (s.drives[s.moves[m].dst].deleting ==>
              AddsNone(s.drives[s.moves[m].dst].fins, TakeIn(s.moves[m].target, s.moves[m].got).fins))
      case ResetSource =>
        && s.moves[m].Landed? && DriveCurrent(s, s.moves[m].src, s.moves[m].source)
        && (s.drives[s.moves[m].src].deleting ==> AddsNone(s.drives[s.moves[m].src].fins, [DataProtection]))
      case AbortMove => true
  }

  function MoveWrite(s: State, m: nat, e: MoveStep): Write
    requires MoveEnabled(s, m, e)
  {
    match e
    case LandMove => PutDrive(s.moves[m].dst, TakeIn(s.moves[m].target, s.moves[m].got).(status := Moving))
    case ResetSource => PutDrive(s.moves[m].src, s.moves[m].source.(fins := [DataProtection]))
    case _ => Nothing
  }

  function MoveNext(s: State, m: nat, e: MoveStep): Option<MoveCall>
    requires MoveEnabled(s, m, e)
  {
    match e
    case StartMove(src) => Some(Gathering(src, s.drives[src], VolumesOf(s.drives[src].fins), []))
    case GatherVolume =>
      var Gathering(src, source, todo, got) := s.moves[m];
      Some(Gathering(src, source, todo[1..], got + [Moved(todo[0], s.volumes[todo[0]].size)]))
    case AimMove(dst) =>
      var Gathering(src, source, todo, got) := s.moves[m];
      Some(Aiming(src, source, got, dst, s.drives[dst]))
    case LandMove =>
      var Aiming(src, source, got, dst, target) := s.moves[m];
      Some(Landed(src, source, got, dst))
    case _ => None
  }

  // ---------------------------------------------------------------- the move handler

  /** The volumes a handler walks through. */
  function Walk(call: HandlerCall): seq<VolumeName> {
    VolumesOf(call.drive.fins)
  }

  function Pointed(call: HandlerCall, d: DriveID): Volume
    requires call.Repointing?
  {
    call.vol.(fsuuid := call.drive.fsuuid, driveLabel := d)
  }

  predicate HandlerEnabled(s: State, d: DriveID, e: HandlerStep) {
    if e.Refresh? then d in s.drives
    else if e.StartHandler? then d !in s.handlers && d in s.caches && s.caches[d].status == Moving
    else d in s.handlers && match e
      case Refresh => false
      case StartHandler => false
      case SkipVolume =>
        var call := s.handlers[d];
        && call.Walking? && call.at < |Walk(call)| && Walk(call)[call.at] in s.volumes
        && s.volumes[Walk(call)[call.at]].fsuuid == call.drive.fsuuid
      case ReadVolume =>
        var call := s.handlers[d];
        && call.Walking? && call.at < |Walk(call)| && Walk(call)[call.at] in s.volumes
        && s.volumes[Walk(call)[call.at]].fsuuid != call.drive.fsuuid
        && !s.volumes[Walk(call)[call.at]].published
        && s.volumes[Walk(call)[call.at]].node == call.drive.node
      case StageVolume =>
        var call := s.handlers[d];
        && call.Repointing? && call.at < |Walk(call)| && call.vol.staged
        && VolumeCurrent(s, Walk(call)[call.at], call.vol)
      case PointVolume =>
        var call := s.handlers[d];
        && call.Repointing? && call.at < |Walk(call)| && VolumeCurrent(s, Walk(call)[call.at], call.vol)
      case MarkReady =>
        var call := s.handlers[d];
        call.Walking? && call.at >= |Walk(call)| && DriveCurrent(s, d, call.drive)
      case AbortHandler => true
  }

  function HandlerWrite(s: State, d: DriveID, e: HandlerStep): Write
    requires HandlerEnabled(s, d, e)
  {
    match e
    case StageVolume => PutVolume(Walk(s.handlers[d])[s.handlers[d].at], Pointed(s.handlers[d], d))
    case PointVolume => PutVolume(Walk(s.handlers[d])[s.handlers[d].at], Pointed(s.handlers[d], d))
    case MarkReady => PutDrive(d, s.handlers[d].drive.(status := Ready))
    case _ => Nothing
  }

  /** After staging, the handler still has the copy it read. */
  function HandlerNext(s: State, d: DriveID, e: HandlerStep): Option<HandlerCall>
    requires HandlerEnabled(s, d, e)
  {
    match e
    case Refresh => if d in s.handlers then Some(s.handlers[d]) else None
    case StartHandler => Some(Walking(s.caches[d], 0))
    case SkipVolume => Some(Walking(s.handlers[d].drive, s.handlers[d].at + 1))
    case ReadVolume =>
      var call := s.handlers[d];
      Some(Repointing(call.drive, call.at, s.volumes[Walk(call)[call.at]]))
    case StageVolume => Some(s.handlers[d])
    case PointVolume => Some(Walking(s.handlers[d].drive, s.handlers[d].at + 1))
    case _ => None
  }

  // ---------------------------------------------------------------- runs

  /** When the code and the API server let an event happen. */
  predicate Enabled(s: State, e: Event) {
    match e
    case OnDrive(d, step) => DriveEnabled(s, d, step)
    case OnCreate(v, step) => CreateEnabled(s, v, step)
    case OnVolume(v, step) => VolumeEnabled(s, v, step)
    case OnRelease(v, step) => ReleaseEnabled(s, v, step)
    case OnMove(m, step) => MoveEnabled(s, m, step)
    case OnHandler(d, step) => HandlerEnabled(s, d, step)
  }

  function WriteOf(s: State, e: Event): Write
    requires Enabled(s, e)
  {
    match e
    case OnDrive(d, step) => PutDrive(d, EditedDrive(s, d, step))
    case OnCreate(v, step) => CreateWrite(s, v, step)
    case OnVolume(v, step) => VolumeWrite(s, v, step)
    case OnRelease(v, step) => ReleaseWrite(s, v, step)
    case OnMove(m, step) => MoveWrite(s, m, step)
    case OnHandler(d, step) => HandlerWrite(s, d, step)
  }

  /** An actor goes on with what it now knows, or is done. */
  function Continue<K, C>(actors: map<K, C>, k: K, next: Option<C>): map<K, C> {
    if next.Some? then actors[k := next.value] else actors - {k}
  }

  /** The volume is being deleted, and some drive still holds it. */
  predicate Lingering(s: State, v: VolumeName) {
    && v in s.volumes && s.volumes[v].deleting
    && exists d :: d in s.drives && Hosts(s.drives[d], v)
  }

  function CreatePast(s: State, v: VolumeName, e: CreateStep): History
    requires CreateEnabled(s, v, e)
  {
    match e
    case StartCreate(req) =>
      s.past.(asked := s.past.asked[v := req],
              late := if Lingering(s, v) then s.past.late + {v} else s.past.late - {v})
    case CreateRecord => Recording(s.past, v)
    case ReserveDrive => Charged(s.past, v, s.calls[v].pick.id, SizeFor(s.calls[v].req, s.calls[v].pick.drive))
    case _ => s.past
  }

  function VolumePast(s: State, v: VolumeName, e: VolumeStep): History
    requires VolumeEnabled(s, v, e)
  {
    match e
    case ExpandIdle(want) => Granted(s.past, v, want, 0)
    case GrantExpand =>
      Granted(s.past, v, s.calls[v].want, if Hosts(s.calls[v].drive, v) then s.calls[v].want - s.calls[v].vol.size else 0)
    case StageQuota => Limited(s.past, v, s.calls[v].vol.size)
    case GrowQuota => Limited(s.past, v, s.calls[v].want)
    case _ => s.past
  }

  function PastAfter(s: State, e: Event): History
    requires Enabled(s, e)
  {
    match e
    case OnCreate(v, step) => CreatePast(s, v, step)
    case OnVolume(v, step) => VolumePast(s, v, step)
    case OnRelease(v, step) => if step.Credit? then CreditedBack(s.past, v, s.releases[v].vol.driveLabel) else s.past
    case OnMove(m, step) => if step.LandMove? then Handed(s.past, Names(s.moves[m].got), s.moves[m].dst) else s.past
    case _ => s.past
  }

  /** What an enabled event does: its write lands, its actor goes on, history records it. */
  function Apply(s: State, e: Event): State
    requires Enabled(s, e)
  {
    var w := WriteOf(s, e);
    State(
      if w.Nothing? then s.clock else s.clock + 1,
      DrivesAfter(s, w),
      VolumesAfter(s, w),
      match e
      case OnCreate(v, step) => Continue(s.calls, v, CreateNext(s, v, step))
      case OnVolume(v, step) => Continue(s.calls, v, VolumeNext(s, v, step))
      case _ => s.calls,
      if e.OnRelease? then Continue(s.releases, e.v, ReleaseNext(s, e.v, e.release)) else s.releases,
      if e.OnDrive? && e.drive.StripFinalizers? then s.removing + {e.d}
      else if e.OnDrive? && e.drive.DeleteDrive? then s.removing - {e.d}
      else s.removing,
      if e.OnMove? then Continue(s.moves, e.m, MoveNext(s, e.m, e.move)) else s.moves,
      if e.OnHandler? && e.handler.Refresh? then s.caches[e.d := s.drives[e.d]] else s.caches,
      if e.OnHandler? then Continue(s.handlers, e.d, HandlerNext(s, e.d, e.handler)) else s.handlers,
      PastAfter(s, e))
  }

  predicate OnItsDrive(s: State, v: VolumeName)
    requires v in s.volumes
  {
    s.volumes[v].driveLabel in s.drives && Hosts(s.drives[s.volumes[v].driveLabel], v)
  }

  predicate GrantInTime(s: State, v: VolumeName) {
    v in s.calls && s.calls[v].ExpandPlaced? && v in s.volumes && !s.volumes[v].deleting ==>
      OnItsDrive(s, v) || (v in s.past.asked && s.past.asked[v].bytes.Some? && s.calls[v].want <= s.past.asked[v].bytes.value)
  }

  /** What the properties take for granted about the environment. */
  predicate Disciplined(s: State, e: Event) {
    // A drive is not reported on again once its finalizers are stripped for removal.
    && (e.OnDrive? && e.drive.SetHealth? && e.d in s.drives ==> s.drives[e.d].fins != [])
    // A device never shrinks below what is allocated on it.
    && (e.OnDrive? && e.drive.Resync? && e.d in s.drives ==> s.drives[e.d].alloc <= e.drive.total)
    // One name is always requested alike, with a size.
    && (e.OnCreate? && e.create.StartCreate? ==>
          && e.create.req.bytes.Some? && 0 <= e.create.req.bytes.value <= MAX_INT64
          && (e.v in s.past.asked ==> s.past.asked[e.v] == e.create.req))
    // An expansion beyond the requested size is granted to a standing volume only when the drive its
    // record names holds it.
    && (e.OnVolume? && e.volume.GrantExpand? ==> GrantInTime(s, e.v))
    // The node is asked only for sizes the controller granted.
    && (e.OnVolume? && e.volume.StartGrow? ==> e.volume.want <= EntryOf(s.past, e.v).granted)
  }

  function Empty(): State {
    State(0, map[], map[], map[], map[], {}, map[], map[], map[], History(map[], map[], map[], map[], map[], {}))
  }

  /** `es` can happen one after the other from `s`. */
  ghost predicate Runs(s: State, es: seq<Event>)
    decreases |es|
  {
    es == [] || (Enabled(s, es[0]) && Runs(Apply(s, es[0]), es[1..]))
  }

  ghost function After(s: State, es: seq<Event>): State
    requires Runs(s, es)
    decreases |es|
  {
    if es == [] then s else After(Apply(s, es[0]), es[1..])
  }

  ghost predicate DisciplinedRun(s: State, es: seq<Event>)
    requires Runs(s, es)
    decreases |es|
  {
    es == [] || (Disciplined(s, es[0]) && DisciplinedRun(Apply(s, es[0]), es[1..]))
  }

  predicate NoMoves(es: seq<Event>) {
    forall i :: 0 <= i < |es| ==> !IsMove(es[i])
  }
}
