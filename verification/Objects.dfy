/** The two API objects, Drive and Volume, as values, and what each in-memory edit
    of the source does to them.

    Names, drive IDs, nodes and tiers are only ever compared, so they are numbers here.
    `Finalizer` stands for the two string forms of a drive finalizer. */
module Objects {

  datatype Option<+T> = None | Some(value: T)

  type DriveID = nat
  type VolumeName = nat

  datatype Claim = NoClaim | Claim(id: nat)

  datatype Finalizer = DataProtection | VolumeRef(volume: VolumeName)

  datatype DriveStatus = Ready | Lost | Error | Removed | Moving | Repairing

  datatype Drive = Drive(
    version: nat, fsuuid: DriveID, node: nat, tier: nat,
    total: int, free: int, alloc: int,
    status: DriveStatus, cordoned: bool, deleting: bool,
    fins: seq<Finalizer>, claims: set<nat>)

  datatype VolumeFinalizer = PVProtection | PurgeProtection

  datatype Volume = Volume(
    version: nat, driveLabel: DriveID, fsuuid: DriveID, node: nat, size: int, claim: Claim,
    staged: bool, published: bool, deleting: bool, fins: seq<VolumeFinalizer>)

  const MAX_INT64: int := 0x7FFF_FFFF_FFFF_FFFF

  // ---------------------------------------------------------------- finalizers

  predicate Holds(fins: seq<Finalizer>, v: VolumeName) {
    VolumeRef(v) in fins
  }

  predicate Hosts(drive: Drive, v: VolumeName) {
    Holds(drive.fins, v)
  }

  function VolumeCount(drive: Drive): int {
    |drive.fins| - 1
  }

  ghost predicate Distinct<T>(s: seq<T>) {
    forall i, j :: 0 <= i < j < |s| ==> s[i] != s[j]
  }

  /** The names behind the volume finalizers, in order. */
  function VolumesOf(fins: seq<Finalizer>): seq<VolumeName> {
    if fins == [] then []
    else
      var last := fins[|fins| - 1];
      VolumesOf(fins[..|fins| - 1]) + (if last.VolumeRef? then [last.volume] else [])
  }

  function AddRef(fins: seq<Finalizer>, v: VolumeName): seq<Finalizer> {
    if Holds(fins, v) then fins else fins + [VolumeRef(v)]
  }

  function DropRef(fins: seq<Finalizer>, v: VolumeName): seq<Finalizer> {
    if fins == [] then []
    else
      var last := fins[|fins| - 1];
      DropRef(fins[..|fins| - 1], v) + (if last == VolumeRef(v) then [] else [last])
  }

  /** Data protection first, then volume references without repetition. */
  ghost predicate WellFormed(fins: seq<Finalizer>) {
    && |fins| > 0
    && fins[0] == DataProtection
    && Distinct(fins)
  }

  lemma {:induction false} VolumesOfMember(fins: seq<Finalizer>, v: VolumeName)
    ensures v in VolumesOf(fins) <==> Holds(fins, v)
  {
    if fins != [] {
      var init := fins[..|fins| - 1];
      VolumesOfMember(init, v);
      assert fins == init + [fins[|fins| - 1]];
    }
  }

  /** On a well-formed list the names are distinct and `length - 1` counts them. */
  lemma {:induction false} WellFormedCount(fins: seq<Finalizer>)
    requires WellFormed(fins)
    ensures |VolumesOf(fins)| == |fins| - 1
    ensures Distinct(VolumesOf(fins))
    ensures forall i :: 0 < i < |fins| ==> fins[i] == VolumeRef(VolumesOf(fins)[i - 1])
  {
    var init := fins[..|fins| - 1];
    if |fins| == 1 {
      assert VolumesOf(init) == [];
    } else {
      WellFormedCount(init);
      var last := fins[|fins| - 1];
      assert last != fins[0];
      VolumesOfMember(init, last.volume);
      assert last !in init;
    }
  }

  lemma {:induction false} DropRefMember(fins: seq<Finalizer>, v: VolumeName, f: Finalizer)
    ensures f in DropRef(fins, v) <==> f in fins && f != VolumeRef(v)
  {
    if fins != [] {
      var init := fins[..|fins| - 1];
      DropRefMember(init, v, f);
      assert fins == init + [fins[|fins| - 1]];
    }
  }

  lemma {:induction false} DropRefDistinct(fins: seq<Finalizer>, v: VolumeName)
    requires Distinct(fins)
    ensures Distinct(DropRef(fins, v))
  {
    if fins != [] {
      var init, last := fins[..|fins| - 1], fins[|fins| - 1];
      DropRefDistinct(init, v);
      DropRefMember(init, v, last);
      assert last !in init;
    }
  }

  lemma {:induction false} DropRefHead(fins: seq<Finalizer>, v: VolumeName)
    requires |fins| > 0 && fins[0] == DataProtection
    ensures |DropRef(fins, v)| > 0 && DropRef(fins, v)[0] == DataProtection
  {
    var init := fins[..|fins| - 1];
    if |fins| == 1 {
      assert DropRef(init, v) == [];
    } else {
      DropRefHead(init, v);
    }
  }

  /** From a list without repetition the one reference is cut out. */
  lemma {:induction false} DropRefAt(fins: seq<Finalizer>, v: VolumeName) returns (i: nat)
    requires Distinct(fins) && Holds(fins, v)
    ensures i < |fins| && fins[i] == VolumeRef(v) && DropRef(fins, v) == fins[..i] + fins[i + 1..]
  {
    var init, last := fins[..|fins| - 1], fins[|fins| - 1];
    assert fins == init + [last];
    if last == VolumeRef(v) {
      i := |fins| - 1;
      assert !Holds(init, v);
      NothingDropped(init, v);
    } else {
      i := DropRefAt(init, v);
      assert fins[..i] + fins[i + 1..] == (init[..i] + init[i + 1..]) + [last];
    }
  }

  lemma {:induction false} NothingDropped(fins: seq<Finalizer>, v: VolumeName)
    requires !Holds(fins, v)
    ensures DropRef(fins, v) == fins
  {
    if fins != [] {
      var init := fins[..|fins| - 1];
      assert fins == init + [fins[|fins| - 1]];
      NothingDropped(init, v);
    }
  }

  lemma DropRefWellFormed(fins: seq<Finalizer>, v: VolumeName)
    requires WellFormed(fins)
    ensures WellFormed(DropRef(fins, v))
  {
    DropRefDistinct(fins, v);
    DropRefHead(fins, v);
  }

  // ---------------------------------------------------------------- drive edits

  /** CreateVolume's reservation. */
  function Reserve(drive: Drive, v: VolumeName, size: int, claim: Claim): Drive {
    drive.(fins := AddRef(drive.fins, v),
           claims := if claim.Claim? then drive.claims + {claim.id} else drive.claims,
           free := drive.free - size,
           alloc := drive.alloc + size)
  }

  /** ControllerExpandVolume's extra reservation. */
  function Enlarge(drive: Drive, size: int): Drive {
    drive.(free := drive.free - size, alloc := drive.alloc + size)
  }

  /** The delete handler's credit; Allocated is recomputed from Total. */
  function Release(drive: Drive, v: VolumeName, size: int, claim: Claim): Drive {
    drive.(fins := DropRef(drive.fins, v),
           claims := if claim.Claim? then drive.claims - {claim.id} else drive.claims,
           free := drive.free + size,
           alloc := drive.total - (drive.free + size))
  }

  /** Device sync with a possibly different total. */
  function Resize(drive: Drive, total: int): Drive {
    if drive.total == total then drive
    else drive.(total := total,
                free := if total - drive.alloc < 0 then 0 else total - drive.alloc)
  }

  /** RemoveFinalizers. */
  function Strip(drive: Drive): Drive {
    if drive.fins == [DataProtection] then drive.(fins := []) else drive
  }

  // ---------------------------------------------------------------- volume edits

  function WithoutFinalizer(fins: seq<VolumeFinalizer>, f: VolumeFinalizer): seq<VolumeFinalizer> {
    if fins == [] then []
    else
      var last := fins[|fins| - 1];
      WithoutFinalizer(fins[..|fins| - 1], f) + (if last == f then [] else [last])
  }

  predicate IsReleased(vol: Volume) {
    vol.fins == [PurgeProtection]
  }

  lemma {:induction false} WithoutFinalizerMember(fins: seq<VolumeFinalizer>, f: VolumeFinalizer, g: VolumeFinalizer)
    ensures g in WithoutFinalizer(fins, f) <==> g in fins && g != f
  {
    if fins != [] {
      var init := fins[..|fins| - 1];
      WithoutFinalizerMember(init, f, g);
      assert fins == init + [fins[|fins| - 1]];
    }
  }

  function NewVolume(drive: DriveID, fsuuid: DriveID, node: nat, size: int, claim: Claim): Volume {
    Volume(0, drive, fsuuid, node, size, claim, false, false, false, [PVProtection, PurgeProtection])
  }

  /** Re-use of an existing record: labels are copied over, finalizers and status replaced,
      and the rest of the metadata (deletion mark, version) stays. */
  function Reuse(vol: Volume, made: Volume): Volume {
    made.(version := vol.version, deleting := vol.deleting,
           claim := if made.claim.Claim? then made.claim else vol.claim)
  }

  // ---------------------------------------------------------------- sums

  /** What the books say about one volume: bytes its drive set aside for it, the largest
      size the controller granted, and the largest quota asked of the filesystem. */
  datatype Entry = Entry(reserved: int, granted: int, quota: int)

  type Ledger = map<VolumeName, Entry>

  function Reserved(ledger: Ledger, v: VolumeName): int {
    if v in ledger then ledger[v].reserved else 0
  }

  function Committed(fins: seq<Finalizer>, ledger: Ledger): int {
    if fins == [] then 0
    else
      var last := fins[|fins| - 1];
      Committed(fins[..|fins| - 1], ledger) + (if last.VolumeRef? then Reserved(ledger, last.volume) else 0)
  }

  lemma {:induction false} CommittedUpdate(fins: seq<Finalizer>, ledger: Ledger, v: VolumeName, e: Entry)
    requires Distinct(fins)
    ensures Committed(fins, ledger[v := e]) ==
            Committed(fins, ledger) + (if Holds(fins, v) then e.reserved - Reserved(ledger, v) else 0)
  {
    if fins != [] {
      var init, last := fins[..|fins| - 1], fins[|fins| - 1];
      CommittedUpdate(init, ledger, v, e);
      assert fins == init + [last];
      assert last !in init;
    }
  }

  lemma {:induction false} CommittedDrop(fins: seq<Finalizer>, ledger: Ledger, v: VolumeName)
    requires Distinct(fins)
    ensures Committed(DropRef(fins, v), ledger) ==
            Committed(fins, ledger) - (if Holds(fins, v) then Reserved(ledger, v) else 0)
  {
    if fins != [] {
      var init, last := fins[..|fins| - 1], fins[|fins| - 1];
      CommittedDrop(init, ledger, v);
      assert fins == init + [last];
      assert last !in init;
      var rest := DropRef(init, v);
      if last == VolumeRef(v) {
        assert DropRef(fins, v) == rest;
      } else {
        assert DropRef(fins, v) == rest + [last];
        assert (rest + [last])[..|rest|] == rest;
      }
    }
  }

  lemma CommittedAdd(fins: seq<Finalizer>, ledger: Ledger, v: VolumeName)
    requires !Holds(fins, v)
    ensures Committed(AddRef(fins, v), ledger) == Committed(fins, ledger) + Reserved(ledger, v)
  {
    assert AddRef(fins, v)[..|fins|] == fins;
  }

  /** One volume's share is part of the sum. */
  lemma {:induction false} CommittedShare(fins: seq<Finalizer>, ledger: Ledger, v: VolumeName)
    requires Holds(fins, v)
    requires forall w :: Holds(fins, w) ==> 0 <= Reserved(ledger, w)
    ensures Reserved(ledger, v) <= Committed(fins, ledger)
    ensures 0 <= Committed(fins, ledger)
  {
    var init, last := fins[..|fins| - 1], fins[|fins| - 1];
    assert fins == init + [last];
    assert forall w :: Holds(init, w) ==> Holds(fins, w);
    if Holds(init, v) {
      CommittedShare(init, ledger, v);
      if last.VolumeRef? {
        assert Holds(fins, last.volume);
      }
    } else {
      CommittedNonNegative(init, ledger);
    }
  }

  lemma {:induction false} CommittedNonNegative(fins: seq<Finalizer>, ledger: Ledger)
    requires forall w :: Holds(fins, w) ==> 0 <= Reserved(ledger, w)
    ensures 0 <= Committed(fins, ledger)
  {
    if fins != [] {
      var init, last := fins[..|fins| - 1], fins[|fins| - 1];
      assert fins == init + [last];
      assert forall w :: Holds(init, w) ==> Holds(fins, w);
      CommittedNonNegative(init, ledger);
      if last.VolumeRef? {
        assert Holds(fins, last.volume);
      }
    }
  }
}
