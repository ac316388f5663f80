/** The drive and volume objects an actor edits in memory between a read and a write, with the
    edits as the source performs them. Each is proved to compute the value the cluster model uses. */
module Edits {
  import opened Objects
  import opened Cluster
  import opened Effects

  class DriveObject {
    var version: nat
    var fsuuid: DriveID
    var node: nat
    var tier: nat
    var totalCapacity: int
    var freeCapacity: int
    var allocatedCapacity: int
    var status: DriveStatus
    var unschedulable: bool
    var deleting: bool
    var finalizers: seq<Finalizer>
    var claims: set<nat>

    function View(): Drive
      reads this
    {
      Drive(version, fsuuid, node, tier, totalCapacity, freeCapacity, allocatedCapacity,
            status, unschedulable, deleting, finalizers, claims)
    }

    /** VolumeExist. */
    method VolumeExist(volume: VolumeName) returns (found: bool)
      ensures found <==> Hosts(View(), volume)
      ensures found <==> VolumeRef(volume) in finalizers
    {
      found := false;
      for i := 0 to |finalizers|
        invariant found <==> VolumeRef(volume) in finalizers[..i]
      {
        if finalizers[i] == VolumeRef(volume) {
          found := true;
        }
      }
      assert finalizers[..|finalizers|] == finalizers;
    }

    method GetVolumes() returns (names: seq<VolumeName>)
      ensures names == VolumesOf(finalizers)
      ensures forall v :: v in names <==> Hosts(View(), v)
    {
      names := [];
      for i := 0 to |finalizers|
        invariant names == VolumesOf(finalizers[..i])
      {
        assert finalizers[..i + 1][..i] == finalizers[..i];
        if finalizers[i].VolumeRef? {
          names := names + [finalizers[i].volume];
        }
      }
      assert finalizers[..|finalizers|] == finalizers;
      forall v ensures v in names <==> Hosts(View(), v) { VolumesOfMember(finalizers, v); }
    }

    method ResetFinalizers()
      modifies this`finalizers
      ensures View() == old(View()).(fins := [DataProtection])
      ensures WellFormed(finalizers) && VolumesOf(finalizers) == []
    {
      finalizers := [DataProtection];
      assert finalizers[..0] == [];
    }

    method RemoveFinalizers() returns (removed: bool)
      modifies this`finalizers
      ensures View() == Strip(old(View()))
      ensures finalizers == if removed then [] else old(finalizers)
      ensures removed <==> old(finalizers) == [DataProtection]
    {
      if |finalizers| == 1 && finalizers[0] == DataProtection {
        finalizers := [];
        return true;
      }
      return false;
    }

    method AddVolumeFinalizer(volume: VolumeName) returns (added: bool)
      modifies this`finalizers
      ensures finalizers == AddRef(old(finalizers), volume)
      ensures finalizers == if added then old(finalizers) + [VolumeRef(volume)] else old(finalizers)
      ensures added <==> !Hosts(old(View()), volume)
      ensures View() == old(View()).(fins := finalizers)
    {
      for i := 0 to |finalizers|
        invariant VolumeRef(volume) !in finalizers[..i]
      {
        if finalizers[i] == VolumeRef(volume) {
          return false;
        }
      }
      assert finalizers[..|finalizers|] == finalizers;
      finalizers := finalizers + [VolumeRef(volume)];
      return true;
    }

    method RemoveVolumeFinalizer(volume: VolumeName) returns (found: bool)
      modifies this`finalizers
      ensures finalizers == DropRef(old(finalizers), volume)
      ensures CutOut(old(finalizers), volume, finalizers)
      ensures found <==> Hosts(old(View()), volume)
      ensures View() == old(View()).(fins := finalizers)
    {
      var kept := [];
      found := false;
      for i := 0 to |finalizers|
        invariant finalizers == old(finalizers)
        invariant kept == DropRef(finalizers[..i], volume)
        invariant found <==> Holds(finalizers[..i], volume)
      {
        FirstFew(finalizers, i);
        if finalizers[i] == VolumeRef(volume) {
          found := true;
        } else {
          kept := kept + [finalizers[i]];
        }
      }
      assert finalizers[..|finalizers|] == finalizers;
      if !found {
        NothingDropped(finalizers, volume);
      }
      if found {
        finalizers := kept;
      }
      DroppedIsCutOut(old(finalizers), volume);
    }

    method SetVolumeClaimID(claim: Claim)
      modifies this`claims
      ensures claims == (if claim.Claim? then old(claims) + {claim.id} else old(claims))
      ensures View() == old(View()).(claims := claims)
    {
      if claim.NoClaim? {
        return;
      }
      claims := claims + {claim.id};
    }

    method RemoveVolumeClaimID(claim: Claim)
      modifies this`claims
      ensures claims == (if claim.Claim? then old(claims) - {claim.id} else old(claims))
      ensures View() == old(View()).(claims := claims)
    {
      if claim.NoClaim? {
        return;
      }
      claims := claims - {claim.id};
    }

    /** The tail of CreateVolume; `changed` says whether an Update follows. */
    method ReserveFor(volume: VolumeName, size: int, claim: Claim) returns (changed: bool)
      modifies this`finalizers, this`claims, this`freeCapacity, this`allocatedCapacity
      ensures changed <==> VolumeRef(volume) !in old(finalizers)
      ensures changed ==>
                && finalizers == old(finalizers) + [VolumeRef(volume)]
                && claims == old(claims) + (if claim.Claim? then {claim.id} else {})
                && freeCapacity == old(freeCapacity) - size && allocatedCapacity == old(allocatedCapacity) + size
      ensures View() == if changed then Reserve(old(View()), volume, size, claim) else old(View())
    {
      changed := AddVolumeFinalizer(volume);
      if changed {
        SetVolumeClaimID(claim);
        freeCapacity := freeCapacity - size;
        allocatedCapacity := allocatedCapacity + size;
      }
    }

    /** The middle of ControllerExpandVolume; refused when the drive lacks the bytes. */
    method ExpandBy(size: int) returns (granted: bool)
      modifies this`freeCapacity, this`allocatedCapacity
      ensures granted <==> size <= old(freeCapacity)
      ensures freeCapacity == old(freeCapacity) - (if granted then size else 0)
      ensures allocatedCapacity == old(allocatedCapacity) + (if granted then size else 0)
      ensures View() == if granted then Enlarge(old(View()), size) else old(View())
    {
      if size > freeCapacity {
        return false;
      }
      freeCapacity := freeCapacity - size;
      allocatedCapacity := allocatedCapacity + size;
      return true;
    }

    /** releaseVolume; `changed` says whether an Update follows. */
    method ReleaseVolume(volume: VolumeName, size: int, claim: Claim) returns (changed: bool)
      modifies this`finalizers, this`claims, this`freeCapacity, this`allocatedCapacity
      ensures changed <==> VolumeRef(volume) in old(finalizers)
      ensures CutOut(old(finalizers), volume, finalizers)
      ensures changed ==>
                && claims == old(claims) - (if claim.Claim? then {claim.id} else {})
                && freeCapacity == old(freeCapacity) + size && allocatedCapacity == totalCapacity - freeCapacity
      ensures View() == if changed then Release(old(View()), volume, size, claim) else old(View())
    {
      changed := RemoveVolumeFinalizer(volume);
      if changed {
        freeCapacity := freeCapacity + size;
        allocatedCapacity := totalCapacity - freeCapacity;
        RemoveVolumeClaimID(claim);
      } else {
        NothingDropped(old(finalizers), volume);
      }
    }

    /** The capacity part of syncDrive. */
    method SyncCapacity(deviceTotal: int) returns (updated: bool)
      modifies this`totalCapacity, this`freeCapacity
      ensures View() == Resize(old(View()), deviceTotal)
      ensures totalCapacity == deviceTotal
      ensures updated ==>
                freeCapacity == if deviceTotal < allocatedCapacity then 0 else deviceTotal - allocatedCapacity
      ensures !updated ==> freeCapacity == old(freeCapacity)
      ensures updated <==> old(totalCapacity) != deviceTotal
    {
      updated := false;
      if totalCapacity != deviceTotal {
        updated := true;
        totalCapacity := deviceTotal;
        freeCapacity := totalCapacity - allocatedCapacity;
        if freeCapacity < 0 {
          freeCapacity := 0;
        }
      }
    }

    /** One turn of Move's loop. */
    method TakeVolume(volume: Moved)
      modifies this`finalizers, this`freeCapacity, this`allocatedCapacity
      ensures View() == TakeIn(old(View()), [volume])
    {
      assert [volume][..0] == [] && TakeIn(View(), []) == View();
      var added := AddVolumeFinalizer(volume.name);
      if added {
        freeCapacity := freeCapacity - volume.size;
        allocatedCapacity := allocatedCapacity + volume.size;
      }
    }

    /** Move's edit of the destination. */
    method TakeVolumes(volumes: seq<Moved>)
      modifies this`finalizers, this`freeCapacity, this`allocatedCapacity, this`status
      ensures View() == TakeIn(old(View()), volumes).(status := Moving)
      ensures
        var more := Arriving(old(finalizers), volumes);
        && finalizers == old(finalizers) + Refs(more) && status == Moving
        && freeCapacity == old(freeCapacity) - Bytes(more) && allocatedCapacity == old(allocatedCapacity) + Bytes(more)
    {
      TakeInExactly(View(), volumes);
      for i := 0 to |volumes|
        invariant View() == TakeIn(old(View()), volumes[..i])
      {
        FirstFew(volumes, i);
        TakeVolume(volumes[i]);
      }
      assert volumes[..|volumes|] == volumes;
      status := Moving;
    }
  }

  lemma FirstFew<T>(s: seq<T>, i: nat)
    requires i < |s|
    ensures s[..i + 1] == s[..i] + [s[i]] && s[..i + 1][..i] == s[..i]
  {
  }

  /** Without the volume the list is as it was; a volume listed once is cut out of it. */
  ghost predicate CutOut(was: seq<Finalizer>, v: VolumeName, now: seq<Finalizer>) {
    && VolumeRef(v) !in now
    && (VolumeRef(v) !in was ==> now == was)
    && (VolumeRef(v) in was && Distinct(was) ==>
          exists i :: 0 <= i < |was| && was[i] == VolumeRef(v) && now == was[..i] + was[i + 1..])
  }

  lemma DroppedIsCutOut(fins: seq<Finalizer>, v: VolumeName)
    ensures CutOut(fins, v, DropRef(fins, v))
  {
    DropRefMember(fins, v, VolumeRef(v));
    if VolumeRef(v) !in fins {
      NothingDropped(fins, v);
    } else if Distinct(fins) {
      var i := DropRefAt(fins, v);
    }
  }

  /** Move's sum over the volumes of the source. */
  method RequiredCapacity(volumes: seq<Moved>) returns (required: int)
    ensures required == Required(volumes)
    ensures required == Bytes(volumes)
  {
    RequiredIsBytes(volumes);
    required := 0;
    for i := 0 to |volumes|
      invariant required == Required(volumes[..i])
    {
      assert volumes[..i + 1][..i] == volumes[..i];
      required := required + volumes[i].size;
    }
    assert volumes[..|volumes|] == volumes;
  }

  class VolumeObject {
    var finalizers: seq<VolumeFinalizer>

    method RemoveFinalizer(value: VolumeFinalizer)
      modifies this
      ensures finalizers == WithoutFinalizer(old(finalizers), value)
      ensures value !in old(finalizers) ==> finalizers == old(finalizers)
      ensures forall f :: f in finalizers <==> f in old(finalizers) && f != value
    {
      var kept := [];
      for i := 0 to |finalizers|
        invariant kept == WithoutFinalizer(finalizers[..i], value)
        invariant |kept| <= i && (|kept| == i ==> kept == finalizers[..i])
        invariant value !in finalizers[..i] ==> |kept| == i
      {
        assert finalizers[..i + 1][..i] == finalizers[..i];
        if finalizers[i] != value {
          kept := kept + [finalizers[i]];
        }
      }
      assert finalizers[..|finalizers|] == finalizers;
      forall f ensures f in kept <==> f in finalizers && f != value {
        WithoutFinalizerMember(finalizers, value, f);
      }
      if |kept| != |finalizers| {
        finalizers := kept;
      }
    }
  }
}
