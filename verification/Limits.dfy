/** What the hypotheses of the run theorems are for: the exact condition under which the code
    keeps each promise, and what happens outside it. */
module Limits {
  import opened Objects
  import opened Cluster
  import opened Versions
  import opened Removal
  import opened Placement
  import opened Accounting
  import opened Books
  import opened MoveSafety

  // ---------------------------------------------------------------- reports on a removed drive

  /** A health report keeps a drive's finalizer list in shape exactly until it has been stripped. */
  lemma ReportKeepsShape(drive: Drive, status: DriveStatus)
    requires Shaped(drive) && status in {Ready, Lost, Error, Repairing}
    ensures Shaped(drive.(status := status)) <==> drive.fins != []
  {
    if drive.fins != [] && drive.status == Removed {
      assert WellFormed(drive.fins);
    }
  }

  /** A stripped drive that is reported Ready takes a volume and then counts none, so Remove
      and the removal handler both accept it. */
  lemma StrippedDriveHidesVolume(drive: Drive, v: VolumeName, size: int, claim: Claim)
    requires drive.fins == []
    ensures
      var again := Reserve(drive.(status := Ready), v, size, claim);
      && Hosts(again, v)
      && VolumeCount(again) == 0
      && MarkRemovedAllowed(again)
  {
  }

  // ---------------------------------------------------------------- retries of another size

  lemma {:induction false} RecordedSizesUpdate(fins: seq<Finalizer>, volumes: map<VolumeName, Volume>, v: VolumeName, vol: Volume)
    requires Distinct(fins) && v in volumes
    ensures RecordedSizes(fins, volumes[v := vol]) ==
            RecordedSizes(fins, volumes) + (if Holds(fins, v) then vol.size - volumes[v].size else 0)
  {
    if fins != [] {
      var init, last := fins[..|fins| - 1], fins[|fins| - 1];
      RecordedSizesUpdate(init, volumes, v, vol);
      assert fins == init + [last];
      assert last !in init;
    }
  }

  /** A retried CreateVolume that finds the volume on a drive rewrites the recorded size without
      charging; Allocated still covers the drive's recorded sizes exactly if what it adds to the
      record is spare in Allocated. */
  lemma RetryKeepsAllocated(s: State, v: VolumeName, d: DriveID)
    requires Sound(s) && HostedBy(s, v, d) && CreateEnabled(s, v, RewriteRecord)
    ensures
      var drive, call := s.drives[d], s.calls[v];
      RecordedSizes(drive.fins, Apply(s, OnCreate(v, RewriteRecord)).volumes) <= drive.alloc <==>
      SizeFor(call.req, call.pick.drive) - s.volumes[v].size <= drive.alloc - RecordedSizes(drive.fins, s.volumes)
  {
    var call := s.calls[v];
    assert CallRead(s, v, call) && Shaped(s.drives[d]);
    var made := Reuse(call.vol, NewRecord(call.req, call.pick));
    assert made.size == SizeFor(call.req, call.pick.drive);
    RecordedSizesUpdate(s.drives[d].fins, s.volumes, v, made.(version := s.clock + 1));
  }

  /** So when all of Allocated is recorded, a retry without a size is harmless exactly if the drive it
      found the volume on had no more bytes free than the volume has recorded. */
  lemma UnsizedRetryHarmless(s: State, v: VolumeName, d: DriveID)
    requires Sound(s) && HostedBy(s, v, d) && CreateEnabled(s, v, RewriteRecord) && s.calls[v].req.bytes.None?
    requires RecordedSizes(s.drives[d].fins, s.volumes) == s.drives[d].alloc
    ensures RecordedSizes(s.drives[d].fins, Apply(s, OnCreate(v, RewriteRecord)).volumes) <= s.drives[d].alloc <==>
            s.calls[v].pick.drive.free <= s.volumes[v].size
  {
    RetryKeepsAllocated(s, v, d);
  }

  // ---------------------------------------------------------------- Move and pending expansions

  /** Bytes set aside for the newly gathered volumes beyond their recorded size. */
  ghost function Pending(drive: Drive, got: seq<Moved>, ledger: Ledger): int {
    if got == [] then 0
    else
      var init, last := got[..|got| - 1], got[|got| - 1];
      Pending(drive, init, ledger) +
      (if Hosts(TakeIn(drive, init), last.name) then 0 else Reserved(ledger, last.name) - last.size)
  }

  /** Move charges the destination the recorded sizes only: what was already granted beyond them
      is exactly what the destination then lacks. */
  lemma {:induction false} LandingShortfall(drive: Drive, got: seq<Moved>, ledger: Ledger)
    requires Distinct(drive.fins)
    ensures
      var after := TakeIn(drive, got);
      && Distinct(after.fins)
      && after.alloc - Committed(after.fins, ledger) ==
         drive.alloc - Committed(drive.fins, ledger) - Pending(drive, got, ledger)
  {
    if got != [] {
      var init, last := got[..|got| - 1], got[|got| - 1];
      LandingShortfall(drive, init, ledger);
      var before := TakeIn(drive, init);
      if !Hosts(before, last.name) {
        CommittedAdd(before.fins, ledger, last.name);
      }
    }
  }

  /** So a landing keeps a balanced destination balanced exactly if its slack covers the
      pending expansions. */
  lemma LandingBalanced(drive: Drive, got: seq<Moved>, ledger: Ledger)
    requires Balanced(drive, ledger) && Distinct(drive.fins) && Sizes(got) && Required(got) <= drive.free
    ensures Balanced(TakeIn(drive, got), ledger) <==>
            Pending(drive, got, ledger) <= drive.alloc - Committed(drive.fins, ledger)
  {
    LandingShortfall(drive, got, ledger);
    TakeInConserves(drive, got);
  }
}
