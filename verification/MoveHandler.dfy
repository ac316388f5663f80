/** The progress of the drive controller's move handler when it is left alone: it points the listed
    volumes at the drive, one record at a time, over a versioned store. Staging a volume writes the
    record behind the handler's back, so the handler's own write then conflicts and the pass ends;
    the work still gets done. */
module MoveHandler {
  import opened Objects

  datatype Outcome = ReadyAgain | Conflict | DriveChanged | Missing | Published | WrongNode

  /** The record names drive `d` in both places. */
  predicate PointsTo(r: Volume, d: DriveID) {
    r.fsuuid == d && r.driveLabel == d
  }

  /** Both places always name the same drive: CreateVolume and this handler set them together. */
  ghost predicate Agreeing(records: map<VolumeName, Volume>) {
    forall v :: v in records ==> records[v].fsuuid == records[v].driveLabel
  }

  /** The listed volumes that still point elsewhere. */
  function Strays(records: map<VolumeName, Volume>, names: seq<VolumeName>, d: DriveID): set<VolumeName> {
    set v | v in names && v in records && records[v].fsuuid != d
  }

  /** Nothing but staging can get in the way of a pass. */
  ghost predicate Movable(records: map<VolumeName, Volume>, names: seq<VolumeName>, node: nat) {
    forall v :: v in names ==> v in records && !records[v].published && records[v].node == node
  }

  /** Some listed volumes were pointed at `d`; nothing else changed. */
  ghost predicate Progress(before: map<VolumeName, Volume>, after: map<VolumeName, Volume>,
                           names: seq<VolumeName>, d: DriveID)
  {
    && after.Keys == before.Keys
    && forall v :: v in before ==>
         || after[v] == before[v]
         || (v in names && after[v] == before[v].(version := after[v].version, fsuuid := d, driveLabel := d))
  }

  /** What a pass pointed at `d` was unpublished and on the node. */
  ghost predicate Careful(before: map<VolumeName, Volume>, after: map<VolumeName, Volume>, node: nat) {
    forall v :: v in before && v in after && after[v] != before[v] ==> !before[v].published && before[v].node == node
  }

  /** Why a pass gave up: a listed volume has no record, or one that still points elsewhere and is published, on
      another node, or written by its staging. */
  ghost predicate GivesReason(out: Outcome, records: map<VolumeName, Volume>, names: seq<VolumeName>, d: DriveID, node: nat,
                              stages: VolumeName -> bool)
  {
    && (out == Missing ==> exists v :: v in names && v !in records)
    && (out == Conflict ==>
          exists v :: v in names && v in records && records[v].fsuuid != d && records[v].staged && stages(v))
    && (out == Published ==>
          exists v :: v in names && v in records && records[v].fsuuid != d && records[v].published)
    && (out == WrongNode ==>
          exists v :: v in names && v in records && records[v].fsuuid != d && !records[v].published && records[v].node != node)
  }

  lemma ProgressTrans(a: map<VolumeName, Volume>, b: map<VolumeName, Volume>, c: map<VolumeName, Volume>,
                      names: seq<VolumeName>, d: DriveID)
    requires Progress(a, b, names, d) && Progress(b, c, names, d)
    ensures Progress(a, c, names, d)
  {
  }

  /** A record that points elsewhere has not been changed; one that is pointed at last was a stray. */
  lemma GaveUp(before: map<VolumeName, Volume>, was: map<VolumeName, Volume>, after: map<VolumeName, Volume>,
               names: seq<VolumeName>, v: VolumeName, d: DriveID)
    requires v in names && Progress(before, was, names, d) && Progress(was, after, names, d) && Progress(before, after, names, d)
    ensures v in was <==> v in before
    ensures v in was && was[v].fsuuid != d ==> before[v] == was[v]
    ensures v in was && was[v].fsuuid != d && after[v].fsuuid == d ==> Strays(after, names, d) < Strays(before, names, d)
  {
    if v in was && was[v].fsuuid != d && after[v].fsuuid == d {
      assert v in Strays(before, names, d) && v !in Strays(after, names, d);
      assert Strays(after, names, d) <= Strays(before, names, d);
    }
  }

  /** The records and the drive the handler works for. */
  class Store {
    var records: map<VolumeName, Volume>
    var drive: Drive

    constructor (records: map<VolumeName, Volume>, drive: Drive)
      ensures this.records == records && this.drive == drive
    {
      this.records, this.drive := records, drive;
    }

    /** An Update lands only on the version it was read at. */
    method Update(v: VolumeName, r: Volume) returns (ok: bool)
      modifies this`records
      ensures ok <==> v in old(records) && old(records)[v].version == r.version
      ensures records == if ok then old(records)[v := r.(version := r.version + 1)] else old(records)
    {
      ok := v in records && records[v].version == r.version;
      if ok {
        records := records[v := r.(version := r.version + 1)];
      }
    }

    /** StageVolume: either fails before writing, or writes the record it was handed. The caller
        keeps its own copy, at the version it was read. */
    method StageVolume(v: VolumeName, r: Volume, works: bool)
      modifies this`records
      ensures records == if works && v in old(records) && old(records)[v].version == r.version
                         then old(records)[v := r.(version := r.version + 1)] else old(records)
    {
      if works {
        var _ := Update(v, r);
      }
    }

    /** An Update of the drive lands only on the version it was read at. */
    method UpdateDrive(copy: Drive) returns (ok: bool)
      modifies this`drive
      ensures ok <==> old(drive).version == copy.version
      ensures drive == if ok then copy.(version := copy.version + 1) else old(drive)
    {
      ok := drive.version == copy.version;
      if ok {
        drive := copy.(version := copy.version + 1);
      }
    }

    /** One pass of the handler on a copy of drive `d`. `stages(v)` says whether staging `v` gets as
        far as writing its record. */
    method Pass(d: DriveID, copy: Drive, stages: VolumeName -> bool) returns (out: Outcome)
      requires Agreeing(records)
      modifies this
      ensures Agreeing(records)
      ensures Progress(old(records), records, VolumesOf(copy.fins), d)
      ensures Careful(old(records), records, copy.node)
      ensures GivesReason(out, old(records), VolumesOf(copy.fins), d, copy.node, stages)
      ensures out == ReadyAgain ==>
                forall v :: Hosts(copy, v) ==> v in records && PointsTo(records[v], d)
      ensures out == ReadyAgain <==> drive != old(drive)
      ensures out == ReadyAgain ==>
                old(drive).version == copy.version && drive == copy.(status := Ready, version := copy.version + 1)
      ensures out == DriveChanged ==> drive.version != copy.version
      ensures out == Conflict ==> Strays(records, VolumesOf(copy.fins), d) < Strays(old(records), VolumesOf(copy.fins), d)
      ensures Movable(old(records), VolumesOf(copy.fins), copy.node) ==>
                out == ReadyAgain || out == Conflict || out == DriveChanged
    {
      var names := VolumesOf(copy.fins);
      out := PointAll(d, names, copy.node, stages);
      if out == ReadyAgain {
        forall v ensures Hosts(copy, v) <==> v in names { VolumesOfMember(copy.fins, v); }
        var ok := UpdateDrive(copy.(status := Ready));
        if !ok {
          out := DriveChanged;
        }
      }
    }

    /** One turn of the loop. */
    method PointOne(d: DriveID, v: VolumeName, node: nat, stages: bool) returns (out: Outcome)
      requires Agreeing(records)
      modifies this`records
      ensures Agreeing(records) && Progress(old(records), records, [v], d) && Careful(old(records), records, node)
      ensures out == ReadyAgain || out == Conflict ==> v in records && PointsTo(records[v], d)
      ensures out == Conflict ==> v in old(records) && old(records)[v].fsuuid != d && old(records)[v].staged && stages
      ensures out == Missing <==> v !in old(records)
      ensures out == Published <==> v in old(records) && old(records)[v].fsuuid != d && old(records)[v].published
      ensures out == WrongNode <==>
                v in old(records) && old(records)[v].fsuuid != d && !old(records)[v].published && old(records)[v].node != node
      ensures out != DriveChanged
    {
      if v !in records {
        return Missing;
      }
      var r := records[v];
      if r.fsuuid == d {
        return ReadyAgain;
      }
      if r.published {
        return Published;
      }
      if r.node != node {
        return WrongNode;
      }
      r := r.(fsuuid := d, driveLabel := d);
      if r.staged {
        StageVolume(v, r, stages);
      }
      var ok := Update(v, r);
      return if ok then ReadyAgain else Conflict;
    }

    /** The loop over the listed volumes. */
    method PointAll(d: DriveID, names: seq<VolumeName>, node: nat, stages: VolumeName -> bool) returns (out: Outcome)
      requires Agreeing(records)
      modifies this`records
      ensures Agreeing(records)
      ensures Progress(old(records), records, names, d)
      ensures Careful(old(records), records, node)
      ensures GivesReason(out, old(records), names, d, node, stages)
      ensures out == ReadyAgain ==> forall v :: v in names ==> v in records && PointsTo(records[v], d)
      ensures out == Conflict ==> Strays(records, names, d) < Strays(old(records), names, d)
      ensures out != DriveChanged
      ensures Movable(old(records), names, node) ==> out == ReadyAgain || out == Conflict
    {
      for i := 0 to |names|
        invariant Agreeing(records)
        invariant Progress(old(records), records, names, d)
        invariant Careful(old(records), records, node)
        invariant forall j :: 0 <= j < i ==> names[j] in records && PointsTo(records[names[j]], d)
      {
        ghost var was := records;
        out := PointOne(d, names[i], node, stages(names[i]));
        ProgressTrans(old(records), was, records, names, d);
        if out != ReadyAgain {
          GaveUp(old(records), was, records, names, names[i], d);
          return;
        }
      }
      return ReadyAgain;
    }

    /** The controller's retries, each on the drive as it is: with nothing but staging in the way,
        however it turns out each time, `n` stray volumes need at most `n + 1` passes; then the drive
        is Ready and every volume it lists points at it. */
    method MoveAll(d: DriveID, stages: (nat, VolumeName) -> bool) returns (passes: nat)
      requires Agreeing(records) && Movable(records, VolumesOf(drive.fins), drive.node)
      requires drive.status == Moving
      modifies this
      ensures passes <= |Strays(old(records), VolumesOf(old(drive).fins), d)| + 1
      ensures drive == old(drive).(status := Ready, version := old(drive).version + 1)
      ensures forall v :: Hosts(drive, v) ==> v in records && PointsTo(records[v], d)
      ensures Progress(old(records), records, VolumesOf(old(drive).fins), d)
    {
      passes := 0;
      ghost var names := VolumesOf(drive.fins);
      var out := Conflict;
      while out == Conflict
        invariant Agreeing(records) && Movable(records, names, old(drive).node)
        invariant Progress(old(records), records, names, d)
        invariant out == Conflict || out == ReadyAgain
        invariant out == Conflict ==> drive == old(drive)
        invariant out == Conflict ==> passes + |Strays(records, names, d)| <= |Strays(old(records), names, d)|
        invariant out == ReadyAgain ==> passes <= |Strays(old(records), names, d)| + 1
        invariant out == ReadyAgain ==> drive == old(drive).(status := Ready, version := old(drive).version + 1)
        invariant out == ReadyAgain ==> forall v :: Hosts(drive, v) ==> v in records && PointsTo(records[v], d)
        decreases out == Conflict, |Strays(records, names, d)|
      {
        ghost var was := records;
        var pass := passes;
        out := Pass(d, drive, (v: VolumeName) => stages(pass, v));
        ProgressTrans(old(records), was, records, names, d);
        if out == Conflict {
          SmallerSet(Strays(records, names, d), Strays(was, names, d));
        }
        passes := passes + 1;
      }
    }
  }

  lemma {:induction false} SmallerSet(a: set<VolumeName>, b: set<VolumeName>)
    requires a < b
    ensures |a| < |b|
  {
    var x :| x in b && x !in a;
    assert a <= b - {x};
    SubsetSize(a, b - {x});
  }

  lemma {:induction false} SubsetSize(a: set<VolumeName>, b: set<VolumeName>)
    requires a <= b
    ensures |a| <= |b|
  {
    if a != {} {
      var x :| x in a;
      SubsetSize(a - {x}, b - {x});
    }
  }
}
