/** Error conditions, device sync, and when a drive becomes Ready again. */
module Health {
  import opened Objects

  datatype ConditionType = MountError | MultipleMatches | IOError | RelabelError | OtherCondition(id: nat)

  datatype Condition = Condition(kind: ConditionType, time: int)

  predicate IsErrorType(t: ConditionType) {
    !t.OtherCondition?
  }

  /** The part of a drive that device sync decides. */
  datatype Health = Health(status: DriveStatus, conditions: seq<Condition>, relabel: bool)

  // ---------------------------------------------------------------- conditions

  /** setErrorCondition: replace the first condition of the type, or append. */
  function WithCondition(cs: seq<Condition>, c: Condition): seq<Condition> {
    if cs == [] then [c]
    else if cs[0].kind == c.kind then [c] + cs[1..]
    else [cs[0]] + WithCondition(cs[1..], c)
  }

  /** One condition per type. */
  ghost predicate Unique(cs: seq<Condition>) {
    forall i, j :: 0 <= i < j < |cs| ==> cs[i].kind != cs[j].kind
  }

  /** Everything happened before `now`. */
  ghost predicate Past(cs: seq<Condition>, now: int) {
    forall i :: 0 <= i < |cs| ==> cs[i].time < now
  }

  /** The first of the latest error conditions among the first `n`. */
  ghost predicate IsLatest(cs: seq<Condition>, n: nat, latest: Option<nat>)
    requires n <= |cs|
  {
    match latest
    case None => forall i :: 0 <= i < n ==> !IsErrorType(cs[i].kind)
    case Some(k) =>
      && k < n && IsErrorType(cs[k].kind)
      && (forall i :: 0 <= i < n && IsErrorType(cs[i].kind) ==> cs[i].time <= cs[k].time)
      && (forall i :: 0 <= i < k && IsErrorType(cs[i].kind) ==> cs[i].time < cs[k].time)
  }

  /** GetLatestErrorConditionType, as a value. */
  function LatestIndex(cs: seq<Condition>, n: nat): (k: Option<nat>)
    requires n <= |cs|
    ensures IsLatest(cs, n, k)
  {
    if n == 0 then None
    else
      var before := LatestIndex(cs, n - 1);
      if IsErrorType(cs[n - 1].kind) && (before.None? || cs[n - 1].time > cs[before.value].time) then Some(n - 1)
      else before
  }

  function LatestType(cs: seq<Condition>): (t: Option<ConditionType>) {
    match LatestIndex(cs, |cs|)
    case None => None
    case Some(k) => Some(cs[k].kind)
  }

  lemma {:induction false} WithConditionShape(cs: seq<Condition>, c: Condition)
    requires Unique(cs)
    ensures
      var after := WithCondition(cs, c);
      && Unique(after)
      && c in after
      && (forall x :: x in after ==> x == c || (x in cs && x.kind != c.kind))
      && (forall x :: x in cs && x.kind != c.kind ==> x in after)
  {
    if cs != [] {
      var rest := cs[1..];
      assert cs == [cs[0]] + rest;
      WithConditionShape(rest, c);
      if cs[0].kind != c.kind {
        var after := WithCondition(rest, c);
        forall i | 0 <= i < |after| ensures after[i].kind != cs[0].kind {
          assert after[i] in after;
          if after[i] != c {
            var j :| 0 <= j < |rest| && rest[j] == after[i];
            assert cs[j + 1] == rest[j];
          }
        }
      }
    }
  }

  /** Set with a later time than anything before, a condition is the latest one. */
  lemma LatestIsLastSet(cs: seq<Condition>, c: Condition)
    requires Unique(cs) && Past(cs, c.time) && IsErrorType(c.kind)
    ensures LatestType(WithCondition(cs, c)) == Some(c.kind)
    ensures Unique(WithCondition(cs, c)) && Past(WithCondition(cs, c), c.time + 1)
  {
    WithConditionShape(cs, c);
    var after := WithCondition(cs, c);
    var i :| 0 <= i < |after| && after[i] == c;
    forall j | 0 <= j < |after| ensures after[j].time < c.time + 1 {
      assert after[j] in after;
    }
    var k := LatestIndex(after, |after|).value;
    assert after[k] in after;
  }

  function SetAll(cs: seq<Condition>, sets: seq<Condition>): seq<Condition> {
    if sets == [] then cs else WithCondition(SetAll(cs, sets[..|sets| - 1]), sets[|sets| - 1])
  }

  /** After any sequence of sets under a strictly increasing clock, conditions are unique per
      type and the latest-error query answers the type set last. */
  lemma {:induction false} LatestAfterSets(sets: seq<Condition>)
    requires forall i, j :: 0 <= i < j < |sets| ==> sets[i].time < sets[j].time
    requires forall i :: 0 <= i < |sets| ==> IsErrorType(sets[i].kind)
    ensures Unique(SetAll([], sets))
    ensures sets != [] ==> Past(SetAll([], sets), sets[|sets| - 1].time + 1)
    ensures LatestType(SetAll([], sets)) == if sets == [] then None else Some(sets[|sets| - 1].kind)
  {
    if sets != [] {
      var n := |sets| - 1;
      LatestAfterSets(sets[..n]);
      LatestIsLastSet(SetAll([], sets[..n]), sets[n]);
    }
  }

  /** With equal times the query keeps answering the older error: a clock that only has
      seconds forgets the last one. */
  lemma TieForgetsLastError()
    ensures LatestType(SetAll([], [Condition(MountError, 5), Condition(IOError, 5)])) == Some(MountError)
  {
    var first, second := Condition(MountError, 5), Condition(IOError, 5);
    var sets := [first, second];
    assert sets[..1] == [first] && [first][..0] == [];
    assert SetAll([], [first]) == WithCondition(SetAll([], []), first) == [first];
    assert SetAll([], sets) == WithCondition([first], second);
    assert [first][1..] == [];
    assert WithCondition([first], second) == [first] + WithCondition([], second) == sets;
    assert LatestIndex(sets, 1) == Some(0);
    assert LatestIndex(sets, 2) == Some(0);
  }

  /** Where the conditions of a type are, or go. */
  function Place(cs: seq<Condition>, kind: ConditionType): (p: nat)
    ensures p <= |cs|
  {
    if cs == [] || cs[0].kind == kind then 0 else 1 + Place(cs[1..], kind)
  }

  lemma {:induction false} WithConditionAt(cs: seq<Condition>, c: Condition)
    requires Unique(cs)
    ensures
      var p := Place(cs, c.kind);
      && WithCondition(cs, c) == (if p < |cs| then cs[p := c] else cs + [c])
      && (forall i :: 0 <= i < |cs| && i != p ==> cs[i].kind != c.kind)
  {
    if cs != [] {
      var rest := cs[1..];
      assert cs == [cs[0]] + rest;
      if cs[0].kind == c.kind {
        forall i | 0 < i < |cs| ensures cs[i].kind != c.kind {}
      } else {
        WithConditionAt(rest, c);
        var p := Place(rest, c.kind);
        assert p < |rest| ==> cs[p + 1 := c] == [cs[0]] + rest[p := c];
        assert cs + [c] == [cs[0]] + (rest + [c]);
        forall i | 0 <= i < |cs| && i != p + 1 ensures cs[i].kind != c.kind {
          if i > 0 { assert cs[i] == rest[i - 1]; }
        }
      }
    }
  }

  /** No other error is younger, nor as old and listed before. */
  ghost predicate Leads(cs: seq<Condition>, p: nat, c: Condition) {
    forall i :: 0 <= i < |cs| && i != p && IsErrorType(cs[i].kind) ==>
      cs[i].time < c.time || (cs[i].time == c.time && i > p)
  }

  lemma LatestLeads(cs: seq<Condition>, p: nat, k: nat)
    requires p < |cs| && IsErrorType(cs[p].kind) && IsLatest(cs, |cs|, Some(k))
    ensures k == p <==> Leads(cs, p, cs[p])
  {
  }

  lemma LeadsSame(cs: seq<Condition>, after: seq<Condition>, p: nat, c: Condition)
    requires |cs| <= |after| && (|cs| < |after| ==> p == |cs| == |after| - 1)
    requires forall i :: 0 <= i < |cs| && i != p ==> after[i] == cs[i]
    ensures Leads(after, p, c) <==> Leads(cs, p, c)
  {
    if Leads(after, p, c) {
      forall i | 0 <= i < |cs| && i != p && IsErrorType(cs[i].kind)
        ensures cs[i].time < c.time || (cs[i].time == c.time && i > p)
      {
        assert after[i] == cs[i];
      }
    }
  }

  /** Whatever the clock does: the query answers the error set last exactly if that one leads the
      errors of the other types. */
  lemma LatestExactly(cs: seq<Condition>, c: Condition)
    requires Unique(cs) && IsErrorType(c.kind)
    ensures LatestType(WithCondition(cs, c)) == Some(c.kind) <==> Leads(cs, Place(cs, c.kind), c)
  {
    WithConditionAt(cs, c);
    var p, after := Place(cs, c.kind), WithCondition(cs, c);
    LeadsSame(cs, after, p, c);
    var latest := LatestIndex(after, |after|);
    assert IsErrorType(after[p].kind);
    LatestLeads(after, p, latest.value);
  }

  // ---------------------------------------------------------------- device sync

  /** The outcome of creating the volume root symlink. */
  datatype Link = Linked | LinkExists | LinkFails

  /** One device sync of one drive: how many devices carry its FSUUID, whether the one found
      mounts, and how relabelling goes if it is asked for. */
  datatype Sync =
    | NoDevice
    | SeveralDevices
    | OneDevice(mounts: bool, link: Link)

  predicate Recoverable(t: Option<ConditionType>) {
    t == Some(MountError) || t == Some(MultipleMatches) || t == Some(RelabelError)
  }

  /** verifyDrive. */
  function Verified(h: Health, mounts: bool, link: Link, now: int): Health {
    if !(h.status in {Ready, Lost, Error, Moving}) then h
    else if !mounts then h.(status := Error, conditions := WithCondition(h.conditions, Condition(MountError, now)))
    else
      var found := if h.status == Lost then Ready else h.status;
      var latest := LatestType(h.conditions);
      var checked := if found == Error && Recoverable(latest) then Ready else found;
      if !h.relabel then h.(status := checked)
      else if link != LinkFails then h.(status := checked, relabel := false)
      else if latest != Some(IOError) then
        h.(status := Error, conditions := WithCondition(h.conditions, Condition(RelabelError, now)))
      else h.(status := checked)
  }

  /** updateDrive. */
  function Synced(h: Health, sync: Sync, now: int): Health {
    match sync
    case NoDevice => h.(status := Lost)
    case SeveralDevices =>
      h.(status := Error, conditions := WithCondition(h.conditions, Condition(MultipleMatches, now)))
    case OneDevice(mounts, link) => Verified(h, mounts, link, now)
  }

  /** The condition of the type is set now, and those of other types are as they were. */
  ghost predicate SetNow(before: seq<Condition>, kind: ConditionType, now: int, after: seq<Condition>) {
    && Condition(kind, now) in after
    && forall c: Condition :: c.kind != kind ==> (c in after <==> c in before)
  }

  /** Relabelling is asked for, fails, and is not excused by an I/O error. */
  predicate RelabelFails(h: Health, link: Link) {
    h.relabel && link == LinkFails && LatestType(h.conditions) != Some(IOError)
  }

  /** An error that a working mount settles. */
  predicate Settled(h: Health) {
    h.status == Error && LatestType(h.conditions) in {Some(MountError), Some(MultipleMatches), Some(RelabelError)}
  }

  /** What a sync comes to. Without a device the drive is Lost; with several it is in Error; a drive that is
      Removed or Repairing is left alone; one that does not mount is in Error; and one that mounts is Ready if
      it was, was Lost, or its error is settled, and otherwise as it was, unless relabelling fails. */
  ghost predicate Comes(h: Health, sync: Sync, now: int, after: Health) {
    match sync
    case NoDevice => after.status == Lost && after.conditions == h.conditions && after.relabel == h.relabel
    case SeveralDevices =>
      after.status == Error && SetNow(h.conditions, MultipleMatches, now, after.conditions) && after.relabel == h.relabel
    case OneDevice(mounts, link) =>
      if h.status == Removed || h.status == Repairing then after == h
      else if !mounts then
        after.status == Error && SetNow(h.conditions, MountError, now, after.conditions) && after.relabel == h.relabel
      else
        && (after.relabel <==> h.relabel && link == LinkFails)
        && if RelabelFails(h, link) then
             after.status == Error && SetNow(h.conditions, RelabelError, now, after.conditions)
           else
             && after.conditions == h.conditions
             && (after.status == Ready <==> h.status == Ready || h.status == Lost || Settled(h))
             && (after.status == Error <==> h.status == Error && !Settled(h))
             && (after.status == Moving <==> h.status == Moving)
  }

  lemma {:induction false} SetSets(cs: seq<Condition>, c: Condition)
    ensures SetNow(cs, c.kind, c.time, WithCondition(cs, c))
  {
    if cs != [] {
      assert cs == [cs[0]] + cs[1..];
      SetSets(cs[1..], c);
    }
  }

  lemma SyncComes(h: Health, sync: Sync, now: int)
    ensures Comes(h, sync, now, Synced(h, sync, now))
  {
    SetSets(h.conditions, Condition(MultipleMatches, now));
    SetSets(h.conditions, Condition(MountError, now));
    SetSets(h.conditions, Condition(RelabelError, now));
  }

  /** A sync leaves the drive Ready if and only if one device is there and mounts, the drive was Ready, Lost,
      or in an error that this settles, and no relabelling fails. */
  lemma ReadyAfterSyncExactly(h: Health, sync: Sync, now: int)
    ensures Synced(h, sync, now).status == Ready <==>
            sync.OneDevice? && sync.mounts && !RelabelFails(h, sync.link) &&
            (h.status == Ready || h.status == Lost || Settled(h))
  {
    SyncComes(h, sync, now);
  }

  /** A run of syncs, at times `from`, `from + 1`, ... */
  function SyncRun(h: Health, syncs: seq<Sync>, from: int): Health
    decreases |syncs|
  {
    if syncs == [] then h else SyncRun(Synced(h, syncs[0], from), syncs[1..], from + 1)
  }

  /** In error, and the latest error is an I/O error. */
  ghost predicate Sick(h: Health) {
    h.status == Error && LatestType(h.conditions) == Some(IOError)
  }

  /** A sync with a working mount would bring the drive back. */
  ghost predicate Curable(h: Health) {
    h.status == Ready || h.status == Lost || (h.status == Error && Recoverable(LatestType(h.conditions)))
  }

  ghost predicate Sane(h: Health, now: int) {
    Unique(h.conditions) && Past(h.conditions, now)
  }

  /** The syncs that hide an I/O error: the device is missing, ambiguous, or does not mount. */
  predicate Disturbs(sync: Sync) {
    !(sync.OneDevice? && sync.mounts)
  }

  /** SetIOError makes a drive sick. */
  lemma IOErrorSickens(h: Health, now: int)
    requires Sane(h, now)
    ensures Sick(h.(status := Error, conditions := WithCondition(h.conditions, Condition(IOError, now))))
  {
    LatestIsLastSet(h.conditions, Condition(IOError, now));
  }

  lemma SaneStep(h: Health, sync: Sync, now: int)
    requires Sane(h, now)
    ensures Sane(Synced(h, sync, now), now + 1)
  {
    LatestIsLastSet(h.conditions, Condition(MountError, now));
    LatestIsLastSet(h.conditions, Condition(MultipleMatches, now));
    LatestIsLastSet(h.conditions, Condition(RelabelError, now));
  }

  lemma SickStep(h: Health, sync: Sync, now: int)
    requires Sane(h, now) && Sick(h)
    ensures if Disturbs(sync) then Curable(Synced(h, sync, now)) else Sick(Synced(h, sync, now))
  {
    LatestIsLastSet(h.conditions, Condition(MountError, now));
    LatestIsLastSet(h.conditions, Condition(MultipleMatches, now));
  }

  lemma CurableStep(h: Health, sync: Sync, now: int)
    requires Sane(h, now) && Curable(h)
    ensures Curable(Synced(h, sync, now))
    ensures sync.OneDevice? && sync.mounts && sync.link != LinkFails ==> Synced(h, sync, now).status == Ready
  {
    LatestIsLastSet(h.conditions, Condition(MountError, now));
    LatestIsLastSet(h.conditions, Condition(MultipleMatches, now));
    LatestIsLastSet(h.conditions, Condition(RelabelError, now));
  }

  lemma {:induction false} CurableRun(h: Health, syncs: seq<Sync>, from: int)
    requires Sane(h, from) && Curable(h)
    ensures Curable(SyncRun(h, syncs, from)) && Sane(SyncRun(h, syncs, from), from + |syncs|)
    decreases |syncs|
  {
    if syncs != [] {
      CurableStep(h, syncs[0], from);
      SaneStep(h, syncs[0], from);
      CurableRun(Synced(h, syncs[0], from), syncs[1..], from + 1);
    }
  }

  /** A sick drive stays sick exactly through the runs without a disturbing sync; any
      disturbing sync makes it curable for good. */
  lemma {:induction false} SickRun(h: Health, syncs: seq<Sync>, from: int)
    requires Sane(h, from) && Sick(h)
    ensures Sane(SyncRun(h, syncs, from), from + |syncs|)
    ensures
      if exists i :: 0 <= i < |syncs| && Disturbs(syncs[i]) then Curable(SyncRun(h, syncs, from))
      else Sick(SyncRun(h, syncs, from))
    decreases |syncs|
  {
    if syncs != [] {
      var next, rest := Synced(h, syncs[0], from), syncs[1..];
      SickStep(h, syncs[0], from);
      SaneStep(h, syncs[0], from);
      if Disturbs(syncs[0]) {
        CurableRun(next, rest, from + 1);
      } else {
        SickRun(next, rest, from + 1);
        if i :| 0 <= i < |syncs| && Disturbs(syncs[i]) {
          assert Disturbs(rest[i - 1]);
        }
        if j :| 0 <= j < |rest| && Disturbs(rest[j]) {
          assert Disturbs(syncs[j + 1]);
        }
      }
    }
  }

  /** An I/O error sticks: over any run of single-device syncs with successful mounts, whatever
      relabelling does, the drive does not become Ready. */
  lemma IOErrorSticks(h: Health, syncs: seq<Sync>, from: int)
    requires Sane(h, from) && Sick(h)
    requires forall i :: 0 <= i < |syncs| ==> syncs[i].OneDevice? && syncs[i].mounts
    ensures SyncRun(h, syncs, from).status == Error
    ensures LatestType(SyncRun(h, syncs, from).conditions) == Some(IOError)
  {
    SickRun(h, syncs, from);
  }

  /** Over all runs: a clean sync after the run finds the drive Ready if and only if some sync in
      the run saw no device, several devices or a failing mount. */
  lemma ReadyAgainExactly(h: Health, syncs: seq<Sync>, from: int)
    requires Sane(h, from) && Sick(h)
    ensures
      var last := Synced(SyncRun(h, syncs, from), OneDevice(true, Linked), from + |syncs|);
      last.status == Ready <==> exists i :: 0 <= i < |syncs| && Disturbs(syncs[i])
  {
    SickRun(h, syncs, from);
    var after := SyncRun(h, syncs, from);
    if exists i :: 0 <= i < |syncs| && Disturbs(syncs[i]) {
      CurableStep(after, OneDevice(true, Linked), from + |syncs|);
    } else {
      SickStep(after, OneDevice(true, Linked), from + |syncs|);
    }
  }

  // ---------------------------------------------------------------- the object

  class HealthObject {
    var status: DriveStatus
    var conditions: seq<Condition>
    var relabel: bool

    function View(): Health
      reads this
    {
      Health(status, conditions, relabel)
    }

    method SetErrorCondition(kind: ConditionType, now: int)
      modifies this`conditions
      ensures conditions == WithCondition(old(conditions), Condition(kind, now))
    {
      var c := Condition(kind, now);
      for i := 0 to |conditions|
        invariant conditions == old(conditions)
        invariant WithCondition(old(conditions), c) == conditions[..i] + WithCondition(conditions[i..], c)
      {
        if conditions[i].kind == kind {
          conditions := conditions[i := c];
          assert conditions == old(conditions)[..i] + ([c] + old(conditions)[i..][1..]);
          return;
        }
        assert conditions[i..][1..] == conditions[i + 1..];
        assert conditions[..i + 1] == conditions[..i] + [conditions[i]];
      }
      assert conditions[|conditions|..] == [] && conditions[..|conditions|] == conditions;
      conditions := conditions + [c];
    }

    method GetLatestErrorConditionType() returns (latest: Option<ConditionType>)
      ensures latest == LatestType(conditions)
    {
      var best: Option<nat> := None;
      for i := 0 to |conditions|
        invariant best == LatestIndex(conditions, i)
      {
        if IsErrorType(conditions[i].kind) {
          if best.None? || conditions[i].time > conditions[best.value].time {
            best := Some(i);
          }
        }
      }
      latest := if best.None? then None else Some(conditions[best.value].kind);
    }

    /** verifyDrive: whether the drive has to be written back. */
    method VerifyDrive(mounts: bool, link: Link, now: int) returns (updated: bool)
      modifies this
      ensures View() == Verified(old(View()), mounts, link, now)
      ensures Comes(old(View()), OneDevice(mounts, link), now, View())
      ensures !updated ==> View() == old(View())
    {
      SyncComes(View(), OneDevice(mounts, link), now);
      updated := false;
      if !(status in {Ready, Lost, Error, Moving}) {
        return false;
      }
      if !mounts {
        status := Error;
        SetErrorCondition(MountError, now);
        return true;
      }
      if status == Lost {
        updated := true;
        status := Ready;
      }
      var latest := GetLatestErrorConditionType();
      if status == Error {
        if latest == Some(MountError) || latest == Some(MultipleMatches) || latest == Some(RelabelError) {
          updated := true;
          status := Ready;
        }
      }
      if !relabel {
        return updated;
      }
      if link == LinkFails {
        if latest != Some(IOError) {
          status := Error;
          SetErrorCondition(RelabelError, now);
        }
      } else {
        relabel := false;
      }
      return true;
    }

    /** updateDrive's decision by the number of matching devices. */
    method UpdateDrive(sync: Sync, now: int) returns (updated: bool)
      modifies this
      ensures View() == Synced(old(View()), sync, now)
      ensures Comes(old(View()), sync, now, View())
      ensures !updated ==> View() == old(View())
    {
      SyncComes(View(), sync, now);
      match sync
      case NoDevice =>
        updated := status != Lost;
        status := Lost;
      case SeveralDevices =>
        updated := true;
        status := Error;
        SetErrorCondition(MultipleMatches, now);
      case OneDevice(mounts, link) =>
        updated := VerifyDrive(mounts, link, now);
    }
  }
}
