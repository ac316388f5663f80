/** Per-key locking in the generic controller: any number of workers take events off the queue,
    look the key's mutex up (or create it) under the locker mutex, lock it, handle the event, look
    the mutex up again and unlock it. Every step of every worker interleaves freely. */
module Locks {
  import opened Objects

  type Key = nat
  type WorkerID = nat
  type MutexID = nat

  /** Where a worker is. `Enter` waits for the locker mutex, `Inside` holds it, and `Wait` waits for
      the key's mutex. The `Leave...` places are the same look-up on the way to unlocking. */
  datatype Place =
    | Idle
    | Enter(key: Key)
    | Inside(key: Key)
    | Wait(key: Key, mutex: MutexID)
    | Handling(key: Key, mutex: MutexID)
    | LeaveEnter(key: Key, mutex: MutexID)
    | LeaveInside(key: Key, mutex: MutexID)
    | Unlocking(key: Key, mutex: MutexID, found: MutexID)

  /** `locker` maps keys to mutexes, `owner` mutexes to the worker that locked them. The second
      component of the later places is the mutex the worker locked; the code forgets it and looks
      it up again, which is what `found` records. */
  datatype State = State(
    places: map<WorkerID, Place>,
    lockerHeld: Option<WorkerID>,
    locker: map<Key, MutexID>,
    owner: map<MutexID, WorkerID>,
    made: MutexID)

  datatype Step = Take(key: Key) | Acquire | LookUp | Lock | Finish | Unlock

  function At(s: State, w: WorkerID): Place {
    if w in s.places then s.places[w] else Idle
  }

  predicate Enabled(s: State, w: WorkerID, step: Step) {
    match step
    case Take(key) => At(s, w).Idle?
    case Acquire => (At(s, w).Enter? || At(s, w).LeaveEnter?) && s.lockerHeld.None?
    case LookUp => At(s, w).Inside? || At(s, w).LeaveInside?
    case Lock => At(s, w).Wait? && At(s, w).mutex !in s.owner
    case Finish => At(s, w).Handling?
    case Unlock => At(s, w).Unlocking?
  }

  /** The mutex getLock returns for a key: the one in the locker, or a new one. */
  function MutexFor(s: State, key: Key): MutexID {
    if key in s.locker then s.locker[key] else s.made
  }

  function Next(s: State, w: WorkerID, step: Step): State
    requires Enabled(s, w, step)
  {
    var here := At(s, w);
    match step
    case Take(key) => s.(places := s.places[w := Enter(key)])
    case Acquire =>
      s.(lockerHeld := Some(w),
         places := s.places[w := if here.Enter? then Inside(here.key) else LeaveInside(here.key, here.mutex)])
    case LookUp =>
      var m := MutexFor(s, here.key);
      s.(lockerHeld := None,
         locker := s.locker[here.key := m],
         made := if here.key in s.locker then s.made else s.made + 1,
         places := s.places[w := if here.Inside? then Wait(here.key, m) else Unlocking(here.key, here.mutex, m)])
    case Lock => s.(owner := s.owner[here.mutex := w], places := s.places[w := Handling(here.key, here.mutex)])
    case Finish => s.(places := s.places[w := LeaveEnter(here.key, here.mutex)])
    case Unlock => s.(owner := s.owner - {here.found}, places := s.places[w := Idle])
  }

  // ---------------------------------------------------------------- the invariant

  /** From locking to unlocking. */
  predicate Holding(p: Place) {
    p.Handling? || p.LeaveEnter? || p.LeaveInside? || p.Unlocking?
  }

  predicate InLocker(p: Place) {
    p.Inside? || p.LeaveInside?
  }

  ghost predicate WorkerOk(s: State, w: WorkerID) {
    var p := At(s, w);
    && (InLocker(p) <==> s.lockerHeld == Some(w))
    && (p.Wait? ==> p.key in s.locker && s.locker[p.key] == p.mutex)
    && (Holding(p) ==> && p.key in s.locker && s.locker[p.key] == p.mutex
                       && p.mutex in s.owner && s.owner[p.mutex] == w)
    && (p.Unlocking? ==> p.found == p.mutex)
  }

  /** A mutex belongs to one key. */
  ghost predicate LockerOk(s: State) {
    && (forall k :: k in s.locker ==> s.locker[k] < s.made)
    && (forall k, k' :: k in s.locker && k' in s.locker && s.locker[k] == s.locker[k'] ==> k == k')
  }

  ghost predicate OwnerOk(s: State, m: MutexID) {
    m in s.owner ==> m < s.made && Holding(At(s, s.owner[m])) && At(s, s.owner[m]).mutex == m
  }

  ghost predicate Inv(s: State) {
    && (forall w :: WorkerOk(s, w))
    && LockerOk(s)
    && (forall m :: OwnerOk(s, m))
  }

  lemma WorkerStep(s: State, w: WorkerID, step: Step, x: WorkerID)
    requires Inv(s) && Enabled(s, w, step)
    ensures WorkerOk(Next(s, w, step), x)
  {
    assert WorkerOk(s, w) && WorkerOk(s, x);
  }

  lemma OwnerStep(s: State, w: WorkerID, step: Step, m: MutexID)
    requires Inv(s) && Enabled(s, w, step)
    ensures OwnerOk(Next(s, w, step), m)
  {
    assert WorkerOk(s, w) && OwnerOk(s, m);
  }

  lemma InvStep(s: State, w: WorkerID, step: Step)
    requires Inv(s) && Enabled(s, w, step)
    ensures Inv(Next(s, w, step))
  {
    var s' := Next(s, w, step);
    forall x ensures WorkerOk(s', x) { WorkerStep(s, w, step, x); }
    forall m ensures OwnerOk(s', m) { OwnerStep(s, w, step, m); }
    assert LockerOk(s');
  }

  // ---------------------------------------------------------------- runs

  datatype Move = Move(worker: WorkerID, step: Step)

  ghost predicate Runs(s: State, moves: seq<Move>)
    decreases |moves|
  {
    moves == [] || (Enabled(s, moves[0].worker, moves[0].step) && Runs(Next(s, moves[0].worker, moves[0].step), moves[1..]))
  }

  ghost function After(s: State, moves: seq<Move>): State
    requires Runs(s, moves)
    decreases |moves|
  {
    if moves == [] then s else After(Next(s, moves[0].worker, moves[0].step), moves[1..])
  }

  function Start(): State {
    State(map[], None, map[], map[], 0)
  }

  lemma {:induction false} InvRun(s: State, moves: seq<Move>)
    requires Inv(s) && Runs(s, moves)
    ensures Inv(After(s, moves))
    ensures forall k :: k in s.locker ==> k in After(s, moves).locker && After(s, moves).locker[k] == s.locker[k]
    decreases |moves|
  {
    if moves != [] {
      InvStep(s, moves[0].worker, moves[0].step);
      InvRun(Next(s, moves[0].worker, moves[0].step), moves[1..]);
    }
  }

  // ---------------------------------------------------------------- theorems

  /** At most one worker handles a key, in every interleaving. */
  lemma MutualExclusion(moves: seq<Move>, w: WorkerID, w': WorkerID)
    requires Runs(Start(), moves)
    requires Holding(At(After(Start(), moves), w)) && Holding(At(After(Start(), moves), w'))
    requires At(After(Start(), moves), w).key == At(After(Start(), moves), w').key
    ensures w == w'
  {
    InvRun(Start(), moves);
    var s := After(Start(), moves);
    assert WorkerOk(s, w) && WorkerOk(s, w');
  }

  /** A key's mutex is created once and never replaced. */
  lemma MutexPermanent(moves: seq<Move>, more: seq<Move>, key: Key)
    requires Runs(Start(), moves) && Runs(After(Start(), moves), more)
    requires key in After(Start(), moves).locker
    ensures
      var later := After(After(Start(), moves), more);
      key in later.locker && later.locker[key] == After(Start(), moves).locker[key]
  {
    InvRun(Start(), moves);
    InvRun(After(Start(), moves), more);
  }

  /** An unlock releases the mutex its worker locked, and nobody else's. */
  lemma UnlocksItsOwn(moves: seq<Move>, w: WorkerID)
    requires Runs(Start(), moves) && Enabled(After(Start(), moves), w, Unlock)
    ensures
      var s := After(Start(), moves);
      var m := At(s, w).found;
      && m == At(s, w).mutex && m in s.owner && s.owner[m] == w
      && Next(s, w, Unlock).owner == s.owner - {m}
      && forall x :: x != w && Holding(At(s, x)) ==>
           At(s, x).mutex in Next(s, w, Unlock).owner && Next(s, w, Unlock).owner[At(s, x).mutex] == x
  {
    InvRun(Start(), moves);
    var s := After(Start(), moves);
    assert WorkerOk(s, w);
    forall x | x != w && Holding(At(s, x)) ensures At(s, x).mutex in s.owner && s.owner[At(s, x).mutex] == x {
      assert WorkerOk(s, x);
    }
  }

  /** `w` cannot go on before `x` lets go of something. */
  ghost predicate WaitsFor(s: State, w: WorkerID, x: WorkerID) {
    var p := At(s, w);
    || ((p.Enter? || p.LeaveEnter?) && s.lockerHeld == Some(x))
    || (p.Wait? && p.mutex in s.owner && s.owner[p.mutex] == x)
  }

  /** The locker's holder waits for nobody, a key's holder at most for the locker. */
  function Rank(s: State, w: WorkerID): nat {
    if s.lockerHeld == Some(w) then 0 else if Holding(At(s, w)) then 1 else 2
  }

  lemma WaitingDescends(s: State, w: WorkerID, x: WorkerID)
    requires Inv(s) && WaitsFor(s, w, x)
    ensures Rank(s, x) < Rank(s, w)
  {
    assert WorkerOk(s, w) && WorkerOk(s, x);
    if At(s, w).Wait? {
      assert OwnerOk(s, At(s, w).mutex);
    }
  }

  ghost predicate WaitingChain(s: State, chain: seq<WorkerID>) {
    forall i :: 0 <= i < |chain| - 1 ==> WaitsFor(s, chain[i], chain[i + 1])
  }

  lemma {:induction false} ChainDescends(s: State, chain: seq<WorkerID>)
    requires Inv(s) && |chain| > 1 && WaitingChain(s, chain)
    ensures Rank(s, chain[|chain| - 1]) < Rank(s, chain[0])
  {
    var n := |chain| - 1;
    WaitingDescends(s, chain[n - 1], chain[n]);
    if n > 1 {
      ChainDescends(s, chain[..n]);
    }
  }

  /** Workers never wait for each other in a circle. */
  lemma NoWaitingCycle(moves: seq<Move>, chain: seq<WorkerID>)
    requires Runs(Start(), moves) && |chain| > 1
    requires chain[0] == chain[|chain| - 1]
    ensures !WaitingChain(After(Start(), moves), chain)
  {
    InvRun(Start(), moves);
    if WaitingChain(After(Start(), moves), chain) {
      ChainDescends(After(Start(), moves), chain);
    }
  }

  /** Whenever a worker has taken an event, some worker can go on with its own. */
  lemma NoDeadlock(moves: seq<Move>, w: WorkerID)
    requires Runs(Start(), moves) && !At(After(Start(), moves), w).Idle?
    ensures exists x, step :: !At(After(Start(), moves), x).Idle? && Enabled(After(Start(), moves), x, step)
  {
    InvRun(Start(), moves);
    var s := After(Start(), moves);
    var x := Mover(s, w);
    var step := NextStepOf(At(s, x));
    assert Enabled(s, x, step);
  }

  function NextStepOf(p: Place): Step
    requires !p.Idle?
  {
    match p
    case Enter(_) => Acquire
    case LeaveEnter(_, _) => Acquire
    case Inside(_) => LookUp
    case LeaveInside(_, _) => LookUp
    case Wait(_, _) => Lock
    case Handling(_, _) => Finish
    case Unlocking(_, _, _) => Unlock
  }

  /** Following who waits for whom from `w` ends at a worker that can move. */
  lemma Mover(s: State, w: WorkerID) returns (x: WorkerID)
    requires Inv(s) && !At(s, w).Idle?
    ensures !At(s, x).Idle? && Enabled(s, x, NextStepOf(At(s, x)))
    decreases Rank(s, w)
  {
    assert WorkerOk(s, w);
    if Enabled(s, w, NextStepOf(At(s, w))) {
      x := w;
    } else {
      var p := At(s, w);
      var y := if p.Wait? then s.owner[p.mutex] else s.lockerHeld.value;
      assert WorkerOk(s, y);
      WaitingDescends(s, w, y);
      x := Mover(s, y);
    }
  }

  /** The locker itself. */
  class Locker {
    var locker: map<Key, MutexID>
    var made: MutexID

    ghost predicate Mirrors(s: State)
      reads this
    {
      locker == s.locker && made == s.made
    }

    /** Run by worker `w` inside the locker mutex, getLock is the look-up of the state machine, and on the
        way out it finds the mutex the worker has locked. */
    method GetLock(key: Key, ghost s: State, ghost w: WorkerID) returns (m: MutexID)
      requires Inv(s) && Enabled(s, w, LookUp) && At(s, w).key == key && Mirrors(s)
      modifies this
      ensures Mirrors(Next(s, w, LookUp)) && Inv(Next(s, w, LookUp))
      ensures At(s, w).Inside? ==> At(Next(s, w, LookUp), w) == Wait(key, m)
      ensures At(s, w).LeaveInside? ==> m == At(s, w).mutex && At(Next(s, w, LookUp), w) == Unlocking(key, m, m)
    {
      InvStep(s, w, LookUp);
      assert WorkerOk(s, w);
      if key !in locker {
        locker := locker[key := made];
        made := made + 1;
      }
      m := locker[key];
    }
  }
}
