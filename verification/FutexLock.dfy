/** spinlock_ttas_futex: a three-valued futex lock with barging and a two-step unlock. */
module FutexLock {
  import Runs

  /** Where a thread stands between two atomic accesses to the lock word. */
  datatype Pc =
    | Idle      // outside lock and unlock
    | Test      // in the spin loop, about to load the word
    | Try       // loaded 0, about to compare-and-swap 0 to 1
    | Swap      // about to exchange the word with 2
    | Park      // about to call futex_wait(2)
    | Asleep    // in the kernel's wait queue
    | Hold      // lock() has returned
    | Clear     // unlock saw 2: about to store 0
    | Wake      // unlock stored 0: about to call futex_wake

  datatype State = State(value: int, pc: seq<Pc>)

  datatype Step =
    | Enter(t: nat)
    | Load(t: nat, giveUp: bool)
    | Cas(t: nat, giveUp: bool)
    | Exchange(t: nat)
    | FutexWait(t: nat)
    | Spurious(t: nat)
    | FetchSub(t: nat)
    | StoreZero(t: nat)
    | FutexWake(t: nat, woken: nat)

  function Init(n: nat): State {
    State(0, seq(n, _ => Idle))
  }

  ghost predicate Sleepers(s: State) {
    exists u :: 0 <= u < |s.pc| && s.pc[u] == Asleep
  }

  /** The pc a step needs, and for a wake the thread it releases (itself when nobody sleeps). */
  ghost predicate Enabled(s: State, a: Step) {
    a.t < |s.pc| &&
    match a
    case Enter(t) => s.pc[t] == Idle
    case Load(t, _) => s.pc[t] == Test
    case Cas(t, _) => s.pc[t] == Try
    case Exchange(t) => s.pc[t] == Swap
    case FutexWait(t) => s.pc[t] == Park
    case Spurious(t) => s.pc[t] == Asleep
    case FetchSub(t) => s.pc[t] == Hold
    case StoreZero(t) => s.pc[t] == Clear
    case FutexWake(t, w) =>
      s.pc[t] == Wake && if Sleepers(s) then w < |s.pc| && s.pc[w] == Asleep else w == t
  }

  /** Leaving the spin loop with the value last seen. */
  function AfterSpin(seen: int): Pc {
    if seen != 2 then Swap else Park
  }

  ghost function Apply(s: State, a: Step): State {
    if !Enabled(s, a) then s else
    match a
    case Enter(t) => s.(pc := s.pc[t := Test])
    case Load(t, giveUp) =>
      s.(pc := s.pc[t := if s.value == 0 then Try else if giveUp then AfterSpin(s.value) else Test])
    case Cas(t, giveUp) =>
      if s.value == 0 then State(1, s.pc[t := Hold])
      else s.(pc := s.pc[t := if giveUp then AfterSpin(s.value) else Test])
    case Exchange(t) => State(2, s.pc[t := if s.value == 0 then Hold else Park])
    case FutexWait(t) => s.(pc := s.pc[t := if s.value == 2 then Asleep else Swap])
    case Spurious(t) => s.(pc := s.pc[t := Swap])
    case FetchSub(t) => State(s.value - 1, s.pc[t := if s.value == 1 then Idle else Clear])
    case StoreZero(t) => State(0, s.pc[t := Wake])
    case FutexWake(t, w) => s.(pc := s.pc[w := Swap][t := Idle])
  }

  /** Owner of the lock: the holder, or an unlocker that has not stored 0 yet. */
  predicate Owns(p: Pc) {
    p == Hold || p == Clear
  }

  ghost predicate MutualExclusion(s: State) {
    forall t, u :: 0 <= t < |s.pc| && 0 <= u < |s.pc| && Owns(s.pc[t]) && Owns(s.pc[u]) ==> t == u
  }

  /** The word is non-zero exactly while the lock is owned. */
  ghost predicate WordTellsOwner(s: State) {
    && 0 <= s.value <= 2
    && (s.value != 0 <==> exists t :: 0 <= t < |s.pc| && Owns(s.pc[t]))
  }

  /** A thread that will wake a sleeper or run for the lock leaving 2 behind. */
  predicate Rescuer(p: Pc) {
    p == Clear || p == Wake || p == Swap
  }

  ghost predicate NoLostWakeUp(s: State) {
    Sleepers(s) ==> s.value == 2 || exists t :: 0 <= t < |s.pc| && Rescuer(s.pc[t])
  }

  ghost predicate Inv(s: State) {
    MutualExclusion(s) && WordTellsOwner(s) && NoLostWakeUp(s)
  }

  lemma StepKeepsOwner(s: State, a: Step)
    requires MutualExclusion(s) && WordTellsOwner(s)
    ensures MutualExclusion(Apply(s, a)) && WordTellsOwner(Apply(s, a))
  {
    if Enabled(s, a) {
      if s.value != 0 { OwnedStepKeepsOwner(s, a); } else { FreeStepKeepsOwner(s, a); }
    }
  }

  /** While thread u owns the lock only u itself can change who owns it. */
  lemma OwnedStepKeepsOwner(s: State, a: Step)
    requires MutualExclusion(s) && WordTellsOwner(s) && Enabled(s, a) && s.value != 0
    ensures MutualExclusion(Apply(s, a)) && WordTellsOwner(Apply(s, a))
  {
    var u :| 0 <= u < |s.pc| && Owns(s.pc[u]);
    var s' := Apply(s, a);
    OwnerStays(s, a, u);
    assert MutualExclusion(s');
  }

  lemma OwnerStays(s: State, a: Step, u: nat)
    requires MutualExclusion(s) && WordTellsOwner(s) && Enabled(s, a) && u < |s.pc| && Owns(s.pc[u])
    ensures var s' := Apply(s, a);
      && |s'.pc| == |s.pc| && 0 <= s'.value <= 2 && (s'.value != 0 <==> Owns(s'.pc[u]))
      && forall t :: 0 <= t < |s.pc| && t != u ==> !Owns(s'.pc[t])
  {
  }

  lemma FreeStepKeepsOwner(s: State, a: Step)
    requires MutualExclusion(s) && WordTellsOwner(s) && Enabled(s, a) && s.value == 0
    ensures MutualExclusion(Apply(s, a)) && WordTellsOwner(Apply(s, a))
  {
    assert Apply(s, a).value != 0 ==> Owns(Apply(s, a).pc[a.t]);
  }

  lemma StepKeepsWakeUp(s: State, a: Step)
    requires Inv(s)
    ensures NoLostWakeUp(Apply(s, a))
  {
    var s' := Apply(s, a);
    if Enabled(s, a) && Sleepers(s') {
      if a.FutexWake? || a.StoreZero? || Rescuer(s'.pc[a.t]) {
        var w := if a.FutexWake? then a.woken else a.t;
        assert Sleepers(s);
        assert Rescuer(s'.pc[w]);
      } else if s'.value != 2 {
        var u :| 0 <= u < |s.pc| && s'.pc[u] == Asleep;
        assert s.pc[u] == Asleep;
        assert s.value != 2;
        var r :| 0 <= r < |s.pc| && Rescuer(s.pc[r]);
        assert Rescuer(s'.pc[r]);
      }
    }
  }

  lemma StepKeepsInv(s: State, a: Step)
    requires Inv(s)
    ensures Inv(Apply(s, a))
  {
    StepKeepsOwner(s, a);
    StepKeepsWakeUp(s, a);
  }

  /** Over every run of any number of threads: mutual exclusion, and no wake-up is lost. */
  lemma AlwaysInv(n: nat, run: seq<Step>)
    ensures Inv(Runs.Exec(Apply, Init(n), run))
  {
    forall s: State, a: Step | Inv(s) ensures Inv(Apply(s, a)) { StepKeepsInv(s, a); }
    Runs.Invariant(Apply, Inv, Init(n), run);
  }

  /** Nobody sleeps once every other thread has left the lock: a sleeper is never abandoned. */
  lemma NobodyLeftAsleep(n: nat, run: seq<Step>)
    ensures var s := Runs.Exec(Apply, Init(n), run);
      (forall t :: 0 <= t < |s.pc| ==> s.pc[t] == Idle || s.pc[t] == Asleep) ==> !Sleepers(s) && s.value == 0
  {
    AlwaysInv(n, run);
  }

  /** None of the steps is a new call or a spurious wake-up. */
  predicate OwnWork(steps: seq<Step>) {
    forall k :: 0 <= k < |steps| ==> !steps[k].Enter? && !steps[k].Spurious?
  }

  ghost predicate Leads(s: State, steps: seq<Step>, w: nat) {
    var s' := Runs.Exec(Apply, s, steps); w < |s'.pc| && s'.pc[w] == Hold
  }

  ghost predicate Serves(s: State, steps: seq<Step>, w: nat, k: nat) {
    |steps| <= k && OwnWork(steps) && Leads(s, steps, w)
  }

  /** Thread w can get the lock within k steps of the threads that are there. */
  ghost predicate CanAcquire(s: State, w: nat, k: nat) {
    exists steps :: Serves(s, steps, w, k)
  }

  lemma OneMore(s: State, a: Step, w: nat, k: nat)
    requires k > 0 && !a.Enter? && !a.Spurious? && CanAcquire(Apply(s, a), w, k - 1)
    ensures CanAcquire(s, w, k)
  {
    var steps :| Serves(Apply(s, a), steps, w, k - 1);
    ServesFrom(s, a, steps, w, k);
  }

  lemma ServesFrom(s: State, a: Step, steps: seq<Step>, w: nat, k: nat)
    requires k > 0 && !a.Enter? && !a.Spurious? && Serves(Apply(s, a), steps, w, k - 1)
    ensures Serves(s, [a] + steps, w, k)
  {
    LeadsFrom(s, a, steps, w);
  }

  lemma LeadsFrom(s: State, a: Step, steps: seq<Step>, w: nat)
    ensures Leads(s, [a] + steps, w) == Leads(Apply(s, a), steps, w)
  {
    Runs.Prepend(Apply, s, a, steps);
  }

  /** A woken thread finds the word 0. */
  lemma FreeCanAcquire(s: State, w: nat, k: nat)
    requires w < |s.pc| && s.pc[w] == Swap && s.value == 0 && k >= 1
    ensures CanAcquire(s, w, k)
  {
    LeadsFrom(s, Exchange(w), [], w);
    assert Serves(s, [Exchange(w)] + [], w, k);
  }

  /** A woken thread gets the lock once the owner, if any, lets go. */
  lemma AwakeCanAcquire(s: State, w: nat, k: nat)
    requires Inv(s) && w < |s.pc| && s.pc[w] == Swap && k >= 3
    ensures CanAcquire(s, w, k)
  {
    if s.value == 0 {
      FreeCanAcquire(s, w, k);
    } else {
      var o :| 0 <= o < |s.pc| && Owns(s.pc[o]);
      var a := if s.pc[o] == Hold then FetchSub(o) else StoreZero(o);
      var s1 := Apply(s, a);
      if s1.value == 0 {
        FreeCanAcquire(s1, w, k - 1);
      } else {
        FreeCanAcquire(Apply(s1, StoreZero(o)), w, k - 2);
        OneMore(s1, StoreZero(o), w, k - 1);
      }
      OneMore(s, a, w, k);
    }
  }

  lemma WakerCanRelease(s: State, t: nat, w: nat, k: nat)
    requires Inv(s) && t < |s.pc| && w < |s.pc| && s.pc[t] == Wake && s.pc[w] == Asleep && k >= 4
    ensures CanAcquire(s, w, k)
  {
    StepKeepsInv(s, FutexWake(t, w));
    AwakeCanAcquire(Apply(s, FutexWake(t, w)), w, k - 1);
    OneMore(s, FutexWake(t, w), w, k);
  }

  lemma ClearerCanRelease(s: State, o: nat, w: nat, k: nat)
    requires Inv(s) && o < |s.pc| && w < |s.pc| && s.pc[o] == Clear && s.pc[w] == Asleep && k >= 5
    ensures CanAcquire(s, w, k)
  {
    StepKeepsInv(s, StoreZero(o));
    WakerCanRelease(Apply(s, StoreZero(o)), o, w, k - 1);
    OneMore(s, StoreZero(o), w, k);
  }

  lemma ContendedOwnerCanRelease(s: State, w: nat, k: nat)
    requires Inv(s) && w < |s.pc| && s.pc[w] == Asleep && s.value == 2 && k >= 6
    ensures CanAcquire(s, w, k)
  {
    var o :| 0 <= o < |s.pc| && Owns(s.pc[o]);
    if s.pc[o] == Hold {
      StepKeepsInv(s, FetchSub(o));
      ClearerCanRelease(Apply(s, FetchSub(o)), o, w, k - 1);
      OneMore(s, FetchSub(o), w, k);
    } else {
      ClearerCanRelease(s, o, w, k);
    }
  }

  lemma ContenderCanRelease(s: State, r: nat, w: nat, k: nat)
    requires Inv(s) && r < |s.pc| && w < |s.pc| && s.pc[r] == Swap && s.pc[w] == Asleep && k >= 7
    ensures CanAcquire(s, w, k)
  {
    StepKeepsInv(s, Exchange(r));
    ContendedOwnerCanRelease(Apply(s, Exchange(r)), w, k - 1);
    OneMore(s, Exchange(r), w, k);
  }

  lemma InvSleeperCanAcquire(s: State, w: nat, k: nat)
    requires Inv(s) && w < |s.pc| && s.pc[w] == Asleep && k >= 7
    ensures CanAcquire(s, w, k)
  {
    if s.value == 2 {
      ContendedOwnerCanRelease(s, w, k);
    } else {
      var r :| 0 <= r < |s.pc| && Rescuer(s.pc[r]);
      match s.pc[r] {
        case Wake => WakerCanRelease(s, r, w, k);
        case Clear => ClearerCanRelease(s, r, w, k);
        case Swap => ContenderCanRelease(s, r, w, k);
      }
    }
  }

  /** From every reachable state each sleeping thread can still be led to the lock, within seven steps,
      without new callers and without spurious wake-ups. */
  lemma SleeperCanAcquire(n: nat, run: seq<Step>, w: nat, k: nat)
    requires k >= 7
    ensures var s := Runs.Exec(Apply, Init(n), run); w < |s.pc| && s.pc[w] == Asleep ==> CanAcquire(s, w, k)
  {
    AlwaysInv(n, run);
    var s := Runs.Exec(Apply, Init(n), run);
    if w < |s.pc| && s.pc[w] == Asleep {
      InvSleeperCanAcquire(s, w, k);
    }
  }

  const SPIN_MAX_TESTS := 100
  const SPIN_MAX_COLLISIONS := 16

  ghost predicate Foreign(t: nat, steps: seq<Step>) {
    forall k :: 0 <= k < |steps| ==> steps[k].t != t
  }

  /** The steps of other threads move thread t only by waking it. */
  lemma {:induction false} ForeignSteps(s: State, steps: seq<Step>, t: nat)
    requires t < |s.pc| && Foreign(t, steps)
    ensures var s' := Runs.Exec(Apply, s, steps);
      |s'.pc| == |s.pc| && (s'.pc[t] == s.pc[t] || (s.pc[t] == Asleep && s'.pc[t] == Swap))
    decreases |steps|
  {
    if steps != [] {
      ForeignSteps(s, steps[..|steps| - 1], t);
      assert steps[|steps| - 1].t != t;
    }
  }

  /** The lock in the form of the source: the word is updated in place, and between any two
      atomic accesses the other threads may take any number of steps. */
  class SpinlockTtasFutex {
    var value: int
    ghost const threads: nat
    ghost var run: seq<Step>   // every atomic step taken since construction
    ghost var m: State         // the state that run has led to

    ghost predicate Valid()
      reads this
    {
      value == m.value && |m.pc| == threads && Runs.Reached(Apply, Init(threads), run, m)
    }

    constructor (ghost n: nat)
      ensures Valid() && threads == n && run == []
    {
      value := 0;
      threads := n;
      run := [];
      m := Init(n);
      new;
      Runs.Start(Apply, Init(n));
    }

    ghost method Do(a: Step)
      requires Runs.Reached(Apply, Init(threads), run, m)
      modifies this`run, this`m
      ensures run == old(run) + [a] && m == Apply(old(m), a)
      ensures Runs.Reached(Apply, Init(threads), run, m)
    {
      run, m := Runs.Then(Apply, Init(threads), run, m, a);
    }

    /** Anything the other threads may do before thread t runs again. */
    method Interfere(ghost t: nat)
      requires Valid() && t < threads
      modifies this
      ensures Valid() && old(run) <= run && Foreign(t, run[|old(run)|..])
    {
    }

    method Preempt(ghost t: nat)
      requires Valid() && t < threads
      modifies this
      ensures Valid() && old(run) <= run
      ensures m.pc[t] == old(m.pc[t]) || (old(m.pc[t]) == Asleep && m.pc[t] == Swap)
    {
      Interfere(t);
      ghost var more := run[|old(run)|..];
      assert run == old(run) + more;
      Runs.Split(Apply, Init(threads), old(run), more);
      ForeignSteps(old(m), more, t);
    }

    /** Blocks only while the word is 2, and returns woken or spuriously. */
    method FutexWait(ghost t: nat)
      requires Valid() && t < threads && m.pc[t] == Park
      modifies this
      ensures Valid() && old(run) <= run && m.pc[t] == Swap
    {
      Do(Step.FutexWait(t));
      Preempt(t);
      if m.pc[t] == Asleep {
        Do(Spurious(t));
      }
    }

    /** The test-and-test-and-set loop of lock(): it ends with the lock or with the value last seen. */
    method Spin(ghost t: nat) returns (acquired: bool, expected: int)
      requires Valid() && t < threads && m.pc[t] == Idle
      modifies this
      ensures Valid() && old(run) <= run
      ensures m.pc[t] == if acquired then Hold else AfterSpin(expected)
      ensures !acquired ==> expected != 0
    {
      var collisions, tests := 0, 0;
      acquired, expected := false, 0;
      Do(Enter(t));
      while SPIN_MAX_TESTS > tests && SPIN_MAX_COLLISIONS > collisions
        invariant Valid() && old(run) <= run && tests <= SPIN_MAX_TESTS && collisions <= SPIN_MAX_COLLISIONS
        invariant if SPIN_MAX_TESTS > tests && SPIN_MAX_COLLISIONS > collisions then m.pc[t] == Test
                  else expected != 0 && m.pc[t] == AfterSpin(expected)
        decreases SPIN_MAX_TESTS - tests + SPIN_MAX_COLLISIONS - collisions
      {
        Preempt(t);
        expected := value;
        Do(Load(t, SPIN_MAX_TESTS <= tests + 1));
        if expected != 0 {
          tests := tests + 1;
        } else {
          expected := TryCas(t, SPIN_MAX_COLLISIONS <= collisions + 1);
          if expected == 0 {
            return true, 0;
          }
          collisions := collisions + 1;
        }
      }
    }

    method TryCas(ghost t: nat, ghost last: bool) returns (seen: int)
      requires Valid() && t < threads && m.pc[t] == Try
      modifies this
      ensures Valid() && old(run) <= run
      ensures m.pc[t] == if seen == 0 then Hold else if last then AfterSpin(seen) else Test
    {
      Preempt(t);
      seen := value;
      Do(Cas(t, last));
      if seen == 0 {
        value := 1;
      }
    }

    /** lock() for thread t: it returns only as the owner. The wait loop has no bound of its own;
        `patience` rounds of it are followed, and `acquired` is false when they did not suffice. */
    method Lock(ghost t: nat, patience: nat) returns (acquired: bool)
      requires Valid() && t < threads && m.pc[t] == Idle
      modifies this
      ensures Valid() && old(run) <= run
      ensures acquired ==> m.pc[t] == Hold && value != 0
      ensures !acquired ==> m.pc[t] == Park
    {
      var expected: int;
      acquired, expected := Spin(t);
      if !acquired {
        if expected != 2 {
          expected := Swap2(t);
        }
        var rounds := patience;
        while expected != 0 && rounds > 0
          invariant Valid() && old(run) <= run && m.pc[t] == if expected == 0 then Hold else Park
          decreases rounds
        {
          Preempt(t);
          FutexWait(t);
          expected := Swap2(t);
          rounds := rounds - 1;
        }
        acquired := expected == 0;
      }
      AlwaysInv(threads, run);
    }

    method Swap2(ghost t: nat) returns (seen: int)
      requires Valid() && t < threads && m.pc[t] == Swap
      modifies this
      ensures Valid() && old(run) <= run && m.pc[t] == if seen == 0 then Hold else Park
    {
      Preempt(t);
      seen := value;
      Do(Exchange(t));
      value := 2;
    }

    /** unlock() for the owner: wakes one sleeper exactly when the word said contended. */
    method Unlock(ghost t: nat)
      requires Valid() && t < threads && m.pc[t] == Hold
      modifies this
      ensures Valid() && old(run) <= run && m.pc[t] == Idle
    {
      Preempt(t);
      var seen := value;
      Do(FetchSub(t));
      value := value - 1;
      if seen != 1 {
        Preempt(t);
        Do(StoreZero(t));
        value := 0;
        Preempt(t);
        ghost var w :| if Sleepers(m) then 0 <= w < threads && m.pc[w] == Asleep else w == t;
        Do(Step.FutexWake(t, w));
      }
    }
  }
}
