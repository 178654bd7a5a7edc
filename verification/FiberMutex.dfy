/** mutex and recursive_mutex of one scheduler's fibers. A fiber runs without interruption between its
    suspension points, so each step below is one such segment. */
module FiberMutex {
  import opened Lists
  import opened Options
  import Runs

  type Fiber = nat

  /** The lock word of both kinds; a plain mutex keeps the count at 1 while owned. */
  datatype Word = Word(owner: Option<Fiber>, count: nat, queue: seq<Fiber>)

  const FREE := Word(None, 0, [])

  /** lock() by a fiber that is not the owner: it owns a free lock, and queues for a taken one. */
  function Acquire(l: Word, f: Fiber): Word {
    if l.owner == None then l.(owner := Some(f), count := 1) else l.(queue := l.queue + [f])
  }

  /** The last unlock() of the owner: the front waiter becomes the owner on the spot. */
  function Release(l: Word): Word {
    if l.queue == [] then l.(owner := None, count := 0) else Word(Some(l.queue[0]), 1, l.queue[1..])
  }

  datatype Pc =
    | Running
    | Waiting                 // linked in the wait queue and suspended
    | Woken                   // made owner and ready by an unlock, not resumed yet
    | Yielding(held: bool)    // inside try_lock's yield, with what it held before it

  /** `arrived` logs who queued, `granted` to whom an unlock handed the lock. */
  datatype State = State(recursive: bool, lock: Word, pc: seq<Pc>, arrived: seq<Fiber>, granted: seq<Fiber>)

  datatype Step = CallLock(f: Fiber) | CallTryLock(f: Fiber) | TryLockReturns(f: Fiber) | Resume(f: Fiber) | CallUnlock(f: Fiber)

  function Init(recursive: bool, n: nat): State {
    State(recursive, FREE, seq(n, _ => Running), [], [])
  }

  predicate Enabled(s: State, a: Step) {
    a.f < |s.pc| &&
    match a
    case CallLock(f) => s.pc[f].Running?
    case CallTryLock(f) => s.pc[f].Running?
    case TryLockReturns(f) => s.pc[f].Yielding?
    case Resume(f) => s.pc[f].Woken?
    case CallUnlock(f) => s.pc[f].Running?
  }

  function LockStep(s: State, f: Fiber): State
    requires f < |s.pc|
  {
    if s.lock.owner == Some(f) then
      if s.recursive then s.(lock := s.lock.(count := s.lock.count + 1))
      else s   // lock_error: deadlock detected
    else if s.lock.owner == None then s.(lock := Acquire(s.lock, f))
    else s.(lock := Acquire(s.lock, f), pc := s.pc[f := Waiting], arrived := s.arrived + [f])
  }

  function TryLockStep(s: State, f: Fiber): State
    requires f < |s.pc|
  {
    if s.lock.owner == Some(f) && !s.recursive then s   // lock_error: deadlock detected
    else
      var t := if s.lock.owner == None || s.lock.owner == Some(f) then LockStep(s, f) else s;
      t.(pc := t.pc[f := Yielding(t.lock.owner == Some(f))])
  }

  function UnlockStep(s: State, f: Fiber): State
    requires f < |s.pc|
  {
    if s.lock.owner != Some(f) then s   // lock_error: no privilege
    else if s.lock.count > 1 then s.(lock := s.lock.(count := s.lock.count - 1))
    else if s.lock.queue == [] || s.lock.queue[0] >= |s.pc| then s.(lock := Release(s.lock))
    else
      var g := s.lock.queue[0];
      s.(lock := Release(s.lock), pc := s.pc[g := Woken], granted := s.granted + [g])
  }

  function Apply(s: State, a: Step): State {
    if !Enabled(s, a) then s else
    match a
    case CallLock(f) => LockStep(s, f)
    case CallTryLock(f) => TryLockStep(s, f)
    case TryLockReturns(f) => s.(pc := s.pc[f := Running])
    case Resume(f) => s.(pc := s.pc[f := Running])
    case CallUnlock(f) => UnlockStep(s, f)
  }

  /** Queued fibers are suspended ones, each queued once; and somebody owns a lock that is waited for. */
  ghost predicate QueueInv(s: State) {
    && Distinct(s.lock.queue)
    && (forall f: nat :: f in s.lock.queue <==> f < |s.pc| && s.pc[f].Waiting?)
    && (s.lock.queue != [] ==> s.lock.owner.Some?)
    && s.arrived == s.granted + s.lock.queue
  }

  ghost predicate OwnerInv(s: State) {
    && (s.lock.owner.Some? ==>
          s.lock.owner.value < |s.pc| && !s.pc[s.lock.owner.value].Waiting? && s.lock.count >= 1)
    && (s.lock.owner == None ==> s.lock.count == 0)
    && (!s.recursive ==> s.lock.count <= 1)
  }

  ghost predicate PcInv(s: State) {
    forall f: nat :: f < |s.pc| ==>
      && (s.pc[f].Woken? ==> s.lock.owner == Some(f))
      && (s.pc[f].Yielding? ==> (s.pc[f].held <==> s.lock.owner == Some(f)))
  }

  ghost predicate Inv(s: State) {
    QueueInv(s) && OwnerInv(s) && PcInv(s)
  }

  lemma StepKeepsInv(s: State, a: Step)
    requires Inv(s)
    ensures Inv(Apply(s, a))
  {
    if Enabled(s, a) && a.CallUnlock? && s.lock.owner == Some(a.f) && s.lock.count <= 1 && s.lock.queue != [] {
      HandOverKeepsInv(s, a.f);
    } else if Enabled(s, a) {
      OtherStepKeepsInv(s, a);
    }
  }

  lemma HandOverKeepsInv(s: State, f: Fiber)
    requires Inv(s) && Enabled(s, CallUnlock(f)) && s.lock.owner == Some(f) && s.lock.count == 1 && s.lock.queue != []
    ensures Inv(Apply(s, CallUnlock(f)))
  {
    Behind(s.lock.queue);
    var s' := Apply(s, CallUnlock(f));
    assert s.lock.queue == [s.lock.queue[0]] + s'.lock.queue;
  }

  /** Every step but a hand-over: no fiber is taken out of the queue. */
  lemma OtherStepKeepsInv(s: State, a: Step)
    requires Inv(s) && Enabled(s, a)
    requires !(a.CallUnlock? && s.lock.owner == Some(a.f) && s.lock.count <= 1 && s.lock.queue != [])
    ensures Inv(Apply(s, a))
  {
    match a
    case CallLock(f) => LockKeepsInv(s, f);
    case CallTryLock(f) => TryLockKeepsInv(s, f);
    case CallUnlock(f) => UnlockKeepsInv(s, f);
    case _ =>
  }

  lemma LockKeepsInv(s: State, f: Fiber)
    requires Inv(s) && Enabled(s, CallLock(f))
    ensures Inv(LockStep(s, f))
  {
  }

  lemma TryLockKeepsInv(s: State, f: Fiber)
    requires Inv(s) && Enabled(s, CallTryLock(f))
    ensures Inv(TryLockStep(s, f))
  {
  }

  lemma UnlockKeepsInv(s: State, f: Fiber)
    requires Inv(s) && Enabled(s, CallUnlock(f))
    requires !(s.lock.owner == Some(f) && s.lock.count <= 1 && s.lock.queue != [])
    ensures Inv(UnlockStep(s, f))
  {
  }

  lemma AlwaysInv(recursive: bool, n: nat, run: seq<Step>)
    ensures Inv(Runs.Exec(Apply, Init(recursive, n), run))
  {
    forall s: State, a: Step | Inv(s) ensures Inv(Apply(s, a)) { StepKeepsInv(s, a); }
    Runs.Invariant(Apply, Inv, Init(recursive, n), run);
  }

  /** Waiters get the lock in the order they queued, each once; a wait queue implies an owner outside it. */
  lemma HandedOverInArrivalOrder(recursive: bool, n: nat, run: seq<Step>)
    ensures var s := Runs.Exec(Apply, Init(recursive, n), run);
      && s.arrived == s.granted + s.lock.queue && Distinct(s.lock.queue)
      && (s.lock.queue != [] ==> s.lock.owner.Some? && s.lock.owner.value !in s.lock.queue)
  {
    AlwaysInv(recursive, n, run);
  }

  // ---- acquisitions, counted by the answers that fibers get

  datatype Outcome = Acquired | Suspended | Deadlock | Released | NoPrivilege

  /** What lock() answers: the error is that of a plain mutex locked by its owner. */
  function LockAnswer(s: State, f: Fiber): Outcome {
    if s.lock.owner == None || (s.recursive && s.lock.owner == Some(f)) then Acquired
    else if s.lock.owner == Some(f) then Deadlock
    else Suspended
  }

  function UnlockAnswer(s: State, f: Fiber): Outcome {
    if s.lock.owner == Some(f) then Released else NoPrivilege
  }

  /** What a step means for fiber f: a lock() that returns, a try_lock() that is going to answer true, or a
      lock handed to f while it waits is an acquisition; a successful unlock() undoes one. */
  function Acquires(s: State, a: Step, f: Fiber): int {
    var s' := Apply(s, a);
    if !Enabled(s, a) then 0
    else if a == CallLock(f) then if LockAnswer(s, f) == Acquired then 1 else 0
    else if a == CallTryLock(f) then if f < |s'.pc| && s'.pc[f] == Yielding(true) then 1 else 0
    else if a == CallUnlock(f) then if UnlockAnswer(s, f) == Released then -1 else 0
    else if f < |s.pc| && f < |s'.pc| && s.pc[f].Waiting? && !s'.pc[f].Waiting? then 1
    else 0
  }

  /** The acquisitions of f in a run that have not been undone. */
  function Unmatched(recursive: bool, n: nat, run: seq<Step>, f: Fiber): int {
    if run == [] then 0
    else
      Unmatched(recursive, n, run[..|run| - 1], f)
      + Acquires(Runs.Exec(Apply, Init(recursive, n), run[..|run| - 1]), run[|run| - 1], f)
  }

  function CountOf(s: State, f: Fiber): int {
    if s.lock.owner == Some(f) then s.lock.count else 0
  }

  lemma StepCounts(s: State, a: Step, f: Fiber)
    requires Inv(s) && f < |s.pc|
    ensures CountOf(Apply(s, a), f) == CountOf(s, f) + Acquires(s, a, f)
  {
    if Enabled(s, a) && s.lock.queue != [] { Behind(s.lock.queue); }
  }

  lemma {:induction false} CountsAlong(recursive: bool, n: nat, run: seq<Step>, f: Fiber)
    requires f < n
    ensures var s := Runs.Exec(Apply, Init(recursive, n), run);
      |s.pc| == n && CountOf(s, f) == Unmatched(recursive, n, run, f)
    decreases |run|
  {
    if run != [] {
      var before := run[..|run| - 1];
      CountsAlong(recursive, n, before, f);
      AlwaysInv(recursive, n, before);
      StepCounts(Runs.Exec(Apply, Init(recursive, n), before), run[|run| - 1], f);
    }
  }

  /** The owner is exactly the fiber with acquisitions not yet undone, and the count is their number; so at
      most one fiber at a time holds the lock, and a plain mutex only once. */
  lemma CountIsUnmatchedAcquisitions(recursive: bool, n: nat, run: seq<Step>, f: Fiber)
    requires f < n
    ensures var s := Runs.Exec(Apply, Init(recursive, n), run); var k := Unmatched(recursive, n, run, f);
      && k >= 0 && (s.lock.owner == Some(f) <==> k > 0)
      && (s.lock.owner == Some(f) ==> s.lock.count == k && (recursive || k == 1))
  {
    AlwaysInv(recursive, n, run);
    CountsAlong(recursive, n, run, f);
    Runs.Invariant(Apply, (s: State) => s.recursive == recursive, Init(recursive, n), run);
  }

  /** try_lock answers after its yield what was true before it: nobody can take the lock from a fiber
      that yields, nor hand it one. */
  lemma {:induction false} TryLockAnswerSurvivesYield(recursive: bool, n: nat, run: seq<Step>, f: Fiber)
    ensures var s := Runs.Exec(Apply, Init(recursive, n), run);
      f < |s.pc| && s.pc[f].Yielding? ==> (s.lock.owner == Some(f) <==> s.pc[f].held)
  {
    AlwaysInv(recursive, n, run);
  }

  /** An unlock that undoes the last acquisition leaves the lock with the longest waiter, or free. */
  lemma UnlockHandsToFront(recursive: bool, n: nat, run: seq<Step>, f: Fiber)
    ensures var s := Runs.Exec(Apply, Init(recursive, n), run); var s' := Apply(s, CallUnlock(f));
      Enabled(s, CallUnlock(f)) && s.lock.owner == Some(f) && s.lock.count == 1 ==>
        if s.lock.queue == [] then s'.lock == FREE
        else s'.lock == Word(Some(s.lock.queue[0]), 1, s.lock.queue[1..]) && s.lock.queue[0] < |s'.pc|
             && s'.pc == s.pc[s.lock.queue[0] := Woken]
  {
    AlwaysInv(recursive, n, run);
    var s := Runs.Exec(Apply, Init(recursive, n), run);
    if s.lock.queue != [] { assert s.lock.queue[0] in s.lock.queue; }
  }

  /** mutex in the form of the source. Fibers are told apart by number; the scheduler's side of
      set_ready and suspend is the model's pc. */
  class Mutex {
    var owner: Option<Fiber>
    var waitQueue: seq<Fiber>
    ghost const fibers: nat
    ghost var run: seq<Step>
    ghost var m: State

    ghost predicate Valid()
      reads this
    {
      && owner == m.lock.owner && waitQueue == m.lock.queue && !m.recursive && |m.pc| == fibers
      && Runs.Reached(Apply, Init(false, fibers), run, m)
    }

    constructor (ghost fibers: nat)
      ensures Valid() && this.fibers == fibers && run == []
    {
      owner, waitQueue := None, [];
      this.fibers := fibers;
      run, m := [], Init(false, fibers);
      new;
      Runs.Start(Apply, Init(false, fibers));
    }

    ghost method Do(a: Step)
      requires Runs.Reached(Apply, Init(false, fibers), run, m)
      modifies this`run, this`m
      ensures run == old(run) + [a] && m == Apply(old(m), a)
      ensures Runs.Reached(Apply, Init(false, fibers), run, m)
    {
      run, m := Runs.Then(Apply, Init(false, fibers), run, m, a);
    }

    method Lock(ctx: Fiber) returns (r: Outcome)
      requires Valid() && ctx < fibers && m.pc[ctx].Running?
      modifies this
      ensures Valid() && run == old(run) + [CallLock(ctx)]
      ensures r == if old(owner) == Some(ctx) then Deadlock else if old(owner) == None then Acquired else Suspended
      ensures r == Deadlock ==> owner == old(owner) && waitQueue == old(waitQueue)
      ensures r == LockAnswer(old(m), ctx)
      ensures r == Acquired ==> owner == Some(ctx) && waitQueue == old(waitQueue)
      ensures m.pc == if r == Suspended then old(m).pc[ctx := Waiting] else old(m).pc
      ensures r == Suspended ==> owner == old(owner) && waitQueue == old(waitQueue) + [ctx]
    {
      Do(CallLock(ctx));
      if owner == Some(ctx) {
        return Deadlock;
      } else if owner == None {
        owner := Some(ctx);
        return Acquired;
      }
      waitQueue := waitQueue + [ctx];
      return Suspended;
    }

    /** try_lock up to its yield; the answer comes from TryLockReturn. */
    method TryLock(ctx: Fiber) returns (r: Outcome)
      requires Valid() && ctx < fibers && m.pc[ctx].Running?
      modifies this
      ensures Valid() && run == old(run) + [CallTryLock(ctx)]
      ensures r == if old(owner) == Some(ctx) then Deadlock else Suspended
      ensures r == Suspended ==> m.pc[ctx] == Yielding(old(owner) == None)
      ensures owner == (if old(owner) == None then Some(ctx) else old(owner)) && waitQueue == old(waitQueue)
      ensures r == Deadlock ==> m == old(m)
    {
      Do(CallTryLock(ctx));
      if owner == Some(ctx) {
        return Deadlock;
      } else if owner == None {
        owner := Some(ctx);
      }
      return Suspended;
    }

    method TryLockReturn(ctx: Fiber) returns (r: bool)
      requires Valid() && ctx < fibers && m.pc[ctx].Yielding?
      modifies this`run, this`m
      ensures Valid() && run == old(run) + [TryLockReturns(ctx)] && m.pc[ctx].Running?
      ensures r == old(m).pc[ctx].held
    {
      TryLockAnswerSurvivesYield(false, fibers, run, ctx);
      r := owner == Some(ctx);
      Do(TryLockReturns(ctx));
    }

    method Unlock(ctx: Fiber) returns (r: Outcome)
      requires Valid() && ctx < fibers && m.pc[ctx].Running?
      modifies this
      ensures Valid() && run == old(run) + [CallUnlock(ctx)]
      ensures r == if old(owner) == Some(ctx) then Released else NoPrivilege
      ensures r == Released ==>
        if old(waitQueue) == [] then owner == None && waitQueue == []
        else owner == Some(old(waitQueue)[0]) && waitQueue == old(waitQueue)[1..]
      ensures r == NoPrivilege ==> owner == old(owner) && waitQueue == old(waitQueue)
      ensures m.pc == if r == Released && old(waitQueue) != [] && old(waitQueue)[0] < |old(m).pc|
                      then old(m).pc[old(waitQueue)[0] := Woken] else old(m).pc
    {
      PlainFacts(ctx);
      Do(CallUnlock(ctx));
      if owner != Some(ctx) {
        return NoPrivilege;
      }
      if waitQueue != [] {
        owner := Some(waitQueue[0]);
        waitQueue := waitQueue[1..];
      } else {
        owner := None;
      }
      return Released;
    }

    lemma PlainFacts(ctx: Fiber)
      requires Valid() && ctx < fibers
      ensures m.lock.count <= 1 && (waitQueue != [] ==> waitQueue[0] < fibers)
    {
      AlwaysInv(false, fibers, run);
      if waitQueue != [] { assert m.lock.queue[0] in m.lock.queue; }
    }
  }

  /** recursive_mutex in the form of the source. */
  class RecursiveMutex {
    var owner: Option<Fiber>
    var count: nat
    var waitQueue: seq<Fiber>
    ghost const fibers: nat
    ghost var run: seq<Step>
    ghost var m: State

    ghost predicate Valid()
      reads this
    {
      && m.lock == Word(owner, count, waitQueue) && m.recursive && |m.pc| == fibers
      && Runs.Reached(Apply, Init(true, fibers), run, m)
    }

    constructor (ghost fibers: nat)
      ensures Valid() && this.fibers == fibers && run == []
    {
      owner, count, waitQueue := None, 0, [];
      this.fibers := fibers;
      run, m := [], Init(true, fibers);
      new;
      Runs.Start(Apply, Init(true, fibers));
    }

    ghost method Do(a: Step)
      requires Runs.Reached(Apply, Init(true, fibers), run, m)
      modifies this`run, this`m
      ensures run == old(run) + [a] && m == Apply(old(m), a)
      ensures Runs.Reached(Apply, Init(true, fibers), run, m)
    {
      run, m := Runs.Then(Apply, Init(true, fibers), run, m, a);
    }

    method Lock(ctx: Fiber) returns (r: Outcome)
      requires Valid() && ctx < fibers && m.pc[ctx].Running?
      modifies this
      ensures Valid() && run == old(run) + [CallLock(ctx)]
      ensures r == if old(owner) == Some(ctx) || old(owner) == None then Acquired else Suspended
      ensures r == LockAnswer(old(m), ctx)
      ensures r == Acquired ==>
        owner == Some(ctx) && count == (if old(owner) == None then 1 else old(count) + 1) && waitQueue == old(waitQueue)
      ensures r == Suspended ==> owner == old(owner) && count == old(count) && waitQueue == old(waitQueue) + [ctx]
      ensures m.pc == if r == Suspended then old(m).pc[ctx := Waiting] else old(m).pc
    {
      Do(CallLock(ctx));
      if owner == Some(ctx) {
        count := count + 1;
        return Acquired;
      } else if owner == None {
        owner, count := Some(ctx), 1;
        return Acquired;
      }
      waitQueue := waitQueue + [ctx];
      return Suspended;
    }

    method TryLock(ctx: Fiber)
      requires Valid() && ctx < fibers && m.pc[ctx].Running?
      modifies this
      ensures Valid() && run == old(run) + [CallTryLock(ctx)]
      ensures m.pc == old(m).pc[ctx := Yielding(old(owner) == None || old(owner) == Some(ctx))]
      ensures waitQueue == old(waitQueue)
      ensures old(owner) == None ==> owner == Some(ctx) && count == 1
      ensures old(owner) == Some(ctx) ==> owner == Some(ctx) && count == old(count) + 1
      ensures old(owner) != None && old(owner) != Some(ctx) ==> owner == old(owner) && count == old(count)
    {
      Do(CallTryLock(ctx));
      if owner == None {
        owner, count := Some(ctx), 1;
      } else if owner == Some(ctx) {
        count := count + 1;
      }
    }

    method TryLockReturn(ctx: Fiber) returns (r: bool)
      requires Valid() && ctx < fibers && m.pc[ctx].Yielding?
      modifies this`run, this`m
      ensures Valid() && run == old(run) + [TryLockReturns(ctx)] && m.pc[ctx].Running?
      ensures r == old(m).pc[ctx].held
    {
      TryLockAnswerSurvivesYield(true, fibers, run, ctx);
      r := owner == Some(ctx);
      Do(TryLockReturns(ctx));
    }

    method Unlock(ctx: Fiber) returns (r: Outcome)
      requires Valid() && ctx < fibers && m.pc[ctx].Running?
      modifies this
      ensures Valid() && run == old(run) + [CallUnlock(ctx)]
      ensures r == if old(owner) == Some(ctx) then Released else NoPrivilege
      ensures r == NoPrivilege ==> owner == old(owner) && count == old(count) && waitQueue == old(waitQueue)
      ensures r == Released && old(count) > 1 ==>
        owner == Some(ctx) && count == old(count) - 1 && waitQueue == old(waitQueue)
      ensures r == Released && old(count) == 1 && old(waitQueue) != [] ==>
        owner == Some(old(waitQueue)[0]) && count == 1 && waitQueue == old(waitQueue)[1..]
      ensures r == Released && old(count) == 1 && old(waitQueue) == [] ==> owner == None && count == 0 && waitQueue == []
      ensures r == Released ==> old(count) >= 1
      ensures m.pc == if r == Released && old(count) == 1 && old(waitQueue) != [] && old(waitQueue)[0] < |old(m).pc|
                      then old(m).pc[old(waitQueue)[0] := Woken] else old(m).pc
    {
      CountFacts(ctx);
      Do(CallUnlock(ctx));
      if owner != Some(ctx) {
        return NoPrivilege;
      }
      count := count - 1;
      if count == 0 {
        if waitQueue != [] {
          owner, count := Some(waitQueue[0]), 1;
          waitQueue := waitQueue[1..];
        } else {
          owner := None;
        }
      }
      return Released;
    }

    lemma CountFacts(ctx: Fiber)
      requires Valid() && ctx < fibers
      ensures owner == Some(ctx) ==> count >= 1
      ensures waitQueue != [] ==> waitQueue[0] < fibers && (owner == Some(ctx) ==> waitQueue[0] != ctx)
    {
      AlwaysInv(true, fibers, run);
      if waitQueue != [] { assert m.lock.queue[0] in m.lock.queue; }
    }
  }
}
