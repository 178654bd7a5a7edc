/** barrier::wait over the fiber mutex and condition variable: a one-bit cycle that stands for an
    unbounded generation number. */
module Barrier {
  import opened Options
  import opened Counting
  import opened Lists
  import M = FiberMutex
  import Runs

  type Fiber = nat

  /** `g` is the generation a call arrived in, `c` the cycle bit it remembers. */
  datatype Pc =
    | Out
    | Entering                        // queued on the mutex
    | Entered                         // handed the mutex, about to arrive
    | Parked(g: nat, c: bool)         // in the condition's wait queue
    | Notified(g: nat, c: bool)       // ready, about to relock the mutex
    | Relocking(g: nat, c: bool)      // queued on the mutex
    | Relocked(g: nat, c: bool)       // handed the mutex, about to test the predicate

  /** `gen` counts completed generations; `leaders` logs the calls that returned true, and left[g] counts
      the calls of generation g that returned false. */
  datatype State = State(
    initial: nat, current: nat, cycle: bool, lock: M.Word, conds: seq<Fiber>, pc: seq<Pc>,
    gen: nat, leaders: seq<Fiber>, left: seq<nat>)

  datatype Step = Call(f: Fiber) | Arrive(f: Fiber) | Relock(f: Fiber) | Retest(f: Fiber)

  function Init(initial: nat, n: nat): State {
    State(initial, initial, true, M.FREE, [], seq(n, _ => Pc.Out), 0, [], [0])
  }

  predicate Enabled(s: State, a: Step) {
    a.f < |s.pc| &&
    match a
    case Call(f) => s.pc[f].Out?
    case Arrive(f) => s.pc[f].Entered?
    case Relock(f) => s.pc[f].Notified?
    case Retest(f) => s.pc[f].Relocked?
  }

  predicate InGeneration(p: Pc) {
    p.Parked? || p.Notified? || p.Relocking? || p.Relocked?
  }

  /** A queued fiber that is handed the mutex. */
  function Woken(p: Pc): Pc {
    match p
    case Entering => Entered
    case Relocking(g, c) => Relocked(g, c)
    case _ => p
  }

  function Notify(p: Pc): Pc {
    if p.Parked? then Notified(p.g, p.c) else p
  }

  /** The mutex is given up: to its front waiter, if there is one. */
  function GiveUp(s: State): State {
    if s.lock.queue != [] && s.lock.queue[0] < |s.pc| then
      s.(lock := M.Release(s.lock), pc := s.pc[s.lock.queue[0] := Woken(s.pc[s.lock.queue[0]])])
    else s.(lock := M.Release(s.lock))
  }

  /** notify_all readies every fiber of the condition's wait queue. */
  function NotifyAll(s: State): State {
    s.(conds := [], pc := seq(|s.pc|, i requires 0 <= i < |s.pc| => if i in s.conds then Notify(s.pc[i]) else s.pc[i]))
  }

  /** wait() after it owns the mutex: the last arrival opens the next generation, the others park. */
  function ArriveStep(s: State, f: Fiber): State
    requires f < |s.pc|
  {
    if s.current <= 1 then
      var t := s.(current := s.initial, cycle := !s.cycle, gen := s.gen + 1, leaders := s.leaders + [f],
                  left := s.left + [0], pc := s.pc[f := Pc.Out]);
      NotifyAll(GiveUp(t))
    else Park(s.(current := s.current - 1), f, s.gen, s.cycle)
  }

  function Park(s: State, f: Fiber, g: nat, c: bool): State
    requires f < |s.pc|
  {
    GiveUp(s.(conds := s.conds + [f], pc := s.pc[f := Parked(g, c)]))
  }

  /** The predicate loop, holding the mutex: leave when the cycle has changed, park again otherwise. */
  function TestStep(s: State, f: Fiber, g: nat, c: bool): State
    requires f < |s.pc|
  {
    if c != s.cycle then
      GiveUp(s.(pc := s.pc[f := Pc.Out], left := if g < |s.left| then s.left[g := s.left[g] + 1] else s.left))
    else Park(s, f, g, c)
  }

  function Apply(s: State, a: Step): State {
    if !Enabled(s, a) then s else
    match a
    case Call(f) =>
      var t := s.(lock := M.Acquire(s.lock, f));
      if s.lock.owner == None then ArriveStep(t, f) else t.(pc := s.pc[f := Entering])
    case Arrive(f) => ArriveStep(s, f)
    case Relock(f) =>
      var t := s.(lock := M.Acquire(s.lock, f));
      var p := s.pc[f];
      if s.lock.owner == None then TestStep(t, f, p.g, p.c) else t.(pc := s.pc[f := Relocking(p.g, p.c)])
    case Retest(f) => TestStep(s, f, s.pc[f].g, s.pc[f].c)
  }

  // ---- the invariant

  predicate OwnsMutex(p: Pc) { p.Entered? || p.Relocked? }

  predicate Queued(p: Pc) { p.Entering? || p.Relocking? }

  predicate IsParked(p: Pc) { p.Parked? }

  predicate IsLate(p: Pc) { p.Notified? || p.Relocking? || p.Relocked? }

  /** The mutex and the two queues. `extra` is the fiber that owns the mutex inside the current step. */
  ghost predicate Queues(s: State, extra: Option<Fiber>) {
    && Distinct(s.lock.queue) && Distinct(s.conds)
    && (forall f: nat :: f in s.lock.queue <==> f < |s.pc| && Queued(s.pc[f]))
    && (forall f: nat :: f in s.conds <==> f < |s.pc| && s.pc[f].Parked?)
    && (s.lock.queue != [] ==> s.lock.owner.Some?)
    && (s.lock.owner.Some? ==> s.lock.owner.value < |s.pc|)
    && (extra.Some? ==> s.lock.owner == extra)
    && forall f: nat :: f < |s.pc| ==> (OwnsMutex(s.pc[f]) || extra == Some(f) <==> s.lock.owner == Some(f))
  }

  /** The cycle bit a generation runs under. */
  predicate Bit(g: nat) { g == 0 || !Bit(g - 1) }

  /** Parked calls are of the current generation, calls on their way out of the one just completed;
      the missing arrivals and the departures add up. */
  ghost predicate Generations(s: State) {
    && 1 <= s.current <= s.initial && |s.left| == s.gen + 1 && |s.leaders| == s.gen && s.cycle == Bit(s.gen)
    && (forall f: nat :: f < |s.pc| ==>
      && (s.pc[f].Parked? ==> s.pc[f].g == s.gen && s.pc[f].c == Bit(s.gen))
      && (IsLate(s.pc[f]) ==> s.pc[f].g + 1 == s.gen && s.pc[f].c == Bit(s.pc[f].g)))
    && s.current + Count(s.pc, IsParked) == s.initial
    && s.left[s.gen] == 0
    && (forall g: nat :: g + 1 < s.gen ==> s.left[g] == s.initial - 1)
    && (s.gen > 0 ==> s.left[s.gen - 1] + Count(s.pc, IsLate) == s.initial - 1)
    && (s.gen == 0 ==> Count(s.pc, IsLate) == 0)
  }

  ghost predicate Inv(s: State) {
    Queues(s, None) && Generations(s) && |s.pc| <= s.initial
  }

  /** Handing the mutex on wakes a queued fiber without touching the condition's queue or a generation. */
  lemma GiveUpKeepsQueues(s: State, f: Fiber)
    requires Queues(s, Some(f)) && f < |s.pc| && !OwnsMutex(s.pc[f]) && !Queued(s.pc[f])
    ensures Queues(GiveUp(s), None)
  {
    var s' := GiveUp(s);
    if s.lock.queue != [] {
      var h := s.lock.queue[0];
      assert h in s.lock.queue;
      assert s.lock.queue == [h] + s'.lock.queue;
      assert forall j: nat :: j in s'.lock.queue <==> j in s.lock.queue && j != h;
    }
  }

  lemma GiveUpKeepsGenerations(s: State)
    requires Generations(s) && (s.lock.queue != [] ==> s.lock.queue[0] < |s.pc| && Queued(s.pc[s.lock.queue[0]]))
    ensures Generations(GiveUp(s))
  {
    if s.lock.queue != [] {
      var h := s.lock.queue[0];
      Update(s.pc, IsParked, h, Woken(s.pc[h]));
      Update(s.pc, IsLate, h, Woken(s.pc[h]));
    }
  }

  lemma GiveUpKeeps(s: State, f: Fiber)
    requires Queues(s, Some(f)) && f < |s.pc| && !OwnsMutex(s.pc[f]) && !Queued(s.pc[f]) && Generations(s)
    ensures Queues(GiveUp(s), None) && Generations(GiveUp(s)) && |GiveUp(s).pc| == |s.pc|
  {
    if s.lock.queue != [] { assert s.lock.queue[0] in s.lock.queue; }
    GiveUpKeepsQueues(s, f);
    GiveUpKeepsGenerations(s);
  }

  lemma ParkKeepsQueues(s: State, f: Fiber, t: State)
    requires Queues(s, Some(f)) && f < |s.pc| && (s.pc[f].Out? || s.pc[f].Entered?)
    requires t == s.(current := t.current, conds := s.conds + [f], pc := s.pc[f := Parked(s.gen, s.cycle)])
    ensures Queues(t, Some(f))
  {
  }

  lemma ParkKeepsGenerations(s: State, f: Fiber, t: State)
    requires Generations(s) && f < |s.pc| && s.current > 1 && (s.pc[f].Out? || s.pc[f].Entered?)
    requires t == s.(current := s.current - 1, conds := s.conds + [f], pc := s.pc[f := Parked(s.gen, s.cycle)])
    ensures Generations(t)
  {
    Update(s.pc, IsParked, f, Parked(s.gen, s.cycle));
    Update(s.pc, IsLate, f, Parked(s.gen, s.cycle));
  }

  /** An arrival that is not the last one parks. */
  lemma ParkArrival(s: State, f: Fiber)
    requires Queues(s, Some(f)) && f < |s.pc| && Generations(s) && s.current > 1
    requires s.pc[f].Out? || s.pc[f].Entered?
    ensures var s' := ArriveStep(s, f); Queues(s', None) && Generations(s') && |s'.pc| == |s.pc|
  {
    var t := s.(current := s.current - 1, conds := s.conds + [f], pc := s.pc[f := Parked(s.gen, s.cycle)]);
    ParkKeepsQueues(s, f, t);
    ParkKeepsGenerations(s, f, t);
    GiveUpKeeps(t, f);
  }

  /** The last arrival finds everybody else parked: there are no more than `initial` fibers, and
      initial - 1 of them are parked in this generation. So nobody is left over from an older one. */
  lemma NobodyIsLate(s: State, f: Fiber)
    requires Generations(s) && |s.pc| <= s.initial && f < |s.pc| && s.current == 1 && !IsParked(s.pc[f])
    ensures forall h: nat :: h < |s.pc| && h != f ==> s.pc[h].Parked?
    ensures |s.pc| == s.initial
  {
    Misses(s.pc, IsParked, f);
    forall h: nat | h < |s.pc| && h != f ensures s.pc[h].Parked? {
      if !IsParked(s.pc[h]) {
        if h < f { MissesTwo(s.pc, IsParked, h, f); } else { MissesTwo(s.pc, IsParked, f, h); }
      }
    }
  }

  lemma CompletedPcs(s: State, f: Fiber)
    requires Queues(s, Some(f)) && f < |s.pc| <= s.initial && Generations(s) && s.current == 1
    requires s.pc[f].Out? || s.pc[f].Entered?
    ensures var s' := ArriveStep(s, f);
      && s'.lock == M.FREE && s'.conds == [] && |s'.pc| == |s.pc| == s.initial
      && forall h: nat :: h < |s.pc| ==> s'.pc[h] == if h == f then Pc.Out else Notified(s.gen, s.cycle)
  {
    NobodyIsLate(s, f);
    Front(s.lock.queue);
    var s' := ArriveStep(s, f);
    forall h: nat | h < |s.pc| ensures s'.pc[h] == if h == f then Pc.Out else Notified(s.gen, s.cycle) {
      assert h in s.conds <==> h != f;
    }
  }

  lemma CompletedGenerations(s: State, f: Fiber, s': State)
    requires f < |s.pc| == |s'.pc| == s.initial && Generations(s) && s.current == 1 && Count(s.pc, IsLate) == 0
    requires s'.initial == s.initial == s'.current && s'.gen == s.gen + 1 && s'.cycle == !s.cycle
    requires s'.left == s.left + [0] && s'.leaders == s.leaders + [f]
    requires forall h: nat :: h < |s.pc| ==> s'.pc[h] == if h == f then Pc.Out else Notified(s.gen, s.cycle)
    ensures Generations(s')
  {
    NoneCounted(s'.pc, IsParked);
    AllLate(s'.pc, f);
  }

  lemma CompletedFields(s: State, f: Fiber)
    requires f < |s.pc| && s.current == 1
    ensures var s' := ArriveStep(s, f);
      && s'.initial == s.initial == s'.current && s'.gen == s.gen + 1 && s'.cycle == !s.cycle
      && s'.left == s.left + [0] && s'.leaders == s.leaders + [f]
  {
  }

  lemma CompletedQueues(s: State, f: Fiber, s': State)
    requires f < |s.pc| == |s'.pc| && s'.lock == M.FREE && s'.conds == []
    requires forall h: nat :: h < |s.pc| ==> s'.pc[h] == if h == f then Pc.Out else Notified(s.gen, s.cycle)
    ensures Queues(s', None)
  {
  }

  lemma CompleteGeneration(s: State, f: Fiber)
    requires Queues(s, Some(f)) && f < |s.pc| <= s.initial && Generations(s) && s.current == 1
    requires s.pc[f].Out? || s.pc[f].Entered?
    ensures var s' := ArriveStep(s, f); Queues(s', None) && Generations(s') && |s'.pc| == |s.pc|
  {
    NobodyIsLate(s, f);
    OnlyParked(s, f);
    CompletedPcs(s, f);
    CompletedFields(s, f);
    CompletedGenerations(s, f, ArriveStep(s, f));
    CompletedQueues(s, f, ArriveStep(s, f));
  }

  lemma {:induction false} AllLate(q: seq<Pc>, f: nat)
    requires f < |q| && !IsLate(q[f]) && forall h: nat :: h < |q| && h != f ==> IsLate(q[h])
    ensures Count(q, IsLate) == |q| - 1
    decreases |q|
  {
    if f < |q| - 1 { AllLate(q[..|q| - 1], f); } else { EveryoneLate(q[..f]); }
  }

  lemma {:induction false} EveryoneLate(q: seq<Pc>)
    requires forall h: nat :: h < |q| ==> IsLate(q[h])
    ensures Count(q, IsLate) == |q|
    decreases |q|
  {
    if q != [] { EveryoneLate(q[..|q| - 1]); }
  }

  lemma OnlyParked(s: State, f: Fiber)
    requires f < |s.pc| && (s.pc[f].Out? || s.pc[f].Entered?)
    requires forall h: nat :: h < |s.pc| && h != f ==> s.pc[h].Parked?
    ensures Count(s.pc, IsLate) == 0
  {
    NoneCounted(s.pc, IsLate);
  }

  lemma ArriveKeepsInv(s: State, f: Fiber)
    requires Queues(s, Some(f)) && f < |s.pc| <= s.initial && Generations(s)
    requires s.pc[f].Out? || s.pc[f].Entered?
    ensures var s' := ArriveStep(s, f); Queues(s', None) && Generations(s') && |s'.pc| == |s.pc|
  {
    if s.current > 1 { ParkArrival(s, f); } else { CompleteGeneration(s, f); }
  }

  /** f is gone from its generation, still owning the mutex. */
  function Gone(s: State, f: Fiber): State
    requires f < |s.pc| && InGeneration(s.pc[f]) && s.pc[f].g < |s.left|
  {
    s.(pc := s.pc[f := Pc.Out], left := s.left[s.pc[f].g := s.left[s.pc[f].g] + 1])
  }

  /** A call from the completed generation sees the flipped bit and leaves. */
  lemma SeesFlippedBit(s: State, f: Fiber)
    requires Generations(s) && f < |s.pc| && IsLate(s.pc[f])
    ensures s.pc[f].c != s.cycle && s.pc[f].g < |s.left|
    ensures TestStep(s, f, s.pc[f].g, s.pc[f].c) == GiveUp(Gone(s, f))
  {
  }

  lemma LeaveKeepsGenerations(s: State, f: Fiber)
    requires Generations(s) && f < |s.pc| && IsLate(s.pc[f]) && s.pc[f].g < |s.left|
    ensures Generations(Gone(s, f))
  {
    Update(s.pc, IsParked, f, Pc.Out);
    Update(s.pc, IsLate, f, Pc.Out);
    Has(s.pc, IsLate, f);
  }

  lemma LeaveKeepsQueues(s: State, f: Fiber)
    requires Queues(s, Some(f)) && f < |s.pc| && IsLate(s.pc[f]) && !Queued(s.pc[f]) && s.pc[f].g < |s.left|
    ensures Queues(Gone(s, f), Some(f))
  {
  }

  lemma LeaveKeepsInv(s: State, f: Fiber)
    requires Queues(s, Some(f)) && f < |s.pc| && Generations(s)
    requires IsLate(s.pc[f]) && !Queued(s.pc[f])
    ensures var s' := TestStep(s, f, s.pc[f].g, s.pc[f].c); Queues(s', None) && Generations(s') && |s'.pc| == |s.pc|
  {
    SeesFlippedBit(s, f);
    LeaveKeepsGenerations(s, f);
    LeaveKeepsQueues(s, f);
    GiveUpKeeps(Gone(s, f), f);
  }

  lemma QueueKeepsQueues(s: State, f: Fiber, p: Pc)
    requires Queues(s, None) && f < |s.pc| && s.lock.owner.Some? && Queued(p) && (s.pc[f].Out? || s.pc[f].Notified?)
    ensures Queues(s.(lock := M.Acquire(s.lock, f), pc := s.pc[f := p]), None)
  {
  }

  lemma QueueKeepsGenerations(s: State, f: Fiber, p: Pc)
    requires Generations(s) && f < |s.pc| && Queued(p)
    requires (s.pc[f].Out? && p.Entering?) || (s.pc[f].Notified? && p == Relocking(s.pc[f].g, s.pc[f].c))
    ensures Generations(s.(lock := M.Acquire(s.lock, f), pc := s.pc[f := p]))
  {
    Update(s.pc, IsParked, f, p);
    Update(s.pc, IsLate, f, p);
  }

  /** Queueing on the taken mutex. */
  lemma QueueKeepsInv(s: State, f: Fiber, p: Pc)
    requires Inv(s) && f < |s.pc| && s.lock.owner.Some? && Queued(p)
    requires (s.pc[f].Out? && p.Entering?) || (s.pc[f].Notified? && p == Relocking(s.pc[f].g, s.pc[f].c))
    ensures Inv(s.(lock := M.Acquire(s.lock, f), pc := s.pc[f := p]))
  {
    QueueKeepsQueues(s, f, p);
    QueueKeepsGenerations(s, f, p);
  }

  /** A fiber that finds the mutex free. */
  lemma TakeFree(s: State, f: Fiber)
    requires Inv(s) && f < |s.pc| && s.lock.owner == None
    ensures var t := s.(lock := M.Acquire(s.lock, f)); Queues(t, Some(f)) && Generations(t)
  {
  }

  /** A fiber that was handed the mutex. */
  lemma TakeHanded(s: State, f: Fiber)
    requires Inv(s) && f < |s.pc| && OwnsMutex(s.pc[f])
    ensures Queues(s, Some(f))
  {
  }

  lemma CallKeepsInv(s: State, f: Fiber)
    requires Inv(s) && Enabled(s, Call(f))
    ensures Inv(Apply(s, Call(f)))
  {
    if s.lock.owner == None {
      TakeFree(s, f);
      ArriveKeepsInv(s.(lock := M.Acquire(s.lock, f)), f);
    } else {
      QueueKeepsInv(s, f, Entering);
    }
  }

  lemma RelockKeepsInv(s: State, f: Fiber)
    requires Inv(s) && Enabled(s, Relock(f))
    ensures Inv(Apply(s, Relock(f)))
  {
    if s.lock.owner == None {
      TakeFree(s, f);
      LeaveKeepsInv(s.(lock := M.Acquire(s.lock, f)), f);
    } else {
      QueueKeepsInv(s, f, Relocking(s.pc[f].g, s.pc[f].c));
    }
  }

  lemma HandedArriveKeepsInv(s: State, f: Fiber)
    requires Inv(s) && Enabled(s, Arrive(f))
    ensures Inv(Apply(s, Arrive(f)))
  {
    TakeHanded(s, f);
    ArriveKeepsInv(s, f);
  }

  lemma RetestKeepsInv(s: State, f: Fiber)
    requires Inv(s) && Enabled(s, Retest(f))
    ensures Inv(Apply(s, Retest(f)))
  {
    TakeHanded(s, f);
    LeaveKeepsInv(s, f);
  }

  lemma StepKeepsInv(s: State, a: Step)
    requires Inv(s)
    ensures Inv(Apply(s, a))
  {
    if Enabled(s, a) {
      match a
      case Call(f) => CallKeepsInv(s, f);
      case Arrive(f) => HandedArriveKeepsInv(s, f);
      case Relock(f) => RelockKeepsInv(s, f);
      case Retest(f) => RetestKeepsInv(s, f);
    }
  }

  lemma AlwaysInv(initial: nat, n: nat, run: seq<Step>)
    requires n <= initial && initial >= 1
    ensures Inv(Runs.Exec(Apply, Init(initial, n), run))
  {
    NoneCounted(Init(initial, n).pc, IsParked);
    NoneCounted(Init(initial, n).pc, IsLate);
    forall s: State, a: Step | Inv(s) ensures Inv(Apply(s, a)) { StepKeepsInv(s, a); }
    Runs.Invariant(Apply, Inv, Init(initial, n), run);
  }

  // ---- what the barrier promises, to at most `initial` fibers

  /** Fiber f, inside a call, is at most one generation behind and can tell from its remembered bit
      whether its generation is complete. */
  predicate Tells(s: State, f: Fiber) {
    f < |s.pc| && InGeneration(s.pc[f]) ==>
      && s.gen - 1 <= s.pc[f].g <= s.gen
      && (s.pc[f].c != s.cycle <==> s.pc[f].g < s.gen)
  }

  /** The one-bit cycle stands for the unbounded generation: a call's remembered bit differs from the
      current one exactly when its generation is complete, because no call is ever two generations behind. */
  lemma CycleTellsGeneration(initial: nat, n: nat, run: seq<Step>, f: Fiber)
    requires n <= initial && initial >= 1
    ensures Tells(Runs.Exec(Apply, Init(initial, n), run), f)
  {
    AlwaysInv(initial, n, run);
    InvTells(Runs.Exec(Apply, Init(initial, n), run), f);
  }

  lemma InvTells(s: State, f: Fiber)
    requires Inv(s)
    ensures Tells(s, f)
  {
  }

  /** A generation is completed only by its `initial`-th arrival: the others are all parked in it. */
  lemma OpensAfterAllArrivals(initial: nat, n: nat, run: seq<Step>, a: Step)
    requires n <= initial && initial >= 1
    ensures var s := Runs.Exec(Apply, Init(initial, n), run);
      Apply(s, a).gen != s.gen ==>
        && a.f < |s.pc| && !InGeneration(s.pc[a.f]) && |s.pc| == initial
        && (forall h: nat :: h < |s.pc| && h != a.f ==> s.pc[h] == Parked(s.gen, s.cycle))
        && Apply(s, a).leaders == s.leaders + [a.f]
  {
    AlwaysInv(initial, n, run);
    SameParameters(initial, n, run);
    var s := Runs.Exec(Apply, Init(initial, n), run);
    if Apply(s, a).gen != s.gen {
      OnlyLastArrivalOpens(s, a);
      NobodyIsLate(s, a.f);
    }
  }

  lemma OnlyLastArrivalOpens(s: State, a: Step)
    requires Inv(s) && Apply(s, a).gen != s.gen
    ensures Enabled(s, a) && (a.Call? || a.Arrive?) && s.current == 1 && !InGeneration(s.pc[a.f])
    ensures Apply(s, a).leaders == s.leaders + [a.f]
  {
  }

  lemma SameParameters(initial: nat, n: nat, run: seq<Step>)
    ensures var s := Runs.Exec(Apply, Init(initial, n), run); s.initial == initial && |s.pc| == n
  {
    Runs.Invariant(Apply, (s: State) => s.initial == initial && |s.pc| == n, Init(initial, n), run);
  }

  lemma Departures(s: State, g: nat)
    requires Inv(s)
    ensures |s.leaders| == s.gen && |s.left| == s.gen + 1 && s.left[s.gen] == 0
    ensures g + 1 < s.gen ==> s.left[g] == s.initial - 1
    ensures g + 1 == s.gen ==> s.left[g] + Count(s.pc, IsLate) == s.initial - 1
  {
  }

  /** Exactly one call of each completed generation returns true, and the other initial - 1 return false
      once each: those not yet gone are still on their way out. */
  lemma EachGenerationIsLeftByAll(initial: nat, n: nat, run: seq<Step>, g: nat)
    requires n <= initial && initial >= 1
    ensures var s := Runs.Exec(Apply, Init(initial, n), run);
      && |s.leaders| == s.gen && |s.left| == s.gen + 1 && s.left[s.gen] == 0
      && (g + 1 < s.gen ==> s.left[g] == initial - 1)
      && (g + 1 == s.gen ==> s.left[g] + Count(s.pc, IsLate) == initial - 1)
  {
    AlwaysInv(initial, n, run);
    SameParameters(initial, n, run);
    Departures(Runs.Exec(Apply, Init(initial, n), run), g);
  }

  // ---- with more fibers than `initial`

  /** One fiber arrives at a free barrier and parks. */
  lemma ParkOne(initial: nat, n: nat, run: seq<Step>, s: State, f: Fiber) returns (run': seq<Step>, s': State)
    requires Runs.Reached(Apply, Init(initial, n), run, s)
    requires s.lock == M.FREE && f < |s.pc| && s.pc[f].Out? && s.current > 1
    ensures Runs.Reached(Apply, Init(initial, n), run', s')
    ensures s' == s.(current := s.current - 1, conds := s.conds + [f], pc := s.pc[f := Parked(s.gen, s.cycle)])
  {
    run', s' := Runs.Then(Apply, Init(initial, n), run, s, Call(f));
  }

  /** The fibers a, ..., b - 1 arrive one after the other and park. */
  lemma ParkRange(initial: nat, n: nat, run: seq<Step>, s: State, a: nat, b: nat) returns (run': seq<Step>, s': State)
    requires Runs.Reached(Apply, Init(initial, n), run, s)
    requires s.lock == M.FREE && a <= b <= |s.pc| && s.current > b - a
    requires forall i :: a <= i < b ==> s.pc[i].Out?
    ensures Runs.Reached(Apply, Init(initial, n), run', s')
    ensures s' == s.(current := s.current - (b - a), conds := s'.conds, pc := s'.pc) && |s'.pc| == |s.pc|
    ensures forall i: nat :: i in s'.conds <==> i in s.conds || a <= i < b
    ensures forall i :: 0 <= i < |s.pc| ==> s'.pc[i] == if a <= i < b then Parked(s.gen, s.cycle) else s.pc[i]
    decreases b - a
  {
    run', s' := run, s;
    if a < b {
      run', s' := ParkOne(initial, n, run, s, a);
      run', s' := ParkRange(initial, n, run', s', a + 1, b);
    }
  }

  /** The last arrival notifies whoever is parked. */
  lemma OpenAll(initial: nat, n: nat, run: seq<Step>, s: State, f: Fiber) returns (run': seq<Step>, s': State)
    requires Runs.Reached(Apply, Init(initial, n), run, s)
    requires s.lock == M.FREE && f < |s.pc| && s.pc[f].Out? && s.current == 1 && f !in s.conds
    ensures Runs.Reached(Apply, Init(initial, n), run', s')
    ensures s'.lock == M.FREE && s'.conds == [] && s'.gen == s.gen + 1 && s'.cycle == !s.cycle && |s'.pc| == |s.pc|
    ensures s'.current == s.initial == s'.initial && s'.left == s.left + [0]
    ensures forall i: nat :: i < |s.pc| ==> s'.pc[i] == if i in s.conds then Notify(s.pc[i]) else s.pc[i]
  {
    run', s' := Runs.Then(Apply, Init(initial, n), run, s, Call(f));
  }

  /** A notified fiber of an older generation relocks the free mutex and leaves. */
  lemma LeaveOne(initial: nat, n: nat, run: seq<Step>, s: State, f: Fiber) returns (run': seq<Step>, s': State)
    requires Runs.Reached(Apply, Init(initial, n), run, s)
    requires s.lock == M.FREE && f < |s.pc| && s.pc[f].Notified? && s.pc[f].c != s.cycle && s.pc[f].g < |s.left|
    ensures Runs.Reached(Apply, Init(initial, n), run', s')
    ensures s' == s.(pc := s.pc[f := Pc.Out], left := s'.left) && |s'.left| == |s.left|
  {
    run', s' := Runs.Then(Apply, Init(initial, n), run, s, Relock(f));
  }

  lemma LeaveRange(initial: nat, n: nat, run: seq<Step>, s: State, a: nat, b: nat) returns (run': seq<Step>, s': State)
    requires Runs.Reached(Apply, Init(initial, n), run, s)
    requires s.lock == M.FREE && a <= b <= |s.pc|
    requires forall i :: a <= i < b ==> s.pc[i].Notified? && s.pc[i].c != s.cycle && s.pc[i].g < |s.left|
    ensures Runs.Reached(Apply, Init(initial, n), run', s')
    ensures s' == s.(pc := s'.pc, left := s'.left) && |s'.pc| == |s.pc|
    ensures forall i :: 0 <= i < |s.pc| ==> s'.pc[i] == if a <= i < b then Pc.Out else s.pc[i]
    decreases b - a
  {
    run', s' := run, s;
    if a < b {
      run', s' := LeaveOne(initial, n, run, s, a);
      run', s' := LeaveRange(initial, n, run', s', a + 1, b);
    }
  }

  /** The first generation is complete, and only fiber 0 has not left it. */
  lemma SlowFiberStays(initial: nat, n: nat) returns (run: seq<Step>, s: State)
    requires 2 <= initial < n
    ensures Runs.Reached(Apply, Init(initial, n), run, s)
    ensures s.lock == M.FREE && s.gen == 1 && !s.cycle && s.current == s.initial == initial && s.conds == [] && |s.pc| == n
    ensures s.pc[0] == Notified(0, true) && forall i :: 0 < i < n ==> s.pc[i].Out?
  {
    s := Init(initial, n);
    Runs.Start(Apply, s);
    run, s := ParkRange(initial, n, [], s, 0, initial - 1);
    run, s := OpenAll(initial, n, run, s, initial - 1);
    run, s := LeaveRange(initial, n, run, s, 1, initial - 1);
  }

  /** The bound on the fibers matters. With one more a generation can be completed without fiber 0, which
      then is two generations behind and finds the bit it remembers. */
  lemma SlowFiberMissesGeneration(initial: nat, n: nat) returns (run: seq<Step>)
    requires 2 <= initial < n
    ensures var s := Runs.Exec(Apply, Init(initial, n), run);
      |s.pc| == n && s.gen == 2 && s.cycle && s.pc[0] == Notified(0, true) && !Tells(s, 0)
  {
    var s: State;
    run, s := SlowFiberStays(initial, n);
    run, s := ParkRange(initial, n, run, s, 1, initial);
    run, s := OpenAll(initial, n, run, s, initial);
    assert s.pc[0] == Notified(0, true) && s.gen == 2;
    assert s == Runs.Exec(Apply, Init(initial, n), run);
  }

  /** On a barrier of one nobody ever waits. */
  ghost predicate NobodyWaits(s: State) {
    s.initial == 1 && s.current == 1 && s.conds == [] && forall f: nat :: f < |s.pc| ==> !InGeneration(s.pc[f])
  }

  lemma NobodyWaitsAlways(n: nat, run: seq<Step>)
    ensures NobodyWaits(Runs.Exec(Apply, Init(1, n), run))
  {
    Runs.Invariant(Apply, NobodyWaits, Init(1, n), run);
  }

  /** Exactly when the one-bit cycle is enough, on all runs. */
  lemma CycleTellsIff(initial: nat, n: nat)
    requires initial >= 1
    ensures n <= initial || initial == 1 <==>
      forall run, f {:trigger Tells(Runs.Exec(Apply, Init(initial, n), run), f)} ::
        Tells(Runs.Exec(Apply, Init(initial, n), run), f)
  {
    if n <= initial {
      forall run, f ensures Tells(Runs.Exec(Apply, Init(initial, n), run), f) { CycleTellsGeneration(initial, n, run, f); }
    } else if initial == 1 {
      forall run, f ensures Tells(Runs.Exec(Apply, Init(initial, n), run), f) { NobodyWaitsAlways(n, run); }
    } else {
      var run := SlowFiberMissesGeneration(initial, n);
    }
  }

  // ---- what holds for any number of fibers

  /** A call never outruns its generation, and remembers the bit of that generation. */
  ghost predicate Sound(s: State) {
    && Queues(s, None) && 1 <= s.current <= s.initial && s.cycle == Bit(s.gen) && |s.leaders| == s.gen
    && forall f: nat :: f < |s.pc| ==> Remembers(s, f)
  }

  /** The condition's waiters become ready at once; none of them holds the mutex or queues for it. */
  lemma NotifyKeepsQueues(s: State)
    requires Queues(s, None)
    ensures Queues(NotifyAll(s), None)
  {
  }

  /** The state after wait() has arrived, spelled out. */
  ghost predicate Arrived(s: State, f: Fiber, s': State)
    requires f < |s.pc| && f < |s'.pc|
  {
    && s'.initial == s.initial && s'.lock == M.Release(s.lock)
    && if s.current == 1 then
         && s'.current == s.initial && s'.cycle == !s.cycle && s'.conds == [] && s'.gen == s.gen + 1
         && s'.leaders == s.leaders + [f] && s'.pc[f].Out?
       else
         && s'.current == s.current - 1 && s'.cycle == s.cycle && s'.conds == s.conds + [f] && s'.gen == s.gen
         && s'.leaders == s.leaders && s'.pc[f] == Parked(s.gen, s.cycle)
  }

  lemma LastArrival(s: State, f: Fiber)
    requires Queues(s, Some(f)) && f < |s.pc| && s.current == 1 && (s.pc[f].Out? || s.pc[f].Entered?)
    ensures var s' := ArriveStep(s, f); Queues(s', None) && |s'.pc| == |s.pc| && Arrived(s, f, s')
  {
    var t := s.(current := s.initial, cycle := !s.cycle, gen := s.gen + 1, leaders := s.leaders + [f],
                left := s.left + [0], pc := s.pc[f := Pc.Out]);
    assert Queues(t, Some(f));
    GiveUpKeepsQueues(t, f);
    NotifyKeepsQueues(GiveUp(t));
    Front(s.lock.queue);
  }

  lemma EarlyArrival(s: State, f: Fiber)
    requires Queues(s, Some(f)) && f < |s.pc| && s.current > 1 && (s.pc[f].Out? || s.pc[f].Entered?)
    ensures var s' := ArriveStep(s, f); Queues(s', None) && |s'.pc| == |s.pc| && Arrived(s, f, s')
  {
    var t := s.(current := s.current - 1, conds := s.conds + [f], pc := s.pc[f := Parked(s.gen, s.cycle)]);
    ParkKeepsQueues(s, f, t);
    GiveUpKeepsQueues(t, f);
    Front(s.lock.queue);
  }

  lemma ArrivalEffect(s: State, f: Fiber)
    requires Queues(s, Some(f)) && f < |s.pc| && s.current >= 1 && (s.pc[f].Out? || s.pc[f].Entered?)
    ensures var s' := ArriveStep(s, f); Queues(s', None) && |s'.pc| == |s.pc| && Arrived(s, f, s')
  {
    if s.current == 1 { LastArrival(s, f); } else { EarlyArrival(s, f); }
  }

  /** The state after the predicate loop has looked at the bit. */
  ghost predicate Tested(s: State, f: Fiber, c: bool, s': State)
    requires f < |s.pc| && f < |s'.pc| && InGeneration(s.pc[f])
  {
    && s' == s.(lock := M.Release(s.lock), conds := s'.conds, pc := s'.pc, left := s'.left)
    && if c != s.cycle then s'.conds == s.conds && s'.pc[f].Out?
       else s'.conds == s.conds + [f] && s'.pc[f] == Parked(s.pc[f].g, c)
  }

  lemma TestEffect(s: State, f: Fiber)
    requires Queues(s, Some(f)) && f < |s.pc| && (s.pc[f].Notified? || s.pc[f].Relocked?)
    ensures var s' := TestStep(s, f, s.pc[f].g, s.pc[f].c);
      Queues(s', None) && |s'.pc| == |s.pc| && Tested(s, f, s.pc[f].c, s')
  {
    var p := s.pc[f];
    var t := if p.c != s.cycle then
               s.(pc := s.pc[f := Pc.Out], left := if p.g < |s.left| then s.left[p.g := s.left[p.g] + 1] else s.left)
             else s.(conds := s.conds + [f], pc := s.pc[f := Parked(p.g, p.c)]);
    assert Queues(t, Some(f));
    GiveUpKeepsQueues(t, f);
    Front(s.lock.queue);
  }

  /** f owns the mutex at the start of the step: it took it free, or was handed it. */
  function Locked(s: State, f: Fiber): State {
    s.(lock := if s.lock.owner == None then M.Acquire(s.lock, f) else s.lock)
  }

  /** What a call inside a generation remembers. */
  ghost predicate Remembers(s: State, h: Fiber)
    requires h < |s.pc|
  {
    InGeneration(s.pc[h]) ==> s.pc[h].g <= s.gen && s.pc[h].c == Bit(s.pc[h].g)
  }

  /** Giving up the mutex and notifying change no memory. */
  lemma WakingRemembers(s: State, h: Fiber)
    requires h < |s.pc| && Remembers(s, h)
    ensures |GiveUp(s).pc| == |NotifyAll(s).pc| == |s.pc| && Remembers(GiveUp(s), h) && Remembers(NotifyAll(s), h)
  {
  }

  lemma ArrivalRemembers(s: State, f: Fiber, h: Fiber)
    requires f < |s.pc| && h < |s.pc| && f != h && Remembers(s, h)
    ensures |ArriveStep(s, f).pc| == |s.pc| && Remembers(ArriveStep(s, f), h)
  {
    if s.current <= 1 {
      var t := s.(current := s.initial, cycle := !s.cycle, gen := s.gen + 1, leaders := s.leaders + [f],
                  left := s.left + [0], pc := s.pc[f := Pc.Out]);
      assert t.pc[h] == s.pc[h];
      WakingRemembers(t, h);
      WakingRemembers(GiveUp(t), h);
    } else {
      ParkRemembers(s.(current := s.current - 1), f, h, s.gen, s.cycle);
    }
  }

  lemma ParkRemembers(s: State, f: Fiber, h: Fiber, g: nat, c: bool)
    requires f < |s.pc| && h < |s.pc| && f != h && Remembers(s, h)
    ensures |Park(s, f, g, c).pc| == |s.pc| && Remembers(Park(s, f, g, c), h)
  {
    WakingRemembers(s.(conds := s.conds + [f], pc := s.pc[f := Parked(g, c)]), h);
  }

  lemma TestRemembers(s: State, f: Fiber, h: Fiber, g: nat, c: bool)
    requires f < |s.pc| && h < |s.pc| && f != h && Remembers(s, h)
    ensures |TestStep(s, f, g, c).pc| == |s.pc| && Remembers(TestStep(s, f, g, c), h)
  {
    if c != s.cycle {
      WakingRemembers(
        s.(pc := s.pc[f := Pc.Out], left := if g < |s.left| then s.left[g := s.left[g] + 1] else s.left), h);
    } else {
      ParkRemembers(s, f, h, g, c);
    }
  }

  lemma OthersRemember(s: State, a: Step, h: Fiber)
    requires Enabled(s, a) && h < |s.pc| && Remembers(s, h) && a.f != h
    ensures |Apply(s, a).pc| == |s.pc| && Remembers(Apply(s, a), h)
  {
    var t := s.(lock := M.Acquire(s.lock, a.f));
    match a
    case Call(f) => if s.lock.owner == None { ArrivalRemembers(t, f, h); }
    case Arrive(f) => ArrivalRemembers(s, f, h);
    case Relock(f) => if s.lock.owner == None { TestRemembers(t, f, h, s.pc[f].g, s.pc[f].c); }
    case Retest(f) => TestRemembers(s, f, h, s.pc[f].g, s.pc[f].c);
  }

  lemma ArriveKeepsSound(s: State, a: Step)
    requires Sound(s) && Enabled(s, a) && (a.Arrive? || (a.Call? && s.lock.owner == None))
    ensures var s' := Apply(s, a); Sound(s') && |s'.pc| == |s.pc| && Arrived(Locked(s, a.f), a.f, s')
  {
    var s' := Apply(s, a);
    ArrivalEffect(Locked(s, a.f), a.f);
    forall h: nat | h < |s.pc| ensures Remembers(s', h) {
      assert Remembers(s, h);
      if h != a.f { OthersRemember(s, a, h); }
    }
  }

  lemma TestKeepsSound(s: State, a: Step)
    requires Sound(s) && Enabled(s, a) && (a.Retest? || (a.Relock? && s.lock.owner == None))
    ensures var s' := Apply(s, a);
      Sound(s') && |s'.pc| == |s.pc| && Tested(Locked(s, a.f), a.f, s.pc[a.f].c, s')
  {
    var s' := Apply(s, a);
    assert Remembers(s, a.f);
    TestEffect(Locked(s, a.f), a.f);
    forall h: nat | h < |s.pc| ensures Remembers(s', h) {
      assert Remembers(s, h);
      if h != a.f { OthersRemember(s, a, h); }
    }
  }

  lemma QueueKeepsSound(s: State, a: Step)
    requires Sound(s) && Enabled(s, a) && (a.Call? || a.Relock?) && s.lock.owner.Some?
    ensures Sound(Apply(s, a))
  {
    var s' := Apply(s, a);
    assert Remembers(s, a.f);
    QueueKeepsQueues(s, a.f, s'.pc[a.f]);
    forall h: nat | h < |s.pc| ensures Remembers(s', h) {
      assert Remembers(s, h);
      if h != a.f { OthersRemember(s, a, h); }
    }
  }

  lemma StepKeepsSound(s: State, a: Step)
    requires Sound(s)
    ensures Sound(Apply(s, a))
  {
    if Enabled(s, a) {
      if (a.Call? || a.Relock?) && s.lock.owner.Some? { QueueKeepsSound(s, a); }
      else if a.Call? || a.Arrive? { ArriveKeepsSound(s, a); }
      else { TestKeepsSound(s, a); }
    }
  }

  lemma AlwaysSound(initial: nat, n: nat, run: seq<Step>)
    requires initial >= 1
    ensures Sound(Runs.Exec(Apply, Init(initial, n), run))
  {
    forall s: State, a: Step | Sound(s) ensures Sound(Apply(s, a)) { StepKeepsSound(s, a); }
    Runs.Invariant(Apply, Sound, Init(initial, n), run);
  }

  lemma {:induction false} BitTellsParity(g: nat, h: nat)
    requires g <= h
    ensures Bit(g) == Bit(h) <==> (h - g) % 2 == 0
    decreases h - g
  {
    if g < h { BitTellsParity(g, h - 1); }
  }

  /** The bit differs from the remembered one exactly when an odd number of generations has passed. */
  predicate TellsParity(s: State, f: Fiber) {
    f < |s.pc| && InGeneration(s.pc[f]) ==>
      && s.pc[f].g <= s.gen
      && (s.pc[f].c != s.cycle <==> (s.gen - s.pc[f].g) % 2 == 1)
  }

  lemma SoundTellsParity(s: State, f: Fiber)
    requires Sound(s)
    ensures TellsParity(s, f)
  {
    if f < |s.pc| && InGeneration(s.pc[f]) {
      assert Remembers(s, f);
      BitTellsParity(s.pc[f].g, s.gen);
    }
  }

  /** For any number of fibers: nobody leaves before its own generation is complete, but a call that sleeps
      through an even number of them parks again. */
  lemma CycleTellsParity(initial: nat, n: nat, run: seq<Step>, f: Fiber)
    requires initial >= 1
    ensures TellsParity(Runs.Exec(Apply, Init(initial, n), run), f)
  {
    AlwaysSound(initial, n, run);
    SoundTellsParity(Runs.Exec(Apply, Init(initial, n), run), f);
  }

  // ---- the barrier in the form of the source

  datatype WaitResult = Last | Left | Suspended

  /** Each method is one segment of wait() between suspension points. */
  class FiberBarrier {
    const initial: nat
    var current: nat
    var cycle: bool
    var owner: Option<Fiber>          // mtx_
    var lockQueue: seq<Fiber>
    var condQueue: seq<Fiber>         // cond_
    ghost const fibers: nat
    ghost var run: seq<Step>
    ghost var m: State

    ghost predicate Valid()
      reads this
    {
      && initial == m.initial >= 1 && |m.pc| == fibers
      && current == m.current && cycle == m.cycle
      && owner == m.lock.owner && lockQueue == m.lock.queue && condQueue == m.conds
      && Runs.Reached(Apply, Init(initial, fibers), run, m)
    }

    constructor (initial: nat, ghost fibers: nat)
      requires initial >= 1
      ensures Valid() && this.initial == initial && this.fibers == fibers && run == []
    {
      this.initial, current, cycle := initial, initial, true;
      owner, lockQueue, condQueue := None, [], [];
      this.fibers := fibers;
      run, m := [], Init(initial, fibers);
      new;
      Runs.Start(Apply, Init(initial, fibers));
    }

    /** The checked construction: a zero count is refused. */
    static method Create(initial: nat, ghost fibers: nat) returns (b: Option<FiberBarrier>)
      ensures b.Some? <==> initial != 0
      ensures b.Some? ==> fresh(b.value) && b.value.Valid() && b.value.initial == initial
    {
      if initial == 0 {
        return None;
      }
      var c := new FiberBarrier(initial, fibers);
      return Some(c);
    }

    ghost method Do(a: Step)
      requires Runs.Reached(Apply, Init(initial, fibers), run, m)
      modifies this`run, this`m
      ensures run == old(run) + [a] && m == Apply(old(m), a)
      ensures Runs.Reached(Apply, Init(initial, fibers), run, m)
    {
      run, m := Runs.Then(Apply, Init(initial, fibers), run, m, a);
    }

    method Unlock()
      modifies this`owner, this`lockQueue
      ensures owner == if old(lockQueue) == [] then None else Some(old(lockQueue)[0])
      ensures lockQueue == if old(lockQueue) == [] then [] else old(lockQueue)[1..]
    {
      if lockQueue != [] {
        owner := Some(lockQueue[0]);
        lockQueue := lockQueue[1..];
      } else {
        owner := None;
      }
    }

    /** notify_all: the waiters become ready in the order they queued. */
    method NotifyAll() returns (readied: seq<Fiber>)
      modifies this`condQueue
      ensures condQueue == [] && readied == old(condQueue)
    {
      readied := [];
      while condQueue != []
        invariant readied + condQueue == old(condQueue)
        decreases |condQueue|
      {
        readied := readied + [condQueue[0]];
        condQueue := condQueue[1..];
      }
    }

    /** wait() after it owns the mutex. */
    method Body(f: Fiber) returns (r: WaitResult)
      requires 1 <= current
      modifies this`current, this`cycle, this`owner, this`lockQueue, this`condQueue
      ensures r == if old(current) == 1 then Last else Suspended
      ensures owner == if old(lockQueue) == [] then None else Some(old(lockQueue)[0])
      ensures lockQueue == if old(lockQueue) == [] then [] else old(lockQueue)[1..]
      ensures r == Last ==> cycle == !old(cycle) && current == initial && condQueue == []
      ensures r == Suspended ==> cycle == old(cycle) && current == old(current) - 1 && condQueue == old(condQueue) + [f]
    {
      var remembered := cycle;
      current := current - 1;
      if current == 0 {
        cycle := !cycle;
        current := initial;
        Unlock();
        var readied := NotifyAll();
        return Last;
      }
      if remembered == cycle {
        condQueue := condQueue + [f];
        Unlock();
      }
      return Suspended;
    }

    lemma Facts()
      requires Valid()
      ensures Sound(m)
    {
      AlwaysSound(initial, fibers, run);
    }

    /** The mutex has gone to the front of its queue. */
    predicate HandedOn(queue: seq<Fiber>)
      reads this
    {
      && owner == (if queue == [] then None else Some(queue[0]))
      && lockQueue == (if queue == [] then [] else queue[1..])
    }

    /** The fields after an arrival by f, from those before it. */
    predicate ArrivalEnds(count: nat, bit: bool, queue: seq<Fiber>, conds: seq<Fiber>, f: Fiber, r: WaitResult)
      reads this
    {
      && HandedOn(queue) && (r == Last <==> count == 1)
      && (if r == Last then current == initial && cycle == !bit && condQueue == []
          else current == count - 1 && cycle == bit && condQueue == conds + [f])
    }

    /** The fields after a look at the bit by f, which the others leave alone. */
    predicate TestEnds(count: nat, bit: bool, queue: seq<Fiber>, conds: seq<Fiber>, f: Fiber, r: WaitResult)
      reads this
    {
      HandedOn(queue) && current == count && cycle == bit && condQueue == if r == Left then conds else conds + [f]
    }

    /** wait(), from the call to the first suspension. True (Last) is returned to the call that completes
        the generation, and to no other. */
    method Wait(f: Fiber) returns (r: WaitResult)
      requires Valid() && f < fibers && m.pc[f].Out?
      modifies this
      ensures Valid() && run == old(run) + [Call(f)] && r != Left
      ensures r == Last <==> m.gen == old(m.gen) + 1
      ensures r == Last ==> m.leaders == old(m.leaders) + [f] && m.pc[f].Out?
      ensures r == Suspended ==> m.pc[f] == if old(owner) == None then Parked(old(m.gen), old(cycle)) else Entering
      ensures if old(owner) == None then ArrivalEnds(old(current), old(cycle), [], old(condQueue), f, r)
        else r == Suspended && owner == old(owner) && lockQueue == old(lockQueue) + [f]
             && current == old(current) && cycle == old(cycle) && condQueue == old(condQueue)
    {
      Facts();
      if owner == None {
        ArriveKeepsSound(m, Call(f));
        Do(Call(f));
        owner := Some(f);
        r := Body(f);
      } else {
        Do(Call(f));
        lockQueue := lockQueue + [f];
        r := Suspended;
      }
    }

    /** wait(), resumed with the mutex it queued for. */
    method WaitLocked(f: Fiber) returns (r: WaitResult)
      requires Valid() && f < fibers && m.pc[f].Entered?
      modifies this
      ensures Valid() && run == old(run) + [Arrive(f)] && r != Left
      ensures r == Last <==> m.gen == old(m.gen) + 1
      ensures r == Last ==> m.leaders == old(m.leaders) + [f] && m.pc[f].Out?
      ensures r == Suspended ==> m.pc[f] == Parked(old(m.gen), old(cycle))
      ensures ArrivalEnds(old(current), old(cycle), old(lockQueue), old(condQueue), f, r)
    {
      Facts();
      ArriveKeepsSound(m, Arrive(f));
      Do(Arrive(f));
      r := Body(f);
    }

    /** The predicate loop with the mutex held: in a generation that is complete the call returns false. */
    method Test(f: Fiber, remembered: bool) returns (r: WaitResult)
      modifies this`owner, this`lockQueue, this`condQueue
      ensures r == if remembered != cycle then Left else Suspended
      ensures owner == if old(lockQueue) == [] then None else Some(old(lockQueue)[0])
      ensures lockQueue == if old(lockQueue) == [] then [] else old(lockQueue)[1..]
      ensures condQueue == if r == Left then old(condQueue) else old(condQueue) + [f]
    {
      if remembered != cycle {
        Unlock();
        return Left;
      }
      condQueue := condQueue + [f];
      Unlock();
      return Suspended;
    }

    /** With no more than `initial` fibers a notified call finds the other bit. */
    lemma LateFacts(f: Fiber)
      requires Valid() && f < fibers <= initial && IsLate(m.pc[f])
      ensures m.pc[f].c != m.cycle
    {
      AlwaysInv(initial, fibers, run);
    }

    /** wait(), notified: it queues for the mutex, or relocks it and tests the bit. Used by no more than
        `initial` fibers it never parks again. */
    method WaitNotified(f: Fiber, remembered: bool) returns (r: WaitResult)
      requires Valid() && f < fibers && m.pc[f].Notified? && m.pc[f].c == remembered
      modifies this
      ensures Valid() && run == old(run) + [Relock(f)]
      ensures r == if old(owner) == None && remembered != old(cycle) then Left else Suspended
      ensures m.pc[f] ==
        if r == Left then Pc.Out
        else if old(owner) == None then Parked(old(m).pc[f].g, remembered) else Relocking(old(m).pc[f].g, remembered)
      ensures fibers <= initial && old(owner) == None ==> r == Left
      ensures if old(owner) == None then TestEnds(old(current), old(cycle), [], old(condQueue), f, r)
        else owner == old(owner) && lockQueue == old(lockQueue) + [f]
             && current == old(current) && cycle == old(cycle) && condQueue == old(condQueue)
    {
      if fibers <= initial { LateFacts(f); }
      Facts();
      if owner == None {
        TestKeepsSound(m, Relock(f));
        Do(Relock(f));
        owner := Some(f);
        r := Test(f, remembered);
      } else {
        Do(Relock(f));
        lockQueue := lockQueue + [f];
        r := Suspended;
      }
    }

    /** wait(), resumed with the mutex it queued for: it tests the bit. */
    method WaitRelocked(f: Fiber, remembered: bool) returns (r: WaitResult)
      requires Valid() && f < fibers && m.pc[f].Relocked? && m.pc[f].c == remembered
      modifies this
      ensures Valid() && run == old(run) + [Retest(f)]
      ensures r == if remembered != old(cycle) then Left else Suspended
      ensures m.pc[f] == if r == Left then Pc.Out else Parked(old(m).pc[f].g, remembered)
      ensures fibers <= initial ==> r == Left
      ensures TestEnds(old(current), old(cycle), old(lockQueue), old(condQueue), f, r)
    {
      if fibers <= initial { LateFacts(f); }
      Facts();
      TestKeepsSound(m, Retest(f));
      Do(Retest(f));
      r := Test(f, remembered);
    }
  }
}
