/** The blocking side of buffered_channel: push, pop, value_pop and close by fibers of one scheduler, with
    the two wait queues. A fiber runs without interruption between suspension points, so each step is one
    such segment. The ring itself is RingChannel; here it is the queue it stands for (RingCarriesBuffer).
    A ring of one slot is no bounded queue: it never answers full, and a pop behind two pushes never ends. */
module ChannelWakeups {
  import opened Options
  import opened Counting
  import opened Lists
  import R = RingChannel
  import One = SingleSlot
  import Runs

  type Fiber = nat
  type Value = nat

  datatype Pc =
    | Idle
    | PushWait(v: Value)     // in waiting_producers_
    | PushWoken(v: Value)    // readied, about to try again
    | PopWait                // in waiting_consumers_
    | PopWoken

  /** `buf` is what went in and has not come out. `spins` says that a fiber has entered a loop it never
      leaves, and with it the thread. `pushed` and `popped` log the values in the order they went in and came
      out; the silent counters count the successful try_push and try_pop calls, which notify nobody. */
  datatype State = State(
    cap: nat, buf: seq<Value>, closed: bool, wp: seq<Fiber>, wc: seq<Fiber>, pc: seq<Pc>, spins: bool,
    pushed: seq<Value>, popped: seq<Value>, silentPushes: nat, silentPops: nat)

  datatype Step =
    | Push(f: Fiber, v: Value)
    | RetryPush(f: Fiber)
    | Pop(f: Fiber)
    | RetryPop(f: Fiber)
    | TryPush(f: Fiber, v: Value)
    | TryPop(f: Fiber)
    | Close(f: Fiber)

  function Init(cap: nat, n: nat): State {
    State(cap, [], false, [], [], seq(n, _ => Idle), false, [], [], 0, 0)
  }

  predicate Enabled(s: State, a: Step) {
    a.f < |s.pc| && !s.spins &&
    match a
    case RetryPush(f) => s.pc[f].PushWoken?
    case RetryPop(f) => s.pc[f].PopWoken?
    case _ => s.pc[a.f].Idle?
  }

  /** try_push_ does not answer full. In a ring of one slot "published" and "free again" are the same cycle,
      so there it never does. */
  predicate HasRoom(s: State) { s.cap == 1 || |s.buf| < s.cap }

  /** The cycle of the only slot is ahead of the consumer's index: try_pop_ looks again, for ever. */
  predicate Overrun(s: State) { s.cap == 1 && |s.buf| >= 2 }

  function Wake(p: Pc): Pc {
    match p
    case PushWait(v) => PushWoken(v)
    case PopWait => PopWoken
    case _ => p
  }

  function WakeConsumer(s: State): State {
    if s.wc == [] || s.wc[0] >= |s.pc| then s else s.(wc := s.wc[1..], pc := s.pc[s.wc[0] := Wake(s.pc[s.wc[0]])])
  }

  function WakeProducer(s: State): State {
    if s.wp == [] || s.wp[0] >= |s.pc| then s else s.(wp := s.wp[1..], pc := s.pc[s.wp[0] := Wake(s.pc[s.wp[0]])])
  }

  function Put(s: State, v: Value): State {
    s.(buf := s.buf + [v], pushed := s.pushed + [v])
  }

  function Take(s: State): State
    requires s.buf != []
  {
    s.(buf := s.buf[1..], popped := s.popped + [s.buf[0]])
  }

  /** One round of push: refused when closed, done when there is room, else queued. */
  function PushStep(s: State, f: Fiber, v: Value): State
    requires f < |s.pc|
  {
    if s.closed then s.(pc := s.pc[f := Idle])
    else if HasRoom(s) then WakeConsumer(Put(s, v).(pc := s.pc[f := Idle]))
    else s.(wp := s.wp + [f], pc := s.pc[f := PushWait(v)])
  }

  /** One round of pop or value_pop: what is stored is handed out even after a close. */
  function PopStep(s: State, f: Fiber): State
    requires f < |s.pc|
  {
    if Overrun(s) then s.(spins := true)
    else if s.buf != [] then WakeProducer(Take(s).(pc := s.pc[f := Idle]))
    else if s.closed then s.(pc := s.pc[f := Idle])
    else s.(wc := s.wc + [f], pc := s.pc[f := PopWait])
  }

  /** close() readies everyone that waits. */
  function CloseStep(s: State): State {
    s.(closed := true, wp := [], wc := [],
       pc := seq(|s.pc|, i requires 0 <= i < |s.pc| => if i in s.wp || i in s.wc then Wake(s.pc[i]) else s.pc[i]))
  }

  function Apply(s: State, a: Step): State {
    if !Enabled(s, a) then s else
    match a
    case Push(f, v) => PushStep(s, f, v)
    case RetryPush(f) => PushStep(s, f, s.pc[f].v)
    case Pop(f) => PopStep(s, f)
    case RetryPop(f) => PopStep(s, f)
    case TryPush(_, v) =>
      if s.closed || !HasRoom(s) then s else Put(s, v).(silentPushes := s.silentPushes + 1)
    case TryPop(_) =>
      if Overrun(s) then s.(spins := true) else if s.buf == [] then s else Take(s).(silentPops := s.silentPops + 1)
    case Close(_) => CloseStep(s)
  }

  // ---- the invariant

  ghost predicate Queues(s: State) {
    && Distinct(s.wp) && Distinct(s.wc)
    && (forall f: nat :: f in s.wp <==> f < |s.pc| && s.pc[f].PushWait?)
    && (forall f: nat :: f in s.wc <==> f < |s.pc| && s.pc[f].PopWait?)
    && (s.closed ==> s.wp == [] && s.wc == [])
  }

  predicate PushAwake(p: Pc) { p.PushWoken? }

  predicate PopAwake(p: Pc) { p.PopWoken? }

  /** What a queued fiber waits for is spoken for: every stored item beyond the woken consumers was put
      there without notice, and every free slot beyond the woken producers was made without notice. */
  ghost predicate Accounts(s: State) {
    && (s.cap == 1 || |s.buf| <= s.cap) && s.pushed == s.popped + s.buf
    && (s.cap == 1 ==> s.wp == [])
    && (s.wc != [] ==> |s.buf| <= Count(s.pc, PopAwake) + s.silentPushes)
    && (s.wp != [] ==> s.cap - |s.buf| <= Count(s.pc, PushAwake) + s.silentPops)
  }

  ghost predicate Inv(s: State) {
    Queues(s) && Accounts(s)
  }

  lemma WakeConsumerKeepsQueues(s: State)
    requires Queues(s)
    ensures Queues(WakeConsumer(s))
  {
    Front(s.wc);
    if s.wc != [] { Behind(s.wc); }
  }

  lemma WakeProducerKeepsQueues(s: State)
    requires Queues(s)
    ensures Queues(WakeProducer(s))
  {
    Front(s.wp);
    if s.wp != [] { Behind(s.wp); }
  }

  /** A wake-up adds to the woken fibers of its own kind only. */
  lemma WakeCounts(s: State)
    requires Queues(s)
    ensures Count(WakeConsumer(s).pc, PopAwake) == Count(s.pc, PopAwake) + (if s.wc == [] then 0 else 1)
    ensures Count(WakeConsumer(s).pc, PushAwake) == Count(s.pc, PushAwake)
    ensures Count(WakeProducer(s).pc, PushAwake) == Count(s.pc, PushAwake) + (if s.wp == [] then 0 else 1)
    ensures Count(WakeProducer(s).pc, PopAwake) == Count(s.pc, PopAwake)
  {
    Front(s.wc);
    Front(s.wp);
    if s.wc != [] {
      Update(s.pc, PopAwake, s.wc[0], PopWoken);
      Update(s.pc, PushAwake, s.wc[0], PopWoken);
    }
    if s.wp != [] {
      Update(s.pc, PopAwake, s.wp[0], Wake(s.pc[s.wp[0]]));
      Update(s.pc, PushAwake, s.wp[0], Wake(s.pc[s.wp[0]]));
    }
  }

  lemma RoomyPushKeepsInv(s: State, f: Fiber, v: Value)
    requires Inv(s) && f < |s.pc| && (s.pc[f].Idle? || s.pc[f].PushWoken?) && !s.closed && HasRoom(s)
    ensures Inv(PushStep(s, f, v))
  {
    var t := Put(s, v).(pc := s.pc[f := Idle]);
    Update(s.pc, PopAwake, f, Idle);
    Update(s.pc, PushAwake, f, Idle);
    PutKeepsQueues(s, f, v);
    WakeConsumerKeepsQueues(t);
    WakeCounts(t);
  }

  lemma PutKeepsQueues(s: State, f: Fiber, v: Value)
    requires Queues(s) && f < |s.pc| && (s.pc[f].Idle? || s.pc[f].PushWoken?)
    ensures Queues(Put(s, v).(pc := s.pc[f := Idle]))
  {
  }

  lemma PushKeepsInv(s: State, f: Fiber, v: Value)
    requires Inv(s) && f < |s.pc| && (s.pc[f].Idle? || s.pc[f].PushWoken?)
    ensures Inv(PushStep(s, f, v))
  {
    if !s.closed && HasRoom(s) {
      RoomyPushKeepsInv(s, f, v);
    } else if s.closed {
      Update(s.pc, PopAwake, f, Idle);
      Update(s.pc, PushAwake, f, Idle);
    } else {
      Update(s.pc, PopAwake, f, PushWait(v));
      Update(s.pc, PushAwake, f, PushWait(v));
    }
  }

  lemma TakeKeepsQueues(s: State, f: Fiber)
    requires Queues(s) && f < |s.pc| && (s.pc[f].Idle? || s.pc[f].PopWoken?) && s.buf != []
    ensures Queues(Take(s).(pc := s.pc[f := Idle]))
  {
  }

  lemma EmptyPopKeepsInv(s: State, f: Fiber)
    requires Inv(s) && f < |s.pc| && (s.pc[f].Idle? || s.pc[f].PopWoken?) && s.buf == []
    ensures Inv(PopStep(s, f))
  {
    Update(s.pc, PopAwake, f, if s.closed then Idle else PopWait);
    Update(s.pc, PushAwake, f, if s.closed then Idle else PopWait);
  }

  lemma PopKeepsInv(s: State, f: Fiber)
    requires Inv(s) && f < |s.pc| && (s.pc[f].Idle? || s.pc[f].PopWoken?)
    ensures Inv(PopStep(s, f))
  {
    if Overrun(s) {
    } else if s.buf != [] {
      var t := Take(s).(pc := s.pc[f := Idle]);
      Update(s.pc, PopAwake, f, Idle);
      Update(s.pc, PushAwake, f, Idle);
      TakeKeepsQueues(s, f);
      assert t.popped + t.buf == s.popped + s.buf;
      WakeProducerKeepsQueues(t);
      WakeCounts(t);
    } else {
      EmptyPopKeepsInv(s, f);
    }
  }

  lemma TryPopKeepsInv(s: State)
    requires Inv(s) && s.buf != []
    ensures Inv(Take(s).(silentPops := s.silentPops + 1))
  {
    assert s.popped + s.buf == (s.popped + [s.buf[0]]) + s.buf[1..];
  }

  lemma StepKeepsInv(s: State, a: Step)
    requires Inv(s)
    ensures Inv(Apply(s, a))
  {
    if Enabled(s, a) {
      match a
      case Push(f, v) => PushKeepsInv(s, f, v);
      case RetryPush(f) => PushKeepsInv(s, f, s.pc[f].v);
      case Pop(f) => PopKeepsInv(s, f);
      case RetryPop(f) => PopKeepsInv(s, f);
      case TryPop(_) => if s.buf != [] && !Overrun(s) { TryPopKeepsInv(s); }
      case _ =>
    }
  }

  lemma AlwaysInv(cap: nat, n: nat, run: seq<Step>)
    ensures Inv(Runs.Exec(Apply, Init(cap, n), run))
  {
    forall s: State, a: Step | Inv(s) ensures Inv(Apply(s, a)) { StepKeepsInv(s, a); }
    Runs.Invariant(Apply, Inv, Init(cap, n), run);
  }

  // ---- what the channel promises its fibers

  predicate IsTry(a: Step) { a.TryPush? || a.TryPop? }

  lemma {:induction false} NothingSilent(cap: nat, n: nat, run: seq<Step>)
    requires forall k :: 0 <= k < |run| ==> !IsTry(run[k])
    ensures var s := Runs.Exec(Apply, Init(cap, n), run); s.silentPushes == s.silentPops == 0
    decreases |run|
  {
    if run != [] { NothingSilent(cap, n, run[..|run| - 1]); }
  }

  /** No wake-up is lost: while a consumer is queued, stored items do not outnumber the consumers woken and
      not yet back; likewise producers and free slots. */
  ghost predicate NothingLost(s: State) {
    && (s.wc != [] ==> |s.buf| <= Count(s.pc, PopAwake))
    && (s.wp != [] ==> s.cap - |s.buf| <= Count(s.pc, PushAwake))
  }

  /** Over push, pop, value_pop and close no wake-up is lost. */
  lemma NoLostWakeUp(cap: nat, n: nat, run: seq<Step>)
    requires forall k :: 0 <= k < |run| ==> !IsTry(run[k])
    ensures NothingLost(Runs.Exec(Apply, Init(cap, n), run))
  {
    AlwaysInv(cap, n, run);
    NothingSilent(cap, n, run);
  }

  /** With the try forms in the run as well, each successful one costs at most one wake-up. */
  lemma EachTryCostsOneWakeUp(cap: nat, n: nat, run: seq<Step>)
    ensures var s := Runs.Exec(Apply, Init(cap, n), run);
      && (s.wc != [] ==> |s.buf| <= Count(s.pc, PopAwake) + s.silentPushes)
      && (s.wp != [] ==> cap - |s.buf| <= Count(s.pc, PushAwake) + s.silentPops)
  {
    AlwaysInv(cap, n, run);
    SameParameters(cap, n, run);
  }

  /** The two harmful steps: a try_push that succeeds while a consumer is queued and every stored item is
      spoken for by a woken one, and a try_pop that succeeds while the same holds of producers and room. */
  ghost predicate Harmless(s: State, a: Step) {
    Enabled(s, a) ==> match a
      case TryPush(_, _) => s.closed || !HasRoom(s) || s.wc == [] || |s.buf| != Count(s.pc, PopAwake)
      case TryPop(_) => s.buf == [] || s.wp == [] || s.cap - |s.buf| != Count(s.pc, PushAwake)
      case _ => true
  }

  function Unsilenced(s: State): State {
    s.(silentPushes := 0, silentPops := 0)
  }

  /** Only the try forms count what they silence. */
  lemma OthersIgnoreSilence(s: State, a: Step)
    requires !IsTry(a)
    ensures Apply(Unsilenced(s), a) == Unsilenced(Apply(s, a))
  {
  }

  lemma NotifyingStepLosesNothing(s: State, a: Step)
    requires Inv(s) && NothingLost(s) && !IsTry(a)
    ensures NothingLost(Apply(s, a))
  {
    assert Inv(Unsilenced(s));
    StepKeepsInv(Unsilenced(s), a);
    OthersIgnoreSilence(s, a);
  }

  /** Exactly the harmful steps lose a wake-up. */
  lemma StepLosesNothingIff(s: State, a: Step)
    requires Inv(s) && NothingLost(s)
    ensures NothingLost(Apply(s, a)) <==> Harmless(s, a)
  {
    if !IsTry(a) { NotifyingStepLosesNothing(s, a); }
  }

  /** At no point of the run is a wake-up lost. */
  ghost predicate NeverLost(cap: nat, n: nat, run: seq<Step>) {
    NothingLost(Runs.Exec(Apply, Init(cap, n), run)) && (run != [] ==> NeverLost(cap, n, run[..|run| - 1]))
  }

  /** No step of the run is harmful where it is taken. */
  ghost predicate AllHarmless(cap: nat, n: nat, run: seq<Step>) {
    run != [] ==>
      && AllHarmless(cap, n, run[..|run| - 1])
      && Harmless(Runs.Exec(Apply, Init(cap, n), run[..|run| - 1]), run[|run| - 1])
  }

  /** A run loses no wake-up, at any point, if and only if each of its successful try_push and try_pop
      calls is harmless where it is made. */
  lemma {:induction false} NeverLostIff(cap: nat, n: nat, run: seq<Step>)
    ensures NeverLost(cap, n, run) <==> AllHarmless(cap, n, run)
    decreases |run|
  {
    if run != [] {
      var front := run[..|run| - 1];
      NeverLostIff(cap, n, front);
      if NeverLost(cap, n, front) {
        AlwaysInv(cap, n, front);
        StepLosesNothingIff(Runs.Exec(Apply, Init(cap, n), front), run[|run| - 1]);
      }
    }
  }

  /** A try form that finds nobody queued on the other side. */
  predicate Polite(s: State, a: Step) {
    (a.TryPush? ==> s.wc == []) && (a.TryPop? ==> s.wp == [])
  }

  ghost predicate AllPolite(cap: nat, n: nat, run: seq<Step>) {
    run != [] ==>
      && AllPolite(cap, n, run[..|run| - 1])
      && Polite(Runs.Exec(Apply, Init(cap, n), run[..|run| - 1]), run[|run| - 1])
  }

  lemma {:induction false} PoliteTriesLoseNothing(cap: nat, n: nat, run: seq<Step>)
    requires AllPolite(cap, n, run)
    ensures NeverLost(cap, n, run)
    decreases |run|
  {
    NeverLostIff(cap, n, run);
    if run != [] {
      PoliteTriesLoseNothing(cap, n, run[..|run| - 1]);
      NeverLostIff(cap, n, run[..|run| - 1]);
    }
  }

  /** One try_push is enough to lose a wake-up: a consumer sleeps beside a stored item, with no consumer
      on the way. */
  lemma TryPushLosesWakeUp(cap: nat, n: nat, v: Value) returns (run: seq<Step>)
    requires cap >= 1 && n >= 2
    ensures run == [Pop(0), TryPush(1, v)]
    ensures var s := Runs.Exec(Apply, Init(cap, n), run); s.wc == [0] && s.buf == [v] && Count(s.pc, PopAwake) == 0
  {
    var s := Init(cap, n);
    Runs.Start(Apply, s);
    run, s := Runs.Then(Apply, Init(cap, n), [], s, Pop(0));
    run, s := Runs.Then(Apply, Init(cap, n), run, s, TryPush(1, v));
    NoneCounted(s.pc, PopAwake);
  }

  /** Fiber 1 pushes k values with nobody waiting. */
  lemma {:induction false} Fill(cap: nat, n: nat, v: Value, k: nat) returns (run: seq<Step>, s: State)
    requires k <= cap && n >= 2
    ensures Runs.Reached(Apply, Init(cap, n), run, s) && forall j :: 0 <= j < |run| ==> !IsTry(run[j])
    ensures s.cap == cap && |s.buf| == k && !s.closed && !s.spins && s.wp == s.wc == [] && s.pc == Init(cap, n).pc
    decreases k
  {
    if k == 0 {
      run, s := [], Init(cap, n);
      Runs.Start(Apply, s);
    } else {
      run, s := Fill(cap, n, v, k - 1);
      run, s := Runs.Then(Apply, Init(cap, n), run, s, Push(1, v));
      assert s.pc == Init(cap, n).pc;
    }
  }

  /** One try_pop is enough as well, if there are two slots: a producer sleeps beside a free slot, with no
      producer on the way. */
  lemma TryPopLosesWakeUp(cap: nat, n: nat, v: Value) returns (run: seq<Step>)
    requires cap >= 2 && n >= 2
    ensures run != [] && run[|run| - 1] == TryPop(1) && forall j :: 0 <= j < |run| - 1 ==> !IsTry(run[j])
    ensures var s := Runs.Exec(Apply, Init(cap, n), run); s.wp == [0] && |s.buf| == cap - 1 && Count(s.pc, PushAwake) == 0
  {
    var s: State;
    run, s := Fill(cap, n, v, cap);
    run, s := Runs.Then(Apply, Init(cap, n), run, s, Push(0, v));
    run, s := Runs.Then(Apply, Init(cap, n), run, s, TryPop(1));
    NoneCounted(s.pc, PushAwake);
  }

  /** Without room, or without a second fiber, every step is harmless: a queued fiber makes no step. */
  lemma AloneIsHarmless(s: State, a: Step)
    requires Inv(s) && (s.cap == 0 || |s.pc| <= 1)
    ensures Harmless(s, a)
  {
    Front(s.wc);
    Front(s.wp);
  }

  lemma AloneLosesNothing(cap: nat, n: nat, run: seq<Step>)
    requires cap == 0 || n <= 1
    ensures NothingLost(Runs.Exec(Apply, Init(cap, n), run))
  {
    var kept := (s: State) => Inv(s) && NothingLost(s) && s.cap == cap && |s.pc| == n;
    forall s: State, a: Step | kept(s) ensures kept(Apply(s, a)) {
      StepKeepsInv(s, a);
      AloneIsHarmless(s, a);
      StepLosesNothingIff(s, a);
    }
    Runs.Invariant(Apply, kept, Init(cap, n), run);
  }

  ghost predicate LosesConsumer(s: State) { s.wc != [] && |s.buf| > Count(s.pc, PopAwake) }

  ghost predicate LosesProducer(s: State) { s.wp != [] && s.cap - |s.buf| > Count(s.pc, PushAwake) }

  /** A consumer's wake-up can be lost exactly when there are a slot and a second fiber. */
  lemma ConsumerLosesIff(cap: nat, n: nat)
    ensures (exists run :: LosesConsumer(Runs.Exec(Apply, Init(cap, n), run))) <==> cap >= 1 && n >= 2
  {
    if cap >= 1 && n >= 2 {
      var run := TryPushLosesWakeUp(cap, n, 0);
      assert LosesConsumer(Runs.Exec(Apply, Init(cap, n), run));
    } else {
      forall run ensures !LosesConsumer(Runs.Exec(Apply, Init(cap, n), run)) { AloneLosesNothing(cap, n, run); }
    }
  }

  /** A producer's exactly when there are two slots and a second fiber: a ring of one slot queues none. */
  lemma ProducerLosesIff(cap: nat, n: nat)
    ensures (exists run :: LosesProducer(Runs.Exec(Apply, Init(cap, n), run))) <==> cap >= 2 && n >= 2
  {
    if cap >= 2 && n >= 2 {
      var run := TryPopLosesWakeUp(cap, n, 0);
      SameParameters(cap, n, run);
      assert LosesProducer(Runs.Exec(Apply, Init(cap, n), run));
    } else {
      forall run ensures !LosesProducer(Runs.Exec(Apply, Init(cap, n), run)) {
        SameParameters(cap, n, run);
        AlwaysInv(cap, n, run);
        if cap != 1 { AloneLosesNothing(cap, n, run); }
      }
    }
  }

  lemma SameParameters(cap: nat, n: nat, run: seq<Step>)
    ensures var s := Runs.Exec(Apply, Init(cap, n), run); s.cap == cap && |s.pc| == n
  {
    Runs.Invariant(Apply, (s: State) => s.cap == cap && |s.pc| == n, Init(cap, n), run);
  }

  /** So producers and consumers never sleep at the same time with nobody on the way. */
  lemma BothSidesNeverAsleep(cap: nat, n: nat, run: seq<Step>)
    requires cap >= 1 && forall k :: 0 <= k < |run| ==> !IsTry(run[k])
    ensures var s := Runs.Exec(Apply, Init(cap, n), run);
      s.wp != [] && s.wc != [] ==> exists f: nat :: f < |s.pc| && (s.pc[f].PushWoken? || s.pc[f].PopWoken?)
  {
    NoLostWakeUp(cap, n, run);
    SameParameters(cap, n, run);
    var s := Runs.Exec(Apply, Init(cap, n), run);
    if forall f: nat :: f < |s.pc| ==> !(s.pc[f].PushWoken? || s.pc[f].PopWoken?) {
      NoneCounted(s.pc, PushAwake);
      NoneCounted(s.pc, PopAwake);
    }
  }

  lemma ClosedQueues(s: State)
    requires Inv(s) && s.closed
    ensures s.wp == [] && s.wc == []
    ensures forall f: nat :: f < |s.pc| ==> !s.pc[f].PushWait? && !s.pc[f].PopWait?
  {
    forall f: nat | f < |s.pc| ensures !s.pc[f].PushWait? && !s.pc[f].PopWait? { assert f !in s.wp && f !in s.wc; }
  }

  lemma {:induction false} StaysClosed(s: State, more: seq<Step>)
    requires s.closed
    ensures var s' := Runs.Exec(Apply, s, more); s'.closed && s'.pushed == s.pushed
    decreases |more|
  {
    if more != [] { StaysClosed(s, more[..|more| - 1]); }
  }

  /** Once closed, nobody is queued and nobody will be; values still stored come out in order. */
  lemma NobodyWaitsAfterClose(cap: nat, n: nat, run: seq<Step>, more: seq<Step>)
    ensures var s := Runs.Exec(Apply, Init(cap, n), run); var s' := Runs.Exec(Apply, Init(cap, n), run + more);
      s.closed ==>
        && s'.closed && s'.wp == [] && s'.wc == [] && s'.pushed == s.pushed
        && forall f: nat :: f < |s'.pc| ==> !s'.pc[f].PushWait? && !s'.pc[f].PopWait?
  {
    var s := Runs.Exec(Apply, Init(cap, n), run);
    if s.closed {
      Runs.Split(Apply, Init(cap, n), run, more);
      AlwaysInv(cap, n, run + more);
      StaysClosed(s, more);
      ClosedQueues(Runs.Exec(Apply, Init(cap, n), run + more));
    }
  }

  /** A round that spins does not return. */
  datatype Outcome = Success | Closed | Suspended | Spins

  /** What one round of a push or pop answers. */
  function PushAnswer(s: State): Outcome {
    if s.closed then Closed else if HasRoom(s) then Success else Suspended
  }

  function PopAnswer(s: State): Outcome {
    if Overrun(s) then Spins else if s.buf != [] then Success else if s.closed then Closed else Suspended
  }

  lemma {:induction false} StaysDrained(s: State, more: seq<Step>)
    requires s.closed && s.buf == []
    ensures var s' := Runs.Exec(Apply, s, more);
      s'.closed && s'.buf == [] && s'.pushed == s.pushed && s'.popped == s.popped
    decreases |more|
  {
    if more != [] {
      StaysDrained(s, more[..|more| - 1]);
      DrainedStep(Runs.Exec(Apply, s, more[..|more| - 1]), more[|more| - 1]);
    }
  }

  lemma DrainedStep(s: State, a: Step)
    requires s.closed && s.buf == []
    ensures var s' := Apply(s, a); s'.closed && s'.buf == [] && s'.pushed == s.pushed && s'.popped == s.popped
  {
  }

  /** pop reports closed only on a drained channel: every value ever pushed has been popped, in order,
      and none will be pushed again. */
  lemma ClosedMeansDrained(cap: nat, n: nat, run: seq<Step>, more: seq<Step>)
    ensures var s := Runs.Exec(Apply, Init(cap, n), run); var s' := Runs.Exec(Apply, Init(cap, n), run + more);
      PopAnswer(s) == Closed ==> s.popped == s.pushed && s'.pushed == s.pushed && s'.popped == s.pushed
  {
    AlwaysInv(cap, n, run);
    var s := Runs.Exec(Apply, Init(cap, n), run);
    if PopAnswer(s) == Closed {
      Runs.Split(Apply, Init(cap, n), run, more);
      StaysDrained(s, more);
    }
  }

  /** Values come out in the order they went in, none lost and none twice; and with two slots or more no
      more than `cap` are on the way. */
  lemma FirstInFirstOut(cap: nat, n: nat, run: seq<Step>)
    ensures var s := Runs.Exec(Apply, Init(cap, n), run);
      s.pushed == s.popped + s.buf && (cap != 1 ==> |s.buf| <= cap && !s.spins)
  {
    AlwaysInv(cap, n, run);
    SameParameters(cap, n, run);
    if cap != 1 { NeverSpins(cap, n, run); }
  }

  lemma NeverSpins(cap: nat, n: nat, run: seq<Step>)
    requires cap != 1
    ensures !Runs.Exec(Apply, Init(cap, n), run).spins
  {
    Runs.Invariant(Apply, (s: State) => s.cap != 1 && !s.spins, Init(cap, n), run);
  }

  /** Two pushes into a ring of one slot both succeed, and the next pop never ends. */
  lemma SingleSlotSpins(n: nat, v: Value, w: Value) returns (run: seq<Step>)
    requires n >= 1
    ensures run == [Push(0, v), Push(0, w), Pop(0)]
    ensures var s := Runs.Exec(Apply, Init(1, n), run); s.spins && s.pushed == s.buf == [v, w]
  {
    var s := Init(1, n);
    Runs.Start(Apply, s);
    run, s := Runs.Then(Apply, Init(1, n), [], s, Push(0, v));
    run, s := Runs.Then(Apply, Init(1, n), run, s, Push(0, w));
    run, s := Runs.Then(Apply, Init(1, n), run, s, Pop(0));
  }

  lemma NobodyMoves(cap: nat, run: seq<Step>)
    ensures Runs.Exec(Apply, Init(cap, 0), run) == Init(cap, 0)
  {
    Runs.Invariant(Apply, (s: State) => s == Init(cap, 0), Init(cap, 0), run);
  }

  /** A pop can hang the thread exactly on a ring of one slot. */
  lemma SpinsIff(cap: nat, n: nat)
    ensures (exists run :: Runs.Exec(Apply, Init(cap, n), run).spins) <==> cap == 1 && n >= 1
  {
    if cap == 1 && n >= 1 {
      var run := SingleSlotSpins(n, 0, 0);
      assert Runs.Exec(Apply, Init(cap, n), run).spins;
    } else {
      forall run ensures !Runs.Exec(Apply, Init(cap, n), run).spins {
        FirstInFirstOut(cap, n, run);
        if n == 0 { NobodyMoves(cap, run); }
      }
    }
  }

  /** And exactly there more values than slots are on the way. */
  lemma BoundedIff(cap: nat, n: nat)
    ensures (forall run :: |Runs.Exec(Apply, Init(cap, n), run).buf| <= cap) <==> cap != 1 || n == 0
  {
    if cap == 1 && n >= 1 {
      var run := SingleSlotSpins(n, 0, 0);
      assert |Runs.Exec(Apply, Init(cap, n), run).buf| == 2;
    } else {
      forall run ensures |Runs.Exec(Apply, Init(cap, n), run).buf| <= cap {
        FirstInFirstOut(cap, n, run);
        if n == 0 { NobodyMoves(cap, run); }
      }
    }
  }

  // ---- which values go in and come out

  /** The value of the last push that fiber f has begun. */
  function LastPush(cap: nat, n: nat, run: seq<Step>, f: Fiber): Option<Value> {
    if run == [] then None
    else
      var front, a := run[..|run| - 1], run[|run| - 1];
      if a.Push? && a.f == f && Enabled(Runs.Exec(Apply, Init(cap, n), front), a) then Some(a.v)
      else LastPush(cap, n, front, f)
  }

  /** The value in the hands of a fiber that is inside push. */
  function Held(p: Pc): Option<Value> {
    match p
    case PushWait(v) => Some(v)
    case PushWoken(v) => Some(v)
    case _ => None
  }

  lemma StepKeepsHeld(s: State, a: Step, f: Fiber)
    requires Queues(s) && f < |s.pc|
    ensures |Apply(s, a).pc| == |s.pc|
    ensures Held(Apply(s, a).pc[f]).Some? ==>
      Held(Apply(s, a).pc[f]) == if Enabled(s, a) && a.Push? && a.f == f then Some(a.v) else Held(s.pc[f])
  {
    Front(s.wp);
    Front(s.wc);
  }

  /** A suspended push keeps its value, however often it is woken and queued again. */
  lemma {:induction false} SuspendedKeepsValue(cap: nat, n: nat, run: seq<Step>, f: Fiber)
    requires f < n
    ensures var s := Runs.Exec(Apply, Init(cap, n), run);
      |s.pc| == n && (Held(s.pc[f]).Some? ==> Held(s.pc[f]) == LastPush(cap, n, run, f))
    decreases |run|
  {
    if run != [] {
      var front := run[..|run| - 1];
      SuspendedKeepsValue(cap, n, front, f);
      AlwaysInv(cap, n, front);
      StepKeepsHeld(Runs.Exec(Apply, Init(cap, n), front), run[|run| - 1], f);
    }
  }

  /** The value that a step would put into the channel: its argument, or, on a retry, that of the call. */
  function Offered(cap: nat, n: nat, run: seq<Step>, a: Step): Option<Value> {
    match a
    case Push(_, v) => Some(v)
    case TryPush(_, v) => Some(v)
    case RetryPush(f) => LastPush(cap, n, run, f)
    case _ => None
  }

  /** A step of a push puts exactly its value in, when the channel is open and has room; one of a pop takes
      out exactly the oldest; and nothing else changes what goes in and comes out. */
  ghost predicate MovesItsValue(s: State, a: Step, offered: Option<Value>, s': State) {
    && s'.pushed == (if Enabled(s, a) && offered.Some? && !s.closed && HasRoom(s) then s.pushed + [offered.value] else s.pushed)
    && s'.popped == (if Enabled(s, a) && (a.Pop? || a.RetryPop? || a.TryPop?) && s.buf != [] && !Overrun(s)
                     then s.popped + [s.buf[0]] else s.popped)
    && s'.pushed == s'.popped + s'.buf
  }

  lemma EveryStepMovesItsValue(cap: nat, n: nat, run: seq<Step>, a: Step)
    ensures var s := Runs.Exec(Apply, Init(cap, n), run); MovesItsValue(s, a, Offered(cap, n, run, a), Apply(s, a))
  {
    AlwaysInv(cap, n, run);
    var s := Runs.Exec(Apply, Init(cap, n), run);
    StepKeepsInv(s, a);
    SameParameters(cap, n, run);
    if a.RetryPush? && a.f < n { SuspendedKeepsValue(cap, n, run, a.f); }
    StepMoves(s, a, Offered(cap, n, run, a));
  }

  lemma StepMoves(s: State, a: Step, offered: Option<Value>)
    requires Inv(Apply(s, a))
    requires match a
      case Push(_, v) => offered == Some(v)
      case TryPush(_, v) => offered == Some(v)
      case RetryPush(f) => Enabled(s, a) ==> offered == Held(s.pc[f])
      case _ => offered == None
    ensures MovesItsValue(s, a, offered, Apply(s, a))
  {
  }

  // ---- the queue is the ring of RingChannel

  ghost predicate Quiet(s: R.State) {
    forall t :: 0 <= t < |s.pc| ==> s.pc[t].Idle?
  }

  /** An undisturbed try_push_ up to its decision. */
  lemma QuietOffer(cap: nat, n: nat, run: seq<R.Step>, s: R.State, t: Fiber, v: Value)
    returns (run': seq<R.Step>, s': R.State)
    requires cap >= 2 && t < n && Runs.Reached(R.Apply, R.Init(cap, n), run, s) && Quiet(s)
    ensures Runs.Reached(R.Apply, R.Init(cap, n), run', s') && t < |s.pc| == n
    ensures s' == s.(pc := s.pc[t := if |R.Queue(s)| < cap then R.PushCas(v, s.prod) else R.Idle])
  {
    RingFacts(cap, n, run, s);
    run', s' := Runs.Then(R.Apply, R.Init(cap, n), run, s, R.PushBegin(t, v));
    run', s' := Runs.Then(R.Apply, R.Init(cap, n), run', s', R.PushLoadIndex(t));
    run', s' := Runs.Then(R.Apply, R.Init(cap, n), run', s', R.PushLoadCycle(t));
    assert s'.pc == s.pc[t := if |R.Queue(s)| < cap then R.PushCas(v, s.prod) else R.Idle];
  }

  /** A try_push_ that no other thread disturbs: it succeeds exactly when there is room. */
  lemma QuietPush(cap: nat, n: nat, run: seq<R.Step>, s: R.State, t: Fiber, v: Value)
    returns (run': seq<R.Step>, s': R.State)
    requires cap >= 2 && t < n && Runs.Reached(R.Apply, R.Init(cap, n), run, s) && Quiet(s)
    ensures Runs.Reached(R.Apply, R.Init(cap, n), run', s') && Quiet(s')
    ensures R.Queue(s') == if |R.Queue(s)| < cap then R.Queue(s) + [v] else R.Queue(s)
  {
    RingFacts(cap, n, run, s);
    run', s' := QuietOffer(cap, n, run, s, t, v);
    if |R.Queue(s)| < cap {
      run', s' := Runs.Then(R.Apply, R.Init(cap, n), run', s', R.PushClaim(t, false));
      run', s' := Runs.Then(R.Apply, R.Init(cap, n), run', s', R.PushWrite(t));
      run', s' := Runs.Then(R.Apply, R.Init(cap, n), run', s', R.PushPublish(t));
    }
  }

  lemma RingFacts(cap: nat, n: nat, run: seq<R.Step>, s: R.State)
    requires cap >= 2 && Runs.Reached(R.Apply, R.Init(cap, n), run, s) && Quiet(s)
    ensures s.cap == |s.cycle| == |s.store| == cap && |s.pc| == n
    ensures s.cons <= s.prod == |s.pushLog| && |R.Queue(s)| == s.prod - s.cons <= cap
    ensures R.CycleAt(s, s.prod) == s.prod <==> s.prod < s.cons + cap
    ensures R.CycleAt(s, s.prod) <= s.prod && R.CycleAt(s, s.cons) <= s.cons + 1
    ensures R.CycleAt(s, s.cons) == s.cons + 1 <==> s.cons < s.prod
  {
    assert s == Runs.Exec(R.Apply, R.Init(cap, n), run);
    R.AlwaysInv(cap, n, run);
    R.SameParameters(cap, n, run);
    R.QuietTickets(cap, n, run);
    R.QuietMeans(s);
  }

  /** An undisturbed try_pop_ up to its decision. */
  lemma QuietLook(cap: nat, n: nat, run: seq<R.Step>, s: R.State, t: Fiber)
    returns (run': seq<R.Step>, s': R.State)
    requires cap >= 2 && t < n && Runs.Reached(R.Apply, R.Init(cap, n), run, s) && Quiet(s)
    ensures Runs.Reached(R.Apply, R.Init(cap, n), run', s') && t < |s.pc| == n
    ensures s' == s.(pc := s.pc[t := if R.Queue(s) != [] then R.PopCas(s.cons) else R.Idle])
  {
    RingFacts(cap, n, run, s);
    run', s' := Runs.Then(R.Apply, R.Init(cap, n), run, s, R.PopBegin(t));
    run', s' := Runs.Then(R.Apply, R.Init(cap, n), run', s', R.PopLoadIndex(t));
    run', s' := Runs.Then(R.Apply, R.Init(cap, n), run', s', R.PopLoadCycle(t));
    assert s'.pc == s.pc[t := if R.Queue(s) != [] then R.PopCas(s.cons) else R.Idle];
  }

  /** The rest of a successful try_pop_. */
  lemma QuietTake(cap: nat, n: nat, run: seq<R.Step>, s: R.State, t: Fiber)
    returns (run': seq<R.Step>, s': R.State)
    requires Runs.Reached(R.Apply, R.Init(cap, n), run, s) && t < |s.pc| && s.pc[t] == R.PopCas(s.cons)
    requires s.cap > 0 && |s.cycle| == |s.store| == s.cap && s.cons < |s.pushLog|
    requires forall u :: 0 <= u < |s.pc| && u != t ==> s.pc[u].Idle?
    ensures Runs.Reached(R.Apply, R.Init(cap, n), run', s') && Quiet(s')
    ensures R.Queue(s') == R.Queue(s)[1..]
  {
    run', s' := Runs.Then(R.Apply, R.Init(cap, n), run, s, R.PopClaim(t, false));
    run', s' := Runs.Then(R.Apply, R.Init(cap, n), run', s', R.PopTake(t));
    run', s' := Runs.Then(R.Apply, R.Init(cap, n), run', s', R.PopFree(t));
  }

  /** An undisturbed try_pop_: it takes the front unless the ring is empty. */
  lemma QuietPop(cap: nat, n: nat, run: seq<R.Step>, s: R.State, t: Fiber)
    returns (run': seq<R.Step>, s': R.State)
    requires cap >= 2 && t < n && Runs.Reached(R.Apply, R.Init(cap, n), run, s) && Quiet(s)
    ensures Runs.Reached(R.Apply, R.Init(cap, n), run', s') && Quiet(s')
    ensures R.Queue(s') == if R.Queue(s) != [] then R.Queue(s)[1..] else []
  {
    RingFacts(cap, n, run, s);
    run', s' := QuietLook(cap, n, run, s, t);
    if R.Queue(s) != [] { run', s' := QuietTake(cap, n, run', s', t); }
  }

  /** What the ring looks like between segments: quiet, and is_full_ and is_empty_ tell the state of the
      queue. Or the one fiber that spins never finds its slot. */
  ghost predicate Carries(r: R.State, s: State, n: nat) {
    && |r.cycle| == r.cap == s.cap > 0 && R.Queue(r) == s.buf && |r.pc| == n
    && (if s.spins then exists t :: One.Spins(r, t)
        else Quiet(r) && (R.IsFull(r) <==> !HasRoom(s)) && (R.IsEmpty(r) <==> s.buf == []))
    && (s.cap == 1 && !s.spins ==> One.Single(r))
  }

  /** Every run of the blocking operations is carried by a run of the lock-free ring, for every capacity. */
  lemma {:induction false} RingCarriesBuffer(cap: nat, n: nat, run: seq<Step>) returns (ring: seq<R.Step>)
    requires cap >= 1
    ensures Carries(Runs.Exec(R.Apply, R.Init(cap, n), ring), Runs.Exec(Apply, Init(cap, n), run), n)
    decreases |run|
  {
    if run == [] {
      ring := [];
      if cap == 1 { One.SingleStart(n); } else { StartCarries(cap, n); }
    } else {
      var before := run[..|run| - 1];
      ring := RingCarriesBuffer(cap, n, before);
      Bounds(cap, n, before);
      Bounds(cap, n, run);
      var r := Runs.Exec(R.Apply, R.Init(cap, n), ring);
      ring, r := CarryOn(cap, n, ring, r, Runs.Exec(Apply, Init(cap, n), before), run[|run| - 1]);
      assert r == Runs.Exec(R.Apply, R.Init(cap, n), ring);
    }
  }

  ghost predicate Bounded(s: State, cap: nat, n: nat) {
    s.cap == cap && |s.pc| == n && (cap != 1 ==> |s.buf| <= cap && !s.spins)
  }

  lemma Bounds(cap: nat, n: nat, run: seq<Step>)
    ensures Bounded(Runs.Exec(Apply, Init(cap, n), run), cap, n)
  {
    FirstInFirstOut(cap, n, run);
    SameParameters(cap, n, run);
  }

  lemma CarryOn(cap: nat, n: nat, ring: seq<R.Step>, r: R.State, s: State, a: Step)
    returns (ring': seq<R.Step>, r': R.State)
    requires cap >= 1 && Runs.Reached(R.Apply, R.Init(cap, n), ring, r) && Carries(r, s, n)
    requires Bounded(s, cap, n) && Bounded(Apply(s, a), cap, n)
    ensures Runs.Reached(R.Apply, R.Init(cap, n), ring', r') && Carries(r', Apply(s, a), n)
  {
    if cap == 1 {
      ring', r' := CarrySingle(n, ring, r, s, a);
    } else {
      ring', r' := CarryStep(cap, n, ring, r, s, a);
      QuietCarries(cap, n, ring', r', Apply(s, a));
    }
  }

  lemma StartCarries(cap: nat, n: nat)
    requires cap >= 2
    ensures Carries(R.Init(cap, n), Init(cap, n), n)
  {
    Runs.Start(R.Apply, R.Init(cap, n));
    QuietCarries(cap, n, [], R.Init(cap, n), Init(cap, n));
  }

  lemma QuietCarries(cap: nat, n: nat, ring: seq<R.Step>, r: R.State, s: State)
    requires cap >= 2 && Runs.Reached(R.Apply, R.Init(cap, n), ring, r) && Quiet(r)
    requires s.cap == cap && !s.spins && R.Queue(r) == s.buf && |s.buf| <= cap
    ensures Carries(r, s, n)
  {
    assert r == Runs.Exec(R.Apply, R.Init(cap, n), ring);
    R.QuietStatus(cap, n, ring);
    RingFacts(cap, n, ring, r);
  }

  lemma CarryStep(cap: nat, n: nat, ring: seq<R.Step>, r: R.State, s: State, a: Step)
    returns (ring': seq<R.Step>, r': R.State)
    requires cap >= 2 && Runs.Reached(R.Apply, R.Init(cap, n), ring, r) && Quiet(r)
    requires s.cap == cap && |s.pc| == n && R.Queue(r) == s.buf && |s.buf| <= cap
    ensures Runs.Reached(R.Apply, R.Init(cap, n), ring', r') && Quiet(r') && R.Queue(r') == Apply(s, a).buf
  {
    ring', r' := ring, r;
    if Enabled(s, a) {
      BufferStep(s, a);
      if Pushes(s, a) {
        ring', r' := QuietPush(cap, n, ring, r, a.f, PushedValue(s, a));
      } else if Pops(a) {
        ring', r' := QuietPop(cap, n, ring, r, a.f);
      }
    }
  }

  function PushedValue(s: State, a: Step): Value
    requires Enabled(s, a) && (a.Push? || a.RetryPush? || a.TryPush?)
  {
    if a.RetryPush? then s.pc[a.f].v else a.v
  }

  /** What a step does to the buffer. */
  lemma BufferStep(s: State, a: Step)
    requires Enabled(s, a)
    ensures var s' := Apply(s, a);
      && s'.cap == s.cap && (s'.spins <==> Pops(a) && Overrun(s))
      && s'.buf == if Pushes(s, a) && HasRoom(s) then s.buf + [PushedValue(s, a)]
                   else if Pops(a) && s.buf != [] && !Overrun(s) then s.buf[1..] else s.buf
  {
  }

  lemma SingleCarries(r: R.State, s: State)
    requires s.cap == 1 && !s.spins && One.Single(r) && R.Queue(r) == s.buf
    ensures Carries(r, s, |r.pc|)
  {
    One.NeverFull(r);
  }

  /** The same on a ring of one slot. */
  lemma CarrySingle(n: nat, ring: seq<R.Step>, r: R.State, s: State, a: Step)
    returns (ring': seq<R.Step>, r': R.State)
    requires Runs.Reached(R.Apply, R.Init(1, n), ring, r) && Carries(r, s, n) && s.cap == 1 && |s.pc| == n
    ensures Runs.Reached(R.Apply, R.Init(1, n), ring', r') && Carries(r', Apply(s, a), n)
  {
    ring', r' := ring, r;
    if Enabled(s, a) {
      BufferStep(s, a);
      if Pushes(s, a) {
        ring', r' := One.Push(n, ring, r, a.f, PushedValue(s, a));
      } else if Pops(a) {
        ring', r' := One.Pop(n, ring, r, a.f);
      }
      if !Apply(s, a).spins { SingleCarries(r', Apply(s, a)); }
    }
  }

  predicate Pops(a: Step) { a.Pop? || a.RetryPop? || a.TryPop? }

  predicate Pushes(s: State, a: Step) {
    (a.Push? || a.RetryPush? || a.TryPush?) && !s.closed
  }

  // ---- the channel in the form of the source

  /** One method per segment: a suspended push or pop is continued by PushResumed or PopResumed. */
  class BlockingChannel {
    const capacity: nat
    var buffer: seq<Value>
    var closed: bool
    var waitingProducers: seq<Fiber>
    var waitingConsumers: seq<Fiber>
    ghost const fibers: nat
    ghost var run: seq<Step>
    ghost var m: State

    ghost predicate Valid()
      reads this
    {
      && capacity == m.cap && buffer == m.buf && closed == m.closed && |m.pc| == fibers
      && waitingProducers == m.wp && waitingConsumers == m.wc
      && Runs.Reached(Apply, Init(capacity, fibers), run, m)
    }

    constructor (capacity: nat, ghost fibers: nat)
      ensures Valid() && this.capacity == capacity && this.fibers == fibers && run == []
    {
      this.capacity := capacity;
      buffer, closed, waitingProducers, waitingConsumers := [], false, [], [];
      this.fibers := fibers;
      run, m := [], Init(capacity, fibers);
      new;
      Runs.Start(Apply, Init(capacity, fibers));
    }

    ghost method Do(a: Step)
      requires Runs.Reached(Apply, Init(capacity, fibers), run, m)
      modifies this`run, this`m
      ensures run == old(run) + [a] && m == Apply(old(m), a)
      ensures Runs.Reached(Apply, Init(capacity, fibers), run, m)
    {
      run, m := Runs.Then(Apply, Init(capacity, fibers), run, m, a);
    }

    lemma Facts()
      requires Valid()
      ensures waitingProducers != [] ==> waitingProducers[0] < fibers
      ensures waitingConsumers != [] ==> waitingConsumers[0] < fibers
    {
      AlwaysInv(capacity, fibers, run);
      Front(m.wp);
      Front(m.wc);
    }

    lemma Fifo()
      requires Valid()
      ensures m.pushed == m.popped + m.buf
    {
      FirstInFirstOut(capacity, fibers, run);
    }

    method DrainProducers() returns (readied: seq<Fiber>)
      modifies this`waitingProducers
      ensures readied == old(waitingProducers) && waitingProducers == []
    {
      readied := [];
      while waitingProducers != []
        invariant readied + waitingProducers == old(waitingProducers)
        decreases |waitingProducers|
      {
        readied := readied + [waitingProducers[0]];
        waitingProducers := waitingProducers[1..];
      }
    }

    method DrainConsumers() returns (readied: seq<Fiber>)
      modifies this`waitingConsumers
      ensures readied == old(waitingConsumers) && waitingConsumers == []
    {
      readied := [];
      while waitingConsumers != []
        invariant readied + waitingConsumers == old(waitingConsumers)
        decreases |waitingConsumers|
      {
        readied := readied + [waitingConsumers[0]];
        waitingConsumers := waitingConsumers[1..];
      }
    }

    /** close(): wakes every waiting producer, then every waiting consumer, in the order they queued. */
    method Shut(f: Fiber) returns (readied: seq<Fiber>)
      requires Valid() && f < fibers && !m.spins && m.pc[f].Idle?
      modifies this
      ensures Valid() && run == old(run) + [Close(f)] && closed && buffer == old(buffer)
      ensures readied == old(waitingProducers) + old(waitingConsumers)
      ensures waitingProducers == [] && waitingConsumers == []
      ensures |m.pc| == |old(m).pc| && forall g :: 0 <= g < |m.pc| ==>
        m.pc[g] == if g in readied then Wake(old(m).pc[g]) else old(m).pc[g]
    {
      Do(Close(f));
      closed := true;
      var producers := DrainProducers();
      var consumers := DrainConsumers();
      readied := producers + consumers;
    }

    method PushRound(f: Fiber, v: Value) returns (r: Outcome)
      modifies this`buffer, this`waitingProducers, this`waitingConsumers
      ensures r == if closed then Closed else if capacity == 1 || |old(buffer)| < capacity then Success else Suspended
      ensures buffer == if r == Success then old(buffer) + [v] else old(buffer)
      ensures waitingProducers == if r == Suspended then old(waitingProducers) + [f] else old(waitingProducers)
      ensures waitingConsumers ==
        if r == Success && old(waitingConsumers) != [] then old(waitingConsumers)[1..] else old(waitingConsumers)
    {
      if closed {
        return Closed;
      }
      if capacity == 1 || |buffer| < capacity {
        buffer := buffer + [v];
        if waitingConsumers != [] {
          waitingConsumers := waitingConsumers[1..];
        }
        return Success;
      }
      waitingProducers := waitingProducers + [f];
      return Suspended;
    }

    /** push, up to its first suspension. A push that is suspended keeps its value. */
    method PushValue(f: Fiber, v: Value) returns (r: Outcome)
      requires Valid() && f < fibers && !m.spins && m.pc[f].Idle?
      modifies this
      ensures Valid() && run == old(run) + [Push(f, v)] && r == PushAnswer(old(m))
      ensures PushEnds(old(m), m, f, v, r)
      ensures m.pushed == if r == Success then old(m).pushed + [v] else old(m).pushed
      ensures m.popped == old(m).popped
    {
      Facts();
      Do(Push(f, v));
      r := PushRound(f, v);
    }

    method PushResumed(f: Fiber, v: Value) returns (r: Outcome)
      requires Valid() && f < fibers && !m.spins && m.pc[f] == PushWoken(v)
      modifies this
      ensures Valid() && run == old(run) + [RetryPush(f)] && r == PushAnswer(old(m))
      ensures PushEnds(old(m), m, f, v, r)
      ensures m.pushed == if r == Success then old(m).pushed + [v] else old(m).pushed
      ensures m.popped == old(m).popped
    {
      Facts();
      Do(RetryPush(f));
      r := PushRound(f, v);
    }

    method PopRound(f: Fiber) returns (r: Outcome, v: Option<Value>)
      modifies this`buffer, this`waitingProducers, this`waitingConsumers
      ensures r == if capacity == 1 && |old(buffer)| >= 2 then Spins else if old(buffer) != [] then Success else if closed then Closed else Suspended
      ensures v == if r == Success then Some(old(buffer)[0]) else None
      ensures buffer == if r == Success then old(buffer)[1..] else old(buffer)
      ensures waitingConsumers == if r == Suspended then old(waitingConsumers) + [f] else old(waitingConsumers)
      ensures waitingProducers ==
        if r == Success && old(waitingProducers) != [] then old(waitingProducers)[1..] else old(waitingProducers)
    {
      if capacity == 1 && |buffer| >= 2 {
        return Spins, None;
      }
      if buffer != [] {
        v := Some(buffer[0]);
        buffer := buffer[1..];
        if waitingProducers != [] {
          waitingProducers := waitingProducers[1..];
        }
        return Success, v;
      }
      if closed {
        return Closed, None;
      }
      waitingConsumers := waitingConsumers + [f];
      return Suspended, None;
    }

    /** pop and value_pop; the answer Closed is the exception of the latter. */
    method PopValue(f: Fiber) returns (r: Outcome, v: Option<Value>)
      requires Valid() && f < fibers && !m.spins && m.pc[f].Idle?
      modifies this
      ensures Valid() && run == old(run) + [Pop(f)] && r == PopAnswer(old(m))
      ensures (r == Success <==> v.Some?) && (r == Spins <==> m.spins)
      ensures PopEnds(old(m), m, f, v, r)
      ensures m.popped == if v.Some? then old(m).popped + [v.value] else old(m).popped
      ensures m.pushed == old(m).pushed && (r == Closed ==> m.popped == m.pushed)
    {
      Facts();
      Do(Pop(f));
      r, v := PopRound(f);
      Fifo();
    }

    method PopResumed(f: Fiber) returns (r: Outcome, v: Option<Value>)
      requires Valid() && f < fibers && !m.spins && m.pc[f].PopWoken?
      modifies this
      ensures Valid() && run == old(run) + [RetryPop(f)] && r == PopAnswer(old(m))
      ensures (r == Success <==> v.Some?) && (r == Spins <==> m.spins)
      ensures PopEnds(old(m), m, f, v, r)
      ensures m.popped == if v.Some? then old(m).popped + [v.value] else old(m).popped
      ensures m.pushed == old(m).pushed && (r == Closed ==> m.popped == m.pushed)
    {
      Facts();
      Do(RetryPop(f));
      r, v := PopRound(f);
      Fifo();
    }

    /** try_push: never suspends, and wakes nobody. */
    method TryPushValue(f: Fiber, v: Value) returns (r: Outcome)
      requires Valid() && f < fibers && !m.spins && m.pc[f].Idle?
      modifies this
      ensures Valid() && run == old(run) + [TryPush(f, v)]
      ensures r == PushAnswer(old(m))      // Suspended stands for full
      ensures buffer == (if r == Success then old(buffer) + [v] else old(buffer)) && closed == old(closed)
      ensures m.pushed == (if r == Success then old(m).pushed + [v] else old(m).pushed) && m.popped == old(m).popped
      ensures m.pc == old(m).pc && waitingProducers == old(waitingProducers) && waitingConsumers == old(waitingConsumers)
    {
      Do(TryPush(f, v));
      if closed {
        return Closed;
      }
      if capacity == 1 || |buffer| < capacity {
        buffer := buffer + [v];
        return Success;
      }
      return Suspended;
    }

    /** try_pop: never suspends, and wakes nobody. */
    method TryPopValue(f: Fiber) returns (r: Outcome, v: Option<Value>)
      requires Valid() && f < fibers && !m.spins && m.pc[f].Idle?
      modifies this
      ensures Valid() && run == old(run) + [TryPop(f)]
      ensures r == PopAnswer(old(m))      // Suspended stands for empty
      ensures (r == Success <==> v.Some?) && (r == Spins <==> m.spins)
      ensures buffer == (if r == Success then old(buffer)[1..] else old(buffer)) && closed == old(closed)
      ensures m.popped == if v.Some? then old(m).popped + [v.value] else old(m).popped
      ensures m.pc == old(m).pc && waitingProducers == old(waitingProducers) && waitingConsumers == old(waitingConsumers)
    {
      Do(TryPop(f));
      if capacity == 1 && |buffer| >= 2 {
        return Spins, None;
      }
      if buffer != [] {
        v := Some(buffer[0]);
        buffer := buffer[1..];
        return Success, v;
      }
      return if closed then Closed else Suspended, None;
    }
  }

  /** The front of queue q, if there is one, has been woken; q' and pc' are what is left. */
  predicate WokeFront(pc: seq<Pc>, q: seq<Fiber>, pc': seq<Pc>, q': seq<Fiber>) {
    if q == [] then q' == [] && pc' == pc
    else q[0] < |pc| && q' == q[1..] && pc' == pc[q[0] := Wake(pc[q[0]])]
  }

  /** The channel after a round of push that answers r. */
  predicate PushEnds(s: State, s': State, f: Fiber, v: Value, r: Outcome) {
    && f < |s.pc| && s'.closed == s.closed && s'.cap == s.cap && s'.spins == s.spins
    && match r
       case Success => s'.buf == s.buf + [v] && s'.wp == s.wp && WokeFront(s.pc[f := Idle], s.wc, s'.pc, s'.wc)
       case Suspended => s'.buf == s.buf && s'.wp == s.wp + [f] && s'.wc == s.wc && s'.pc == s.pc[f := PushWait(v)]
       case _ => s'.buf == s.buf && s'.wp == s.wp && s'.wc == s.wc && s'.pc == s.pc[f := Idle]
  }

  /** The channel after a round of pop. */
  predicate PopEnds(s: State, s': State, f: Fiber, v: Option<Value>, r: Outcome) {
    && f < |s.pc| && s'.closed == s.closed && s'.cap == s.cap
    && match r
       case Success =>
         s.buf != [] && v == Some(s.buf[0]) && s'.buf == s.buf[1..] && s'.wc == s.wc && WokeFront(s.pc[f := Idle], s.wp, s'.pc, s'.wp)
       case Suspended => s'.buf == s.buf && s'.wp == s.wp && s'.wc == s.wc + [f] && s'.pc == s.pc[f := PopWait]
       case Closed => s'.buf == s.buf && s'.wp == s.wp && s'.wc == s.wc && s'.pc == s.pc[f := Idle]
       case Spins => s'.buf == s.buf && s'.wp == s.wp && s'.wc == s.wc && s'.pc == s.pc && s'.spins
  }
}
