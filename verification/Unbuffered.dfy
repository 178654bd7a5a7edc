/** unbuffered_channel: a push hands its value over through one slot and waits until a pop has taken it.
    Untimed operations of one scheduler's fibers, each step one segment between suspension points. */
module Unbuffered {
  import opened Options
  import opened Counting
  import opened Lists
  import Runs

  type Fiber = nat
  type Value = nat

  /** The slot a push call keeps on its own stack. */
  datatype Call = Call(value: Value, ctx: Fiber)

  /** `id` numbers the push calls. */
  datatype Pc =
    | Idle
    | PushWait(id: nat)     // in waiting_producers_
    | PushWoken(id: nat)    // readied, about to try again
    | InSlot(id: nat)       // its slot is in the channel: suspended until consumed
    | Taken(id: nat)        // consumed and readied, about to return success
    | PopWait
    | PopWoken

  /** `calls` logs the push calls, `taken` the ones whose slot a pop took, `out` the values those pops
      returned, `outcome` whether a finished push returned success. */
  datatype State = State(
    slot: Option<nat>, closed: bool, wp: seq<Fiber>, wc: seq<Fiber>, pc: seq<Pc>,
    calls: seq<Call>, taken: seq<nat>, out: seq<Value>, outcome: map<nat, bool>)

  datatype Step =
    | Push(f: Fiber, v: Value)
    | RetryPush(f: Fiber)
    | PushReturns(f: Fiber)
    | Pop(f: Fiber)
    | RetryPop(f: Fiber)
    | Close(f: Fiber)

  function Init(n: nat): State {
    State(None, false, [], [], seq(n, _ => Idle), [], [], [], map[])
  }

  predicate Enabled(s: State, a: Step) {
    a.f < |s.pc| &&
    match a
    case RetryPush(f) => s.pc[f].PushWoken?
    case PushReturns(f) => s.pc[f].Taken?
    case RetryPop(f) => s.pc[f].PopWoken?
    case _ => s.pc[a.f].Idle?
  }

  function Wake(p: Pc): Pc {
    match p
    case PushWait(id) => PushWoken(id)
    case PopWait => PopWoken
    case _ => p
  }

  function WakeConsumer(s: State): State {
    if s.wc == [] || s.wc[0] >= |s.pc| then s else s.(wc := s.wc[1..], pc := s.pc[s.wc[0] := Wake(s.pc[s.wc[0]])])
  }

  function WakeProducer(s: State): State {
    if s.wp == [] || s.wp[0] >= |s.pc| then s else s.(wp := s.wp[1..], pc := s.pc[s.wp[0] := Wake(s.pc[s.wp[0]])])
  }

  /** One round of push call `id`: refused when closed, into a free slot, else queued. */
  function PushStep(s: State, f: Fiber, id: nat): State
    requires f < |s.pc|
  {
    if s.closed then s.(pc := s.pc[f := Idle], outcome := s.outcome[id := false])
    else if s.slot == None then WakeConsumer(s.(slot := Some(id), pc := s.pc[f := InSlot(id)]))
    else s.(wp := s.wp + [f], pc := s.pc[f := PushWait(id)])
  }

  /** The pop that finds call `id` in the slot, by fiber f: it empties the slot, wakes a queued producer,
      takes the value and readies the producer it came from. */
  function TakeStep(s: State, f: Fiber, id: nat): State
    requires f < |s.pc| && id < |s.calls|
  {
    var t := WakeProducer(s.(slot := None, pc := s.pc[f := Idle]));
    var p := s.calls[id].ctx;
    t.(taken := s.taken + [id], out := s.out + [s.calls[id].value],
       pc := if p < |t.pc| then t.pc[p := Taken(id)] else t.pc)
  }

  function PopStep(s: State, f: Fiber): State
    requires f < |s.pc|
  {
    if s.slot.Some? && s.slot.value < |s.calls| then TakeStep(s, f, s.slot.value)
    else if s.closed then s.(pc := s.pc[f := Idle])
    else s.(wc := s.wc + [f], pc := s.pc[f := PopWait])
  }

  /** close() readies everyone in a queue; the producer in the slot is in none. */
  function CloseStep(s: State): State {
    s.(closed := true, wp := [], wc := [],
       pc := seq(|s.pc|, i requires 0 <= i < |s.pc| => if i in s.wp || i in s.wc then Wake(s.pc[i]) else s.pc[i]))
  }

  function Apply(s: State, a: Step): State {
    if !Enabled(s, a) then s else
    match a
    case Push(f, v) => PushStep(s.(calls := s.calls + [Call(v, f)]), f, |s.calls|)
    case RetryPush(f) => PushStep(s, f, s.pc[f].id)
    case PushReturns(f) => s.(pc := s.pc[f := Idle], outcome := s.outcome[s.pc[f].id := true])
    case Pop(f) => PopStep(s, f)
    case RetryPop(f) => PopStep(s, f)
    case Close(_) => CloseStep(s)
  }

  // ---- the invariant

  ghost predicate Queues(s: State) {
    && Distinct(s.wp) && Distinct(s.wc)
    && (forall f: nat :: f in s.wp <==> f < |s.pc| && s.pc[f].PushWait?)
    && (forall f: nat :: f in s.wc <==> f < |s.pc| && s.pc[f].PopWait?)
    && (s.closed ==> s.wp == [] && s.wc == [])
  }

  predicate InPush(p: Pc) { p.PushWait? || p.PushWoken? || p.InSlot? || p.Taken? }

  /** A fiber inside push works on an unfinished call of its own, taken or not as its place says. */
  ghost predicate PcInv(s: State, f: nat, p: Pc) {
    InPush(p) ==>
      && p.id < |s.calls| && s.calls[p.id].ctx == f && p.id !in s.outcome
      && (p.Taken? <==> p.id in s.taken)
      && (p.InSlot? <==> s.slot == Some(p.id))
  }

  /** A call is finished, with the right answer, or its fiber is still inside it. */
  ghost predicate CallInv(s: State, id: nat)
    requires id < |s.calls|
  {
    if id in s.outcome then s.outcome[id] <==> id in s.taken
    else s.calls[id].ctx < |s.pc| && InPush(s.pc[s.calls[id].ctx]) && s.pc[s.calls[id].ctx].id == id
  }

  ghost predicate Logs(s: State) {
    && Distinct(s.taken) && |s.out| == |s.taken|
    && (forall k :: 0 <= k < |s.taken| ==> s.taken[k] < |s.calls| && s.out[k] == s.calls[s.taken[k]].value)
    && (forall id :: id in s.outcome ==> id < |s.calls|)
    && (s.slot.Some? ==> s.slot.value < |s.calls| && s.slot.value !in s.outcome && s.slot.value !in s.taken)
  }

  ghost predicate Rendezvous(s: State) {
    && Logs(s)
    && (forall f: nat :: f < |s.pc| ==> PcInv(s, f, s.pc[f]))
    && (forall id: nat :: id < |s.calls| ==> CallInv(s, id))
  }

  predicate PushAwake(p: Pc) { p.PushWoken? }

  predicate PopAwake(p: Pc) { p.PopWoken? }

  ghost predicate WakeUps(s: State) {
    && (s.slot == None && s.wp != [] ==> Count(s.pc, PushAwake) >= 1)
    && (s.slot.Some? && s.wc != [] ==> Count(s.pc, PopAwake) >= 1)
  }

  ghost predicate Inv(s: State) {
    Queues(s) && Rendezvous(s) && WakeUps(s)
  }

  lemma WakeConsumerKeeps(s: State)
    requires Queues(s) && Rendezvous(s)
    ensures Queues(WakeConsumer(s)) && Rendezvous(WakeConsumer(s))
    ensures s.wc != [] ==> Count(WakeConsumer(s).pc, PopAwake) >= 1
  {
    Front(s.wc);
    if s.wc != [] {
      Behind(s.wc);
      var s' := WakeConsumer(s);
      Has(s'.pc, PopAwake, s.wc[0]);
      forall f: nat | f < |s'.pc| ensures PcInv(s', f, s'.pc[f]) { assert PcInv(s, f, s.pc[f]); }
      forall id: nat | id < |s'.calls| ensures CallInv(s', id) { assert CallInv(s, id); }
    }
  }

  lemma WakeProducerKeepsQueues(s: State)
    requires Queues(s)
    ensures Queues(WakeProducer(s))
    ensures s.wp != [] ==> Count(WakeProducer(s).pc, PushAwake) >= 1
  {
    Front(s.wp);
    if s.wp != [] {
      Behind(s.wp);
      Has(WakeProducer(s).pc, PushAwake, s.wp[0]);
    }
  }

  // ---- push

  /** The states in which f may run a round of push call id. */
  ghost predicate Pushing(s: State, f: Fiber, id: nat) {
    && Inv(s) && f < |s.pc| && s.pc[f] == PushWoken(id)
  }

  /** A new call is logged and looks like one that was just woken. */
  lemma NewCall(s: State, f: Fiber, v: Value)
    requires Inv(s) && f < |s.pc| && s.pc[f].Idle?
    ensures Pushing(s.(calls := s.calls + [Call(v, f)], pc := s.pc[f := PushWoken(|s.calls|)]), f, |s.calls|)
  {
    var id := |s.calls|;
    var t := s.(calls := s.calls + [Call(v, f)], pc := s.pc[f := PushWoken(id)]);
    Update(s.pc, PushAwake, f, PushWoken(id));
    Update(s.pc, PopAwake, f, PushWoken(id));
    forall g: nat | g < |t.pc| ensures PcInv(t, g, t.pc[g]) { assert PcInv(s, g, s.pc[g]); }
    forall j: nat | j < |t.calls| ensures CallInv(t, j) { assert j < id ==> CallInv(s, j); }
  }

  lemma RefusedKeepsInv(s: State, f: Fiber, id: nat)
    requires Pushing(s, f, id) && s.closed
    ensures Inv(PushStep(s, f, id))
  {
    var s' := PushStep(s, f, id);
    assert PcInv(s, f, s.pc[f]);
    forall g: nat | g < |s'.pc| ensures PcInv(s', g, s'.pc[g]) { assert PcInv(s, g, s.pc[g]); }
    forall j: nat | j < |s'.calls| ensures CallInv(s', j) { assert CallInv(s, j); }
  }

  lemma QueuedKeepsInv(s: State, f: Fiber, id: nat)
    requires Pushing(s, f, id) && !s.closed && s.slot.Some?
    ensures Inv(PushStep(s, f, id))
  {
    var s' := PushStep(s, f, id);
    assert PcInv(s, f, s.pc[f]);
    Update(s.pc, PopAwake, f, PushWait(id));
    forall g: nat | g < |s'.pc| ensures PcInv(s', g, s'.pc[g]) { assert PcInv(s, g, s.pc[g]); }
    forall j: nat | j < |s'.calls| ensures CallInv(s', j) { assert CallInv(s, j); }
  }

  lemma OfferKeeps(s: State, f: Fiber, id: nat)
    requires Pushing(s, f, id) && !s.closed && s.slot == None
    ensures var t := s.(slot := Some(id), pc := s.pc[f := InSlot(id)]); Queues(t) && Rendezvous(t)
  {
    var t := s.(slot := Some(id), pc := s.pc[f := InSlot(id)]);
    assert PcInv(s, f, s.pc[f]);
    forall g: nat | g < |t.pc| ensures PcInv(t, g, t.pc[g]) { assert PcInv(s, g, s.pc[g]); }
    forall j: nat | j < |t.calls| ensures CallInv(t, j) { assert CallInv(s, j); }
  }

  lemma PushKeepsInv(s: State, f: Fiber, id: nat)
    requires Pushing(s, f, id)
    ensures Inv(PushStep(s, f, id))
  {
    if s.closed {
      RefusedKeepsInv(s, f, id);
    } else if s.slot == None {
      OfferKeeps(s, f, id);
      WakeConsumerKeeps(s.(slot := Some(id), pc := s.pc[f := InSlot(id)]));
    } else {
      QueuedKeepsInv(s, f, id);
    }
  }

  // ---- pop

  /** Where fiber g stands after fiber f has taken the slot of call id. */
  function TakenPc(s: State, f: Fiber, id: nat, g: Fiber): Pc
    requires g < |s.pc| && id < |s.calls|
  {
    if g == s.calls[id].ctx then Taken(id) else if g == f then Idle
    else if s.wp != [] && g == s.wp[0] then Wake(s.pc[g]) else s.pc[g]
  }

  /** The pop that takes the slot: its two wake-ups touch two different fibers. */
  lemma TakePcs(s: State, f: Fiber, id: nat)
    requires Inv(s) && f < |s.pc| && (s.pc[f].Idle? || s.pc[f].PopWoken?) && s.slot == Some(id)
    ensures var s' := TakeStep(s, f, id); var p := s.calls[id].ctx;
      && p < |s.pc| == |s'.pc| && s.pc[p] == InSlot(id) && p != f && (s.wp != [] ==> s.wp[0] < |s.pc| && s.wp[0] != p)
      && s'.wp == (if s.wp == [] then [] else s.wp[1..]) && s'.wc == s.wc
      && forall g: nat :: g < |s.pc| ==> s'.pc[g] == TakenPc(s, f, id, g)
  {
    Front(s.wp);
    assert CallInv(s, id);
    assert PcInv(s, s.calls[id].ctx, s.pc[s.calls[id].ctx]);
  }

  lemma TakeKeepsCalls(s: State, f: Fiber, id: nat)
    requires Inv(s) && f < |s.pc| && (s.pc[f].Idle? || s.pc[f].PopWoken?) && s.slot == Some(id)
    ensures var s' := TakeStep(s, f, id); forall j: nat :: j < |s'.calls| ==> CallInv(s', j)
  {
    TakePcs(s, f, id);
    Front(s.wp);
    var s' := TakeStep(s, f, id);
    forall j: nat | j < |s'.calls| ensures CallInv(s', j) { assert CallInv(s, j); }
  }

  lemma TakeKeepsPcs(s: State, f: Fiber, id: nat)
    requires Inv(s) && f < |s.pc| && (s.pc[f].Idle? || s.pc[f].PopWoken?) && s.slot == Some(id)
    ensures var s' := TakeStep(s, f, id); forall g: nat :: g < |s'.pc| ==> PcInv(s', g, s'.pc[g])
  {
    TakePcs(s, f, id);
    Front(s.wp);
    var s' := TakeStep(s, f, id);
    forall g: nat | g < |s'.pc| ensures PcInv(s', g, s'.pc[g]) { assert PcInv(s, g, s.pc[g]); }
  }

  lemma TakeKeepsRendezvous(s: State, f: Fiber, id: nat)
    requires Inv(s) && f < |s.pc| && (s.pc[f].Idle? || s.pc[f].PopWoken?) && s.slot == Some(id)
    ensures Rendezvous(TakeStep(s, f, id))
  {
    TakeKeepsCalls(s, f, id);
    TakeKeepsPcs(s, f, id);
    assert Logs(TakeStep(s, f, id));
  }

  lemma TakeKeepsQueues(s: State, f: Fiber, id: nat)
    requires Inv(s) && f < |s.pc| && (s.pc[f].Idle? || s.pc[f].PopWoken?) && s.slot == Some(id)
    ensures Queues(TakeStep(s, f, id)) && WakeUps(TakeStep(s, f, id))
  {
    TakePcs(s, f, id);
    Front(s.wp);
    if s.wp != [] {
      Behind(s.wp);
      Has(TakeStep(s, f, id).pc, PushAwake, s.wp[0]);
    }
  }

  lemma PopKeepsInv(s: State, f: Fiber)
    requires Inv(s) && f < |s.pc| && (s.pc[f].Idle? || s.pc[f].PopWoken?)
    ensures Inv(PopStep(s, f))
  {
    if s.slot.Some? {
      TakeKeepsRendezvous(s, f, s.slot.value);
      TakeKeepsQueues(s, f, s.slot.value);
    } else {
      var s' := PopStep(s, f);
      Update(s.pc, PushAwake, f, s'.pc[f]);
      forall g: nat | g < |s'.pc| ensures PcInv(s', g, s'.pc[g]) { assert PcInv(s, g, s.pc[g]); }
      forall j: nat | j < |s'.calls| ensures CallInv(s', j) { assert CallInv(s, j); }
    }
  }

  lemma ReturnKeepsInv(s: State, f: Fiber)
    requires Inv(s) && Enabled(s, PushReturns(f))
    ensures Inv(Apply(s, PushReturns(f)))
  {
    var s' := Apply(s, PushReturns(f));
    Update(s.pc, PushAwake, f, Idle);
    Update(s.pc, PopAwake, f, Idle);
    assert PcInv(s, f, s.pc[f]);
    forall g: nat | g < |s'.pc| ensures PcInv(s', g, s'.pc[g]) { assert PcInv(s, g, s.pc[g]); }
    forall j: nat | j < |s'.calls| ensures CallInv(s', j) { assert CallInv(s, j); }
  }

  lemma CloseKeepsInv(s: State)
    requires Inv(s)
    ensures Inv(CloseStep(s))
  {
    var s' := CloseStep(s);
    forall g: nat | g < |s'.pc| ensures PcInv(s', g, s'.pc[g]) { assert PcInv(s, g, s.pc[g]); }
    forall j: nat | j < |s'.calls| ensures CallInv(s', j) { assert CallInv(s, j); }
  }

  lemma StepKeepsInv(s: State, a: Step)
    requires Inv(s)
    ensures Inv(Apply(s, a))
  {
    if Enabled(s, a) {
      match a
      case Push(f, v) =>
        NewCall(s, f, v);
        NewCallRound(s, f, v);
      case RetryPush(f) => PushKeepsInv(s, f, s.pc[f].id);
      case PushReturns(f) => ReturnKeepsInv(s, f);
      case Pop(f) => PopKeepsInv(s, f);
      case RetryPop(f) => PopKeepsInv(s, f);
      case Close(_) => CloseKeepsInv(s);
    }
  }

  lemma NewCallRound(s: State, f: Fiber, v: Value)
    requires Inv(s) && f < |s.pc| && s.pc[f].Idle?
    ensures Inv(Apply(s, Push(f, v)))
  {
    var id := |s.calls|;
    var t := s.(calls := s.calls + [Call(v, f)]);
    var u := t.(pc := s.pc[f := PushWoken(id)]);
    NewCall(s, f, v);
    PushKeepsInv(u, f, id);
    assert u.pc[f := Idle] == t.pc[f := Idle] && u.pc[f := InSlot(id)] == t.pc[f := InSlot(id)];
    assert u.pc[f := PushWait(id)] == t.pc[f := PushWait(id)];
    assert PushStep(t, f, id) == PushStep(u, f, id);
  }

  lemma AlwaysInv(n: nat, run: seq<Step>)
    ensures Inv(Runs.Exec(Apply, Init(n), run))
  {
    forall s: State, a: Step | Inv(s) ensures Inv(Apply(s, a)) { StepKeepsInv(s, a); }
    Runs.Invariant(Apply, Inv, Init(n), run);
  }

  // ---- what the channel promises

  /** A finished push returned success exactly when its value was taken; no slot is taken twice, and every
      pop returned the value of the call it took. A call not finished is taken exactly when its fiber is
      about to return success. */
  lemma SuccessMeansTaken(n: nat, run: seq<Step>, id: nat)
    ensures var s := Runs.Exec(Apply, Init(n), run);
      && Distinct(s.taken) && |s.out| == |s.taken|
      && (forall k :: 0 <= k < |s.taken| ==> s.taken[k] < |s.calls| && s.out[k] == s.calls[s.taken[k]].value)
      && (id in s.outcome ==> (s.outcome[id] <==> id in s.taken))
      && (id < |s.calls| && id !in s.outcome ==>
            s.calls[id].ctx < |s.pc| && (id in s.taken <==> s.pc[s.calls[id].ctx] == Taken(id)))
  {
    AlwaysInv(n, run);
    var s := Runs.Exec(Apply, Init(n), run);
    if id < |s.calls| {
      assert CallInv(s, id);
      var f := s.calls[id].ctx;
      if f < |s.pc| { assert PcInv(s, f, s.pc[f]); }
    }
  }

  /** No lost wake-up: an empty slot beside queued producers, or a full one beside queued consumers,
      comes with a woken fiber of that kind that has not tried again yet. */
  lemma NoLostWakeUp(n: nat, run: seq<Step>)
    ensures var s := Runs.Exec(Apply, Init(n), run);
      && (s.slot == None && s.wp != [] ==> exists f: nat :: f < |s.pc| && s.pc[f].PushWoken?)
      && (s.slot.Some? && s.wc != [] ==> exists f: nat :: f < |s.pc| && s.pc[f].PopWoken?)
  {
    AlwaysInv(n, run);
    var s := Runs.Exec(Apply, Init(n), run);
    if forall f: nat :: f < |s.pc| ==> !s.pc[f].PushWoken? { NoneCounted(s.pc, PushAwake); }
    if forall f: nat :: f < |s.pc| ==> !s.pc[f].PopWoken? { NoneCounted(s.pc, PopAwake); }
  }

  predicate Asleep(p: Pc) { p.PushWait? || p.PopWait? || p.InSlot? }

  /** After a close the only fiber that may sleep is the producer whose value is still in the slot: close
      does not wake it, and only a later pop does. */
  lemma OnlySlotSleepsAfterClose(n: nat, run: seq<Step>, f: Fiber)
    ensures var s := Runs.Exec(Apply, Init(n), run);
      s.closed && f < |s.pc| ==>
        (Asleep(s.pc[f]) <==> s.slot.Some? && s.slot.value < |s.calls| && s.calls[s.slot.value].ctx == f)
  {
    AlwaysInv(n, run);
    var s := Runs.Exec(Apply, Init(n), run);
    if f < |s.pc| && s.closed {
      assert f !in s.wp && f !in s.wc;
      assert PcInv(s, f, s.pc[f]);
      if s.slot.Some? { assert CallInv(s, s.slot.value); }
    }
  }

  /** Such a producer: its value is in the slot when another fiber closes. */
  lemma CloseLeavesProducerAsleep(n: nat, v: Value) returns (run: seq<Step>)
    requires n >= 2
    ensures run == [Push(0, v), Close(1)]
    ensures var s := Runs.Exec(Apply, Init(n), run);
      s.closed && s.slot == Some(0) && s.calls == [Call(v, 0)] && |s.pc| == n && s.pc[0] == InSlot(0)
  {
    var s := Init(n);
    Runs.Start(Apply, s);
    run, s := Runs.Then(Apply, Init(n), [], s, Push(0, v));
    run, s := Runs.Then(Apply, Init(n), run, s, Close(1));
  }

  /** A fiber alone cannot close the channel while its own value is in the slot. */
  lemma AloneClosesEmpty(n: nat, run: seq<Step>)
    requires n <= 1
    ensures var s := Runs.Exec(Apply, Init(n), run); s.closed ==> s.slot == None
  {
    var kept := (s: State) => Inv(s) && |s.pc| <= 1 && (s.closed ==> s.slot == None);
    forall s: State, a: Step | kept(s) ensures kept(Apply(s, a)) {
      StepKeepsInv(s, a);
      AloneCannotClose(s, a);
    }
    Runs.Invariant(Apply, kept, Init(n), run);
  }

  lemma AloneCannotClose(s: State, a: Step)
    requires Inv(s) && |s.pc| <= 1 && (s.closed ==> s.slot == None)
    ensures |Apply(s, a).pc| <= 1 && (Apply(s, a).closed ==> Apply(s, a).slot == None)
  {
    if s.slot.Some? { assert CallInv(s, s.slot.value); }
  }

  /** Closed, and some fiber sleeps. */
  ghost predicate SleepsAfterClose(s: State) {
    s.closed && exists f: nat :: f < |s.pc| && Asleep(s.pc[f])
  }

  /** So close can leave a producer asleep exactly when there is another fiber to close. */
  lemma CloseLeavesAsleepIff(n: nat)
    ensures (exists run :: SleepsAfterClose(Runs.Exec(Apply, Init(n), run))) <==> n >= 2
  {
    if n >= 2 {
      var run := CloseLeavesProducerAsleep(n, 0);
      assert SleepsAfterClose(Runs.Exec(Apply, Init(n), run));
    } else {
      forall run ensures !SleepsAfterClose(Runs.Exec(Apply, Init(n), run)) {
        AloneClosesEmpty(n, run);
        forall f: Fiber
          ensures var s := Runs.Exec(Apply, Init(n), run); s.closed && f < |s.pc| ==> !Asleep(s.pc[f])
        {
          OnlySlotSleepsAfterClose(n, run, f);
        }
      }
    }
  }

  // ---- which values go in

  /** The push calls of a run, in order, each with its value and its fiber. */
  function CallsOf(n: nat, run: seq<Step>): seq<Call> {
    if run == [] then []
    else
      var front, a := run[..|run| - 1], run[|run| - 1];
      CallsOf(n, front) + if a.Push? && Enabled(Runs.Exec(Apply, Init(n), front), a) then [Call(a.v, a.f)] else []
  }

  /** Each call keeps the value it was made with, so a value handed out is the one that its producer pushed,
      and the fiber readied for it is that producer. */
  lemma {:induction false} CallsAreThePushes(n: nat, run: seq<Step>)
    ensures Runs.Exec(Apply, Init(n), run).calls == CallsOf(n, run)
    decreases |run|
  {
    if run != [] {
      CallsAreThePushes(n, run[..|run| - 1]);
      StepLogsCalls(Runs.Exec(Apply, Init(n), run[..|run| - 1]), run[|run| - 1]);
    }
  }

  lemma StepLogsCalls(s: State, a: Step)
    ensures Apply(s, a).calls == s.calls + if a.Push? && Enabled(s, a) then [Call(a.v, a.f)] else []
  {
  }

  // ---- the channel in the form of the source

  datatype Outcome = Success | Closed | Suspended

  /** One method per segment. A push that got its slot in is continued by PushReturn once it is taken. */
  class UnbufferedChannel {
    var slot: Option<Call>
    var closed: bool
    var waitingProducers: seq<Fiber>
    var waitingConsumers: seq<Fiber>
    ghost const fibers: nat
    ghost var run: seq<Step>
    ghost var m: State

    ghost predicate Valid()
      reads this
    {
      && SlotIs(m, slot) && closed == m.closed && |m.pc| == fibers
      && waitingProducers == m.wp && waitingConsumers == m.wc
      && Runs.Reached(Apply, Init(fibers), run, m)
    }

    constructor (ghost fibers: nat)
      ensures Valid() && this.fibers == fibers && run == []
    {
      slot, closed, waitingProducers, waitingConsumers := None, false, [], [];
      this.fibers := fibers;
      run, m := [], Init(fibers);
      new;
      Runs.Start(Apply, Init(fibers));
    }

    ghost method Do(a: Step)
      requires Runs.Reached(Apply, Init(fibers), run, m)
      modifies this`run, this`m
      ensures run == old(run) + [a] && m == Apply(old(m), a)
      ensures Runs.Reached(Apply, Init(fibers), run, m)
    {
      run, m := Runs.Then(Apply, Init(fibers), run, m, a);
    }

    lemma Facts()
      requires Valid()
      ensures m.wp != [] ==> m.wp[0] < fibers
      ensures m.wc != [] ==> m.wc[0] < fibers
      ensures forall f: nat :: f < fibers && m.pc[f].PushWoken? ==>
        m.pc[f].id < |m.calls| && m.calls[m.pc[f].id].ctx == f && m.pc[f].id !in m.outcome
    {
      AlwaysInv(fibers, run);
      Front(m.wp);
      Front(m.wc);
      forall f: nat | f < fibers && m.pc[f].PushWoken?
        ensures m.pc[f].id < |m.calls| && m.calls[m.pc[f].id].ctx == f && m.pc[f].id !in m.outcome
      {
        assert PcInv(m, f, m.pc[f]);
      }
    }

    /** try_push_: nothing else runs, so the compare-and-swap of the empty slot cannot fail. */
    method TryPush(own: Call) returns (ok: bool)
      modifies this`slot
      ensures ok <==> old(slot) == None
      ensures slot == if ok then Some(own) else old(slot)
    {
      ok := slot == None;
      if ok {
        slot := Some(own);
      }
    }

    method PushRound(own: Call) returns (r: Outcome)
      modifies this`slot, this`waitingProducers, this`waitingConsumers
      ensures r == Closed <==> closed
      ensures slot == if !closed && old(slot) == None then Some(own) else old(slot)
      ensures waitingProducers ==
        if !closed && old(slot) != None then old(waitingProducers) + [own.ctx] else old(waitingProducers)
      ensures waitingConsumers ==
        if !closed && old(slot) == None && old(waitingConsumers) != [] then old(waitingConsumers)[1..]
        else old(waitingConsumers)
      ensures r != Success
    {
      if closed {
        return Closed;
      }
      var ok := TryPush(own);
      if ok {
        if waitingConsumers != [] {
          waitingConsumers := waitingConsumers[1..];
        }
      } else {
        waitingProducers := waitingProducers + [own.ctx];
      }
      return Suspended;
    }

    /** push: logged as a new call; refused (and finished) exactly on a closed channel. */
    method PushValue(f: Fiber, v: Value) returns (r: Outcome)
      requires Valid() && f < fibers && m.pc[f].Idle?
      modifies this
      ensures Valid() && run == old(run) + [Push(f, v)]
      ensures m.calls == old(m).calls + [Call(v, f)] && m.taken == old(m).taken && m.out == old(m).out
      ensures r == if old(closed) then Closed else Suspended
      ensures m.outcome == if r == Closed then old(m).outcome[|old(m).calls| := false] else old(m).outcome
      ensures PushEnds(old(m), m, f, |old(m).calls|)
      ensures slot == if !old(closed) && old(slot) == None then Some(Call(v, f)) else old(slot)
    {
      Facts();
      AlwaysInv(fibers, run);
      Do(Push(f, v));
      r := PushRound(Call(v, f));
    }

    method PushResumed(f: Fiber, v: Value) returns (r: Outcome)
      requires Valid() && f < fibers && m.pc[f].PushWoken? && m.pc[f].id < |m.calls|
      requires m.calls[m.pc[f].id].value == v
      modifies this
      ensures Valid() && run == old(run) + [RetryPush(f)]
      ensures m.calls == old(m).calls && m.taken == old(m).taken && m.out == old(m).out
      ensures r == if old(closed) then Closed else Suspended
      ensures m.outcome == if r == Closed then old(m).outcome[old(m).pc[f].id := false] else old(m).outcome
      ensures PushEnds(old(m), m, f, old(m).pc[f].id)
      ensures slot == if !old(closed) && old(slot) == None then Some(Call(v, f)) else old(slot)
    {
      Facts();
      AlwaysInv(fibers, run);
      Do(RetryPush(f));
      r := PushRound(Call(v, f));
    }

    /** The end of a push whose slot was taken. */
    method PushReturn(f: Fiber) returns (r: Outcome)
      requires Valid() && f < fibers && m.pc[f].Taken?
      modifies this`run, this`m
      ensures Valid() && run == old(run) + [PushReturns(f)] && r == Success
      ensures old(m).pc[f].id in m.taken
      ensures m == old(m).(pc := old(m).pc[f := Idle], outcome := old(m).outcome[old(m).pc[f].id := true])
    {
      AlwaysInv(fibers, run);
      assert PcInv(m, f, m.pc[f]);
      Do(PushReturns(f));
      return Success;
    }

    /** try_pop_: takes what is in the slot. */
    method TryPop() returns (s: Option<Call>)
      modifies this`slot
      ensures s == old(slot) && slot == None
    {
      s := slot;
      if s.Some? {
        slot := None;
      }
    }

    method PopRound(f: Fiber) returns (r: Outcome, v: Option<Value>)
      modifies this`slot, this`waitingProducers, this`waitingConsumers
      ensures r == if old(slot).Some? then Success else if closed then Closed else Suspended
      ensures v == if old(slot).Some? then Some(old(slot).value.value) else None
      ensures slot == None
      ensures waitingProducers ==
        if r == Success && old(waitingProducers) != [] then old(waitingProducers)[1..] else old(waitingProducers)
      ensures waitingConsumers == if r == Suspended then old(waitingConsumers) + [f] else old(waitingConsumers)
    {
      var s := TryPop();
      if s.Some? {
        if waitingProducers != [] {
          waitingProducers := waitingProducers[1..];
        }
        return Success, Some(s.value.value);
      } else if closed {
        return Closed, None;
      }
      waitingConsumers := waitingConsumers + [f];
      return Suspended, None;
    }

    /** pop and value_pop; the answer Closed is the exception of the latter. A success takes one push call
        that was in the slot, and readies its fiber. */
    method PopValue(f: Fiber) returns (r: Outcome, v: Option<Value>)
      requires Valid() && f < fibers && m.pc[f].Idle?
      modifies this
      ensures Valid() && run == old(run) + [Pop(f)]
      ensures r == if old(slot).Some? then Success else if old(closed) then Closed else Suspended
      ensures r == Success <==> v.Some?
      ensures m.calls == old(m).calls && m.outcome == old(m).outcome && closed == old(closed) && slot == None
      ensures v.Some? ==> TookOne(old(m), m, f, v.value)
      ensures r == Closed ==> m == old(m).(pc := old(m).pc[f := Idle])
      ensures r == Suspended ==> m == old(m).(pc := old(m).pc[f := PopWait], wc := old(waitingConsumers) + [f])
    {
      Facts();
      PopFacts(f);
      Do(Pop(f));
      r, v := PopRound(f);
    }

    method PopResumed(f: Fiber) returns (r: Outcome, v: Option<Value>)
      requires Valid() && f < fibers && m.pc[f].PopWoken?
      modifies this
      ensures Valid() && run == old(run) + [RetryPop(f)]
      ensures r == if old(slot).Some? then Success else if old(closed) then Closed else Suspended
      ensures r == Success <==> v.Some?
      ensures m.calls == old(m).calls && m.outcome == old(m).outcome && closed == old(closed) && slot == None
      ensures v.Some? ==> TookOne(old(m), m, f, v.value)
      ensures r == Closed ==> m == old(m).(pc := old(m).pc[f := Idle])
      ensures r == Suspended ==> m == old(m).(pc := old(m).pc[f := PopWait], wc := old(waitingConsumers) + [f])
    {
      Facts();
      PopFacts(f);
      Do(RetryPop(f));
      r, v := PopRound(f);
    }

    lemma PopFacts(f: Fiber)
      requires Valid() && f < fibers && (m.pc[f].Idle? || m.pc[f].PopWoken?)
      ensures m.slot.Some? ==> m.slot.value < |m.calls| && TookOne(m, PopStep(m, f), f, m.calls[m.slot.value].value)
    {
      AlwaysInv(fibers, run);
      if m.slot.Some? { TakePcs(m, f, m.slot.value); }
    }

    method DrainProducers() returns (readied: seq<Fiber>)
      modifies this`waitingProducers
      ensures readied == old(waitingProducers) && waitingProducers == []
    {
      readied := [];
      while waitingProducers != []
        invariant readied + waitingProducers == old(waitingProducers)
        decreases |waitingProducers|
      {
        readied := readied + [waitingProducers[0]];
        waitingProducers := waitingProducers[1..];
      }
    }

    method DrainConsumers() returns (readied: seq<Fiber>)
      modifies this`waitingConsumers
      ensures readied == old(waitingConsumers) && waitingConsumers == []
    {
      readied := [];
      while waitingConsumers != []
        invariant readied + waitingConsumers == old(waitingConsumers)
        decreases |waitingConsumers|
      {
        readied := readied + [waitingConsumers[0]];
        waitingConsumers := waitingConsumers[1..];
      }
    }

    /** close(): wakes both queues, and leaves what is in the slot, with its producer, as it is. */
    method Shut(f: Fiber) returns (readied: seq<Fiber>)
      requires Valid() && f < fibers && m.pc[f].Idle?
      modifies this
      ensures Valid() && run == old(run) + [Close(f)] && closed && slot == old(slot)
      ensures readied == old(waitingProducers) + old(waitingConsumers)
      ensures waitingProducers == [] && waitingConsumers == []
      ensures |m.pc| == |old(m).pc| && forall g :: 0 <= g < |m.pc| ==>
        m.pc[g] == if g in readied then Wake(old(m).pc[g]) else old(m).pc[g]
    {
      Do(Close(f));
      closed := true;
      var producers := DrainProducers();
      var consumers := DrainConsumers();
      readied := producers + consumers;
    }
  }

  /** The channel's slot pointer leads to the call in the slot. */
  predicate SlotIs(s: State, slot: Option<Call>) {
    match s.slot
    case None => slot == None
    case Some(id) => id < |s.calls| && slot == Some(s.calls[id])
  }

  /** The front of queue q, if there is one, has been woken; q' and pc' are what is left. */
  predicate WokeFront(pc: seq<Pc>, q: seq<Fiber>, pc': seq<Pc>, q': seq<Fiber>) {
    if q == [] then q' == [] && pc' == pc
    else q[0] < |pc| && q' == q[1..] && pc' == pc[q[0] := Wake(pc[q[0]])]
  }

  /** The channel after a round of push call id by f: refused, in the slot with a consumer woken, or queued. */
  predicate PushEnds(s: State, s': State, f: Fiber, id: nat) {
    && f < |s.pc| && s'.closed == s.closed
    && if s.closed then s'.pc == s.pc[f := Idle] && s'.slot == s.slot && s'.wp == s.wp && s'.wc == s.wc
       else if s.slot == None then
         s'.slot == Some(id) && s'.wp == s.wp && WokeFront(s.pc[f := InSlot(id)], s.wc, s'.pc, s'.wc)
       else s'.slot == s.slot && s'.wp == s.wp + [f] && s'.wc == s.wc && s'.pc == s.pc[f := PushWait(id)]
  }

  /** Fiber f took one call and has its value; a queued producer was woken, and the call's fiber readied. */
  predicate TookOne(s: State, s': State, f: Fiber, v: Value) {
    s.slot.Some? && s.slot.value < |s.calls| && f < |s.pc| &&
    var id := s.slot.value;
    && v == s.calls[id].value && s'.taken == s.taken + [id] && s'.out == s.out + [v] && s'.slot == None
    && s'.wc == s.wc && s.calls[id].ctx < |s.pc|
    && WokeFront(s.pc[f := Idle][s.calls[id].ctx := Taken(id)], s.wp, s'.pc, s'.wp)
  }
}
