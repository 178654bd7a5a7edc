/** The lock-free core of buffered_channel: a bounded ring in which every slot carries a cycle number
    and every access is claimed by a ticket, for any number of producing and consuming threads. */
module RingChannel {
  import opened Options
  import opened Ring
  import Runs

  type Value = nat

  datatype Pc =
    | Idle
    | PushIndex(v: Value)                 // about to load producer_idx_
    | PushCycle(v: Value, idx: nat)       // about to load the slot's cycle
    | PushCas(v: Value, idx: nat)         // cycle matched: about to claim ticket idx
    | PushStore(v: Value, idx: nat)       // owns ticket idx: about to construct the value
    | PushRelease(v: Value, idx: nat)     // about to store cycle idx + 1
    | PopIndex
    | PopCycle(idx: nat)
    | PopCas(idx: nat)
    | PopRead(idx: nat)
    | PopRelease(idx: nat, got: Option<Value>)   // value moved out: about to store cycle idx + capacity

  /** The life of a ticket, with the thread that owns it. */
  datatype Phase = Writing(owner: nat) | Stored | Reading(owner: nat) | Free

  /** `pushLog` holds the value of each claimed push ticket, `phase` where that ticket stands,
      `got` the values handed out by finished pops, by ticket. */
  datatype State = State(
    cap: nat, prod: nat, cons: nat, cycle: seq<nat>, store: seq<Option<Value>>, pc: seq<Pc>,
    pushLog: seq<Value>, phase: seq<Phase>, got: map<nat, Option<Value>>)

  datatype Step =
    | PushBegin(t: nat, v: Value)
    | PushLoadIndex(t: nat)
    | PushLoadCycle(t: nat)
    | PushClaim(t: nat, spurious: bool)
    | PushWrite(t: nat)
    | PushPublish(t: nat)
    | PopBegin(t: nat)
    | PopLoadIndex(t: nat)
    | PopLoadCycle(t: nat)
    | PopClaim(t: nat, spurious: bool)
    | PopTake(t: nat)
    | PopFree(t: nat)

  function Init(cap: nat, n: nat): State {
    State(cap, 0, 0, seq(cap, i => i), seq(cap, _ => None), seq(n, _ => Idle), [], [], map[])
  }

  predicate Enabled(s: State, a: Step) {
    a.t < |s.pc| && s.cap > 0 && |s.cycle| == |s.store| == s.cap &&
    var p := s.pc[a.t];
    match a
    case PushBegin(_, _) => p.Idle?
    case PushLoadIndex(_) => p.PushIndex?
    case PushLoadCycle(_) => p.PushCycle?
    case PushClaim(_, _) => p.PushCas?
    case PushWrite(_) => p.PushStore?
    case PushPublish(_) => p.PushRelease?
    case PopBegin(_) => p.Idle?
    case PopLoadIndex(_) => p.PopIndex?
    case PopLoadCycle(_) => p.PopCycle?
    case PopClaim(_, _) => p.PopCas?
    case PopTake(_) => p.PopRead?
    case PopFree(_) => p.PopRelease?
  }

  function CycleAt(s: State, i: nat): nat
    requires s.cap > 0 && |s.cycle| == s.cap
  {
    s.cycle[Slot(i, s.cap)]
  }

  function At(s: State, t: nat, p: Pc): State
    requires t < |s.pc|
  {
    s.(pc := s.pc[t := p])
  }

  function SetPhase(s: State, i: nat, p: Phase): seq<Phase> {
    if i < |s.phase| then s.phase[i := p] else s.phase
  }

  /** try_push_: the cycle says free, not yet free, or that the index is stale. */
  function PushAfterLoad(s: State, v: Value, idx: nat): Pc
    requires s.cap > 0 && |s.cycle| == s.cap
  {
    var c := CycleAt(s, idx);
    if c == idx then PushCas(v, idx) else if c < idx then Idle else PushIndex(v)
  }

  function PopAfterLoad(s: State, idx: nat): Pc
    requires s.cap > 0 && |s.cycle| == s.cap
  {
    var c := CycleAt(s, idx);
    if c == idx + 1 then PopCas(idx) else if c < idx + 1 then Idle else PopIndex
  }

  function Apply(s: State, a: Step): State {
    if !Enabled(s, a) then s else
    var p := s.pc[a.t];
    match a
    case PushBegin(t, v) => At(s, t, PushIndex(v))
    case PushLoadIndex(t) => At(s, t, PushCycle(p.v, s.prod))
    case PushLoadCycle(t) => At(s, t, PushAfterLoad(s, p.v, p.idx))
    case PushClaim(t, spurious) =>
      if s.prod != p.idx || spurious then At(s, t, PushCycle(p.v, s.prod))
      else At(s, t, PushStore(p.v, p.idx)).(
        prod := s.prod + 1, pushLog := s.pushLog + [p.v], phase := s.phase + [Writing(t)])
    case PushWrite(t) =>
      At(s, t, PushRelease(p.v, p.idx)).(store := s.store[Slot(p.idx, s.cap) := Some(p.v)])
    case PushPublish(t) =>
      At(s, t, Idle).(cycle := s.cycle[Slot(p.idx, s.cap) := p.idx + 1], phase := SetPhase(s, p.idx, Stored))
    case PopBegin(t) => At(s, t, PopIndex)
    case PopLoadIndex(t) => At(s, t, PopCycle(s.cons))
    case PopLoadCycle(t) => At(s, t, PopAfterLoad(s, p.idx))
    case PopClaim(t, spurious) =>
      if s.cons != p.idx || spurious then At(s, t, PopCycle(s.cons))
      else At(s, t, PopRead(p.idx)).(cons := s.cons + 1, phase := SetPhase(s, p.idx, Reading(t)))
    case PopTake(t) => At(s, t, PopRelease(p.idx, s.store[Slot(p.idx, s.cap)]))
    case PopFree(t) =>
      At(s, t, Idle).(cycle := s.cycle[Slot(p.idx, s.cap) := p.idx + s.cap],
                      phase := SetPhase(s, p.idx, Free), got := s.got[p.idx := p.got])
  }

  // ---- the invariant

  ghost predicate Shape(s: State) {
    && s.cap >= 2 && |s.cycle| == |s.store| == s.cap
    && |s.pushLog| == |s.phase| == s.prod && s.cons <= s.prod
  }

  /** The cycle a slot shows while ticket i is the last one claimed for it. */
  function Shown(i: nat, p: Phase, cap: nat): nat {
    match p
    case Writing(_) => i
    case Stored => i + 1
    case Reading(_) => i + 1
    case Free => i + cap
  }

  /** Consumers claim in ticket order, and a slot is claimed again only after its ticket was freed. */
  ghost predicate Phases(s: State)
    requires Shape(s)
  {
    && (forall i: nat :: i < s.prod ==> (i < s.cons <==> s.phase[i].Reading? || s.phase[i].Free?))
    && (forall i: nat :: i < s.prod && i + s.cap < s.prod ==> s.phase[i].Free?)
  }

  /** The slots of the last lap show the phase of their ticket; those never claimed show their index. */
  ghost predicate Cycles(s: State)
    requires Shape(s)
  {
    && (forall i: nat :: i < s.prod <= i + s.cap ==> s.cycle[Slot(i, s.cap)] == Shown(i, s.phase[i], s.cap))
    && (forall i: nat :: s.prod <= i < s.cap ==> s.cycle[i] == i)
  }

  /** A stored value is its ticket's value, and so is the value a finished pop handed out. */
  ghost predicate Values(s: State)
    requires Shape(s)
  {
    && (forall i: nat :: i < s.prod && (s.phase[i].Stored? || s.phase[i].Reading?) ==>
          s.store[Slot(i, s.cap)] == Some(s.pushLog[i]))
    && (forall i: nat :: i < s.prod ==>
          (i in s.got <==> s.phase[i].Free?) && (i in s.got ==> s.got[i] == Some(s.pushLog[i])))
    && (forall i :: i in s.got ==> i < s.prod)
  }

  ghost predicate PcInv(s: State, t: nat, p: Pc)
    requires Shape(s)
  {
    match p
    case PushCycle(_, idx) => idx <= s.prod
    case PushCas(_, idx) => idx <= s.prod && (idx == s.prod ==> CycleAt(s, idx) == idx)
    case PushStore(v, idx) => idx < s.prod && s.phase[idx] == Writing(t) && s.pushLog[idx] == v
    case PushRelease(v, idx) =>
      && idx < s.prod && s.phase[idx] == Writing(t) && s.pushLog[idx] == v
      && s.store[Slot(idx, s.cap)] == Some(v)
    case PopCycle(idx) => idx <= s.cons
    case PopCas(idx) => idx <= s.cons && idx < s.prod && (idx == s.cons ==> CycleAt(s, idx) == idx + 1)
    case PopRead(idx) => idx < s.prod && s.phase[idx] == Reading(t)
    case PopRelease(idx, v) => idx < s.prod && s.phase[idx] == Reading(t) && v == Some(s.pushLog[idx])
    case _ => true
  }

  ghost predicate Inv(s: State) {
    && Shape(s) && Phases(s) && Cycles(s) && Values(s)
    && forall t :: 0 <= t < |s.pc| ==> PcInv(s, t, s.pc[t])
  }

  /** Only the last lap of tickets can be unfinished, and its slots are distinct. */
  lemma LastLap(s: State)
    requires Inv(s)
    ensures s.prod <= s.cons + s.cap
    ensures forall i: nat, j: nat :: i < j < i + s.cap ==> Slot(i, s.cap) != Slot(j, s.cap)
    ensures forall i: nat :: i < s.prod && !s.phase[i].Free? ==> s.prod <= i + s.cap
    ensures forall i: nat :: i < s.cap ==> Slot(i, s.cap) == i
  {
    AllDistinct(s.cap);
    assert s.cons < s.prod ==> !s.phase[s.cons].Free?;
  }

  /** What the slot of the next ticket shows: the ticket one lap before it, or its own index. */
  lemma NextSlot(s: State)
    requires Inv(s)
    ensures CycleAt(s, s.prod) ==
      if s.prod >= s.cap then Shown(s.prod - s.cap, s.phase[s.prod - s.cap], s.cap) else s.prod
  {
    if s.prod >= s.cap { Lap(s.prod - s.cap, s.cap); }
  }

  lemma SetPc(s: State, t: nat, p: Pc)
    requires Inv(s) && t < |s.pc| && PcInv(s, t, p)
    ensures Inv(At(s, t, p))
  {
    var s' := At(s, t, p);
    forall u | 0 <= u < |s'.pc| ensures PcInv(s', u, s'.pc[u]) { assert u != t ==> PcInv(s, u, s.pc[u]); }
  }

  /** A claim succeeds only on a slot whose ticket of the lap before has been freed. */
  lemma ClaimedSlotIsFree(s: State, t: nat)
    requires Inv(s) && Enabled(s, PushClaim(t, false)) && s.pc[t].idx == s.prod
    ensures CycleAt(s, s.prod) == s.prod
    ensures s.prod >= s.cap ==> s.phase[s.prod - s.cap].Free?
  {
    assert PcInv(s, t, s.pc[t]);
    NextSlot(s);
  }

  lemma PushClaimPhases(s: State, t: nat)
    requires Inv(s) && Enabled(s, PushClaim(t, false)) && s.pc[t].idx == s.prod
    ensures Phases(Apply(s, PushClaim(t, false)))
  {
    ClaimedSlotIsFree(s, t);
  }

  lemma PushClaimCycles(s: State, t: nat)
    requires Inv(s) && Enabled(s, PushClaim(t, false)) && s.pc[t].idx == s.prod
    ensures Cycles(Apply(s, PushClaim(t, false)))
  {
    ClaimedSlotIsFree(s, t);
    var s' := Apply(s, PushClaim(t, false));
    forall i: nat | i < s'.prod <= i + s.cap
      ensures s'.cycle[Slot(i, s.cap)] == Shown(i, s'.phase[i], s.cap)
    {
      assert i < s.prod ==> s'.phase[i] == s.phase[i];
    }
  }

  lemma PushClaimValues(s: State, t: nat)
    requires Inv(s) && Enabled(s, PushClaim(t, false)) && s.pc[t].idx == s.prod
    ensures Values(Apply(s, PushClaim(t, false)))
  {
  }

  lemma PushClaimKeepsInv(s: State, t: nat)
    requires Inv(s) && Enabled(s, PushClaim(t, false)) && s.pc[t].idx == s.prod
    ensures Inv(Apply(s, PushClaim(t, false)))
  {
    var s' := Apply(s, PushClaim(t, false));
    PushClaimPhases(s, t);
    PushClaimCycles(s, t);
    PushClaimValues(s, t);
    forall u | 0 <= u < |s'.pc| ensures PcInv(s', u, s'.pc[u]) { assert PcInv(s, u, s.pc[u]); }
  }

  lemma PushWriteParts(s: State, t: nat)
    requires Inv(s) && Enabled(s, PushWrite(t))
    ensures var s' := Apply(s, PushWrite(t)); Shape(s') && Phases(s') && Cycles(s') && Values(s')
  {
    assert PcInv(s, t, s.pc[t]);
    LastLap(s);
  }

  lemma PushWriteKeepsPc(s: State, t: nat, u: nat)
    requires Inv(s) && Enabled(s, PushWrite(t)) && Shape(Apply(s, PushWrite(t))) && u < |s.pc|
    ensures var s' := Apply(s, PushWrite(t)); u < |s'.pc| && PcInv(s', u, s'.pc[u])
  {
    assert PcInv(s, t, s.pc[t]) && PcInv(s, u, s.pc[u]);
    LastLap(s);
  }

  lemma PushWriteKeepsInv(s: State, t: nat)
    requires Inv(s) && Enabled(s, PushWrite(t))
    ensures Inv(Apply(s, PushWrite(t)))
  {
    PushWriteParts(s, t);
    var s' := Apply(s, PushWrite(t));
    forall u | 0 <= u < |s'.pc| ensures PcInv(s', u, s'.pc[u]) { PushWriteKeepsPc(s, t, u); }
  }

  lemma PopClaimParts(s: State, t: nat)
    requires Inv(s) && Enabled(s, PopClaim(t, false)) && s.pc[t].idx == s.cons && s.cons < s.prod && s.phase[s.cons].Stored?
    ensures var s' := Apply(s, PopClaim(t, false)); Shape(s') && Phases(s') && Cycles(s') && Values(s')
  {
  }

  lemma PopClaimKeepsInv(s: State, t: nat)
    requires Inv(s) && Enabled(s, PopClaim(t, false)) && s.pc[t].idx == s.cons
    ensures Inv(Apply(s, PopClaim(t, false)))
  {
    var s' := Apply(s, PopClaim(t, false));
    assert PcInv(s, t, s.pc[t]);
    LastLap(s);
    assert s.phase[s.cons].Stored?;
    PopClaimParts(s, t);
    forall u | 0 <= u < |s'.pc| ensures PcInv(s', u, s'.pc[u]) { assert PcInv(s, u, s.pc[u]); }
  }

  /** The two releasing steps: the owner of an unfinished ticket stores its next cycle. */
  lemma ReleaseKeepsCycles(s: State, i: nat, p: Phase)
    requires Inv(s) && i < s.prod <= i + s.cap
    ensures Cycles(s.(cycle := s.cycle[Slot(i, s.cap) := Shown(i, p, s.cap)], phase := s.phase[i := p]))
  {
    LastLap(s);
  }

  /** No other thread is about to claim through the slot of an unfinished ticket. */
  lemma ReleaseKeepsPc(s: State, s': State, i: nat, u: nat, p: Pc)
    requires Inv(s) && PcInv(s, u, p) && i < s.prod && (s.phase[i].Writing? || s.phase[i].Reading?)
    requires s' == s.(cycle := s'.cycle, phase := s'.phase, pc := s'.pc, got := s'.got)
    requires |s'.phase| == |s.phase| && forall j: nat :: j < s.prod && j != i ==> s'.phase[j] == s.phase[j]
    requires |s'.cycle| == s.cap && forall k :: 0 <= k < s.cap && k != Slot(i, s.cap) ==> s'.cycle[k] == s.cycle[k]
    requires s.phase[i] != Writing(u) && s.phase[i] != Reading(u)
    ensures PcInv(s', u, p)
  {
    NextSlot(s);
    LastLap(s);
    match p
    case PushCas(_, idx) =>
      if idx == s.prod { assert s.prod != i + s.cap; }
    case PopCas(idx) =>
      if idx == s.cons { assert s.cons != i; }
    case _ =>
  }

  lemma PushPublishValues(s: State, t: nat)
    requires Inv(s) && Enabled(s, PushPublish(t))
    ensures var s' := Apply(s, PushPublish(t)); Phases(s') && Values(s')
  {
    assert PcInv(s, t, s.pc[t]);
  }

  lemma PushPublishKeepsInv(s: State, t: nat)
    requires Inv(s) && Enabled(s, PushPublish(t))
    ensures Inv(Apply(s, PushPublish(t)))
  {
    var s' := Apply(s, PushPublish(t));
    assert PcInv(s, t, s.pc[t]);
    var i := s.pc[t].idx;
    LastLap(s);
    ReleaseKeepsCycles(s, i, Stored);
    PushPublishValues(s, t);
    forall u | 0 <= u < |s'.pc| ensures PcInv(s', u, s'.pc[u]) {
      if u != t { ReleaseKeepsPc(s, s', i, u, s.pc[u]); }
    }
  }

  lemma PopFreeValues(s: State, t: nat)
    requires Inv(s) && Enabled(s, PopFree(t))
    ensures var s' := Apply(s, PopFree(t)); Phases(s') && Values(s')
  {
    assert PcInv(s, t, s.pc[t]);
  }

  lemma PopFreeKeepsInv(s: State, t: nat)
    requires Inv(s) && Enabled(s, PopFree(t))
    ensures Inv(Apply(s, PopFree(t)))
  {
    var s' := Apply(s, PopFree(t));
    assert PcInv(s, t, s.pc[t]);
    var i := s.pc[t].idx;
    assert s.prod <= i + s.cap;
    ReleaseKeepsCycles(s, i, Free);
    PopFreeValues(s, t);
    forall u | 0 <= u < |s'.pc| ensures PcInv(s', u, s'.pc[u]) {
      if u != t { ReleaseKeepsPc(s, s', i, u, s.pc[u]); }
    }
  }

  lemma PopLoadKeepsInv(s: State, t: nat)
    requires Inv(s) && Enabled(s, PopLoadCycle(t))
    ensures Inv(Apply(s, PopLoadCycle(t)))
  {
    assert PcInv(s, t, s.pc[t]);
    LastLap(s);
    if s.prod >= s.cap { Lap(s.prod - s.cap, s.cap); }
    SetPc(s, t, PopAfterLoad(s, s.pc[t].idx));
  }

  lemma StepKeepsInv(s: State, a: Step)
    requires Inv(s)
    ensures Inv(Apply(s, a))
  {
    if Enabled(s, a) {
      var t := a.t;
      assert PcInv(s, t, s.pc[t]);
      match a
      case PushClaim(_, spurious) =>
        if s.prod == s.pc[t].idx && !spurious { PushClaimKeepsInv(s, t); } else { SetPc(s, t, Apply(s, a).pc[t]); }
      case PushWrite(_) => PushWriteKeepsInv(s, t);
      case PushPublish(_) => PushPublishKeepsInv(s, t);
      case PopClaim(_, spurious) =>
        if s.cons == s.pc[t].idx && !spurious { PopClaimKeepsInv(s, t); } else { SetPc(s, t, Apply(s, a).pc[t]); }
      case PopFree(_) => PopFreeKeepsInv(s, t);
      case PopLoadCycle(_) => PopLoadKeepsInv(s, t);
      case _ => SetPc(s, t, Apply(s, a).pc[t]);
    }
  }

  lemma AlwaysInv(cap: nat, n: nat, run: seq<Step>)
    requires cap >= 2
    ensures Inv(Runs.Exec(Apply, Init(cap, n), run))
  {
    LastLapAtStart(cap, n);
    forall s: State, a: Step | Inv(s) ensures Inv(Apply(s, a)) { StepKeepsInv(s, a); }
    Runs.Invariant(Apply, Inv, Init(cap, n), run);
  }

  lemma LastLapAtStart(cap: nat, n: nat)
    requires cap >= 2
    ensures Inv(Init(cap, n))
  {
  }

  // ---- what the channel promises

  function Queue(s: State): seq<Value> {
    if s.cons <= |s.pushLog| then s.pushLog[s.cons..] else []
  }

  predicate Claims(s: State, a: Step, idx: nat) {
    Enabled(s, a) && match a
      case PushClaim(t, spurious) => s.pc[t].idx == idx && !spurious
      case PopClaim(t, spurious) => s.pc[t].idx == idx && !spurious
      case _ => false
  }

  /** The channel refines a FIFO queue: a push takes effect when it claims its ticket, a pop when it
      claims its own, and the pop of ticket i hands out the value pushed under ticket i. */
  ghost predicate Refines(s: State, a: Step, s': State) {
    match a
    case PushClaim(t, _) =>
      if Claims(s, a, s.prod) then Queue(s') == Queue(s) + [s.pc[t].v] && t < |s'.pc| && s'.pc[t] == PushStore(s.pc[t].v, s.prod)
      else Queue(s') == Queue(s)
    case PopClaim(t, _) =>
      if Claims(s, a, s.cons) then
        Queue(s) != [] && Queue(s') == Queue(s)[1..] && t < |s'.pc| && s'.pc[t] == PopRead(s.cons) &&
        s.cons < |s.pushLog| && s.pushLog[s.cons] == Queue(s)[0]
      else Queue(s') == Queue(s)
    case PopFree(t) =>
      && Queue(s') == Queue(s)
      && (Enabled(s, a) ==>
            s.pc[t].idx !in s.got && s.pc[t].idx < |s.pushLog| && s.pc[t].got == Some(s.pushLog[s.pc[t].idx]))
    case _ => Queue(s') == Queue(s)
  }

  lemma EveryStepRefines(cap: nat, n: nat, run: seq<Step>, a: Step)
    requires cap >= 2
    ensures var s := Runs.Exec(Apply, Init(cap, n), run); Refines(s, a, Apply(s, a))
  {
    AlwaysInv(cap, n, run);
    var s := Runs.Exec(Apply, Init(cap, n), run);
    if Enabled(s, a) {
      match a
      case PushClaim(_, _) => PushClaimRefines(s, a);
      case PopClaim(_, _) => PopClaimRefines(s, a);
      case PopFree(t) => assert PcInv(s, t, s.pc[t]);
      case _ =>
    }
  }

  lemma PushClaimRefines(s: State, a: Step)
    requires Inv(s) && a.PushClaim?
    ensures Refines(s, a, Apply(s, a))
  {
  }

  lemma PopClaimRefines(s: State, a: Step)
    requires Inv(s) && a.PopClaim?
    ensures Refines(s, a, Apply(s, a))
  {
    if Claims(s, a, s.cons) { assert PcInv(s, a.t, s.pc[a.t]); }
  }

  /** Each ticket has one producer and one consumer, and never more than `cap` tickets are unfinished. */
  lemma TicketsAreExclusive(cap: nat, n: nat, run: seq<Step>, t: nat, u: nat)
    requires cap >= 2
    ensures var s := Runs.Exec(Apply, Init(cap, n), run);
      && s.cons <= s.prod <= s.cons + s.cap
      && (t != u && t < |s.pc| && u < |s.pc| ==>
        && (Producing(s.pc[t]) && Producing(s.pc[u]) ==> s.pc[t].idx != s.pc[u].idx)
        && (Consuming(s.pc[t]) && Consuming(s.pc[u]) ==> s.pc[t].idx != s.pc[u].idx)
        && (Producing(s.pc[t]) && Consuming(s.pc[u]) ==> Slot(s.pc[t].idx, cap) != Slot(s.pc[u].idx, cap)))
  {
    AlwaysInv(cap, n, run);
    SameParameters(cap, n, run);
    var s := Runs.Exec(Apply, Init(cap, n), run);
    LastLap(s);
    if t < |s.pc| && u < |s.pc| {
      assert PcInv(s, t, s.pc[t]) && PcInv(s, u, s.pc[u]);
    }
  }

  predicate Producing(p: Pc) { p.PushStore? || p.PushRelease? }

  predicate Consuming(p: Pc) { p.PopRead? || p.PopRelease? }

  lemma SameParameters(cap: nat, n: nat, run: seq<Step>)
    ensures var s := Runs.Exec(Apply, Init(cap, n), run); s.cap == cap && |s.pc| == n
  {
    Runs.Invariant(Apply, (s: State) => s.cap == cap && |s.pc| == n, Init(cap, n), run);
  }

  /** Every value handed out is the one pushed under the same ticket, and consumers claim tickets in order. */
  lemma PopGetsItsTicket(cap: nat, n: nat, run: seq<Step>, i: nat)
    requires cap >= 2
    ensures var s := Runs.Exec(Apply, Init(cap, n), run);
      i in s.got ==> i < s.cons && i < |s.pushLog| && s.got[i] == Some(s.pushLog[i])
  {
    AlwaysInv(cap, n, run);
  }

  /** A ticket already claimed leaves its slot at a cycle no smaller than the ticket. */
  lemma {:induction false} ClaimedCycle(s: State, i: nat)
    requires Inv(s) && i < s.prod
    ensures CycleAt(s, i) >= i
    decreases s.prod - i
  {
    if i + s.cap < s.prod {
      Lap(i, s.cap);
      ClaimedCycle(s, i + s.cap);
    }
  }

  /** What try_push_ by thread t may conclude from the cycle it is about to load: a larger one means its
      index is stale; a smaller one (answer full) means its index is current and the ticket one lap before
      is unreleased. */
  ghost predicate PushJudges(s: State, t: nat) {
    t < |s.pc| && s.pc[t].PushCycle? ==> var idx := s.pc[t].idx;
      && |s.cycle| == s.cap > 0
      && (CycleAt(s, idx) > idx ==> idx < s.prod)
      && (CycleAt(s, idx) < idx ==>
            idx == s.prod && s.cap <= idx && idx - s.cap < |s.phase| && !s.phase[idx - s.cap].Free?)
  }

  lemma PushVerdict(cap: nat, n: nat, run: seq<Step>, t: nat)
    requires cap >= 2
    ensures PushJudges(Runs.Exec(Apply, Init(cap, n), run), t)
  {
    AlwaysInv(cap, n, run);
    PushSees(Runs.Exec(Apply, Init(cap, n), run), t);
  }

  lemma PushSees(s: State, t: nat)
    requires Inv(s)
    ensures PushJudges(s, t)
  {
    if t < |s.pc| && s.pc[t].PushCycle? {
      assert PcInv(s, t, s.pc[t]);
      NextSlot(s);
      if s.pc[t].idx < s.prod { ClaimedCycle(s, s.pc[t].idx); }
    }
  }

  /** The same for try_pop_: the answer empty means its index is current and that ticket is unpublished. */
  ghost predicate PopJudges(s: State, t: nat) {
    t < |s.pc| && s.pc[t].PopCycle? ==> var idx := s.pc[t].idx;
      && |s.cycle| == s.cap > 0
      && (CycleAt(s, idx) > idx + 1 ==> idx < s.cons)
      && (CycleAt(s, idx) < idx + 1 ==> idx == s.cons && (idx < |s.phase| ==> s.phase[idx].Writing?))
  }

  lemma PopVerdict(cap: nat, n: nat, run: seq<Step>, t: nat)
    requires cap >= 2
    ensures PopJudges(Runs.Exec(Apply, Init(cap, n), run), t)
  {
    AlwaysInv(cap, n, run);
    PopSees(Runs.Exec(Apply, Init(cap, n), run), t);
  }

  lemma PopSees(s: State, t: nat)
    requires Inv(s)
    ensures PopJudges(s, t)
  {
    if t < |s.pc| && s.pc[t].PopCycle? {
      assert PcInv(s, t, s.pc[t]);
      NextSlot(s);
      LastLap(s);
      if s.pc[t].idx < s.cons { PoppedCycle(s, s.pc[t].idx); }
    }
  }

  lemma {:induction false} PoppedCycle(s: State, i: nat)
    requires Inv(s) && i < s.cons
    ensures CycleAt(s, i) >= i + 1
    decreases s.prod - i
  {
    if i + s.cap < s.prod {
      Lap(i, s.cap);
      ClaimedCycle(s, i + s.cap);
    }
  }

  predicate IsFull(s: State)
    requires s.cap > 0 && |s.cycle| == s.cap
  {
    CycleAt(s, s.prod) < s.prod
  }

  predicate IsEmpty(s: State)
    requires s.cap > 0 && |s.cycle| == s.cap
  {
    CycleAt(s, s.cons) < s.cons + 1
  }

  /** With every thread idle a claimed ticket is either stored or free. */
  lemma QuietTicket(s: State, i: nat)
    requires Attended(s) && i < |s.phase| && forall t :: 0 <= t < |s.pc| ==> s.pc[t].Idle?
    ensures s.phase[i].Stored? || s.phase[i].Free?
  {
    assert AttendedAt(s, i);
  }

  lemma QuietNext(s: State)
    requires Inv(s) && Attended(s) && forall t :: 0 <= t < |s.pc| ==> s.pc[t].Idle?
    ensures CycleAt(s, s.prod) == if s.prod == s.cons + s.cap then s.prod - s.cap + 1 else s.prod
  {
    NextSlot(s);
    LastLap(s);
    if s.cap <= s.prod {
      var i := s.prod - s.cap;
      QuietTicket(s, i);
      assert i < s.cons <==> s.phase[i].Free?;
    }
  }

  lemma QuietFront(s: State)
    requires Inv(s) && Attended(s) && s.cons < s.prod && forall t :: 0 <= t < |s.pc| ==> s.pc[t].Idle?
    ensures CycleAt(s, s.cons) == s.cons + 1
  {
    LastLap(s);
    QuietTicket(s, s.cons);
  }

  lemma QuietMeans(s: State)
    requires Inv(s) && Attended(s) && forall t :: 0 <= t < |s.pc| ==> s.pc[t].Idle?
    ensures s.prod <= s.cons + s.cap && |Queue(s)| == s.prod - s.cons
    ensures CycleAt(s, s.prod) == if s.prod == s.cons + s.cap then s.prod - s.cap + 1 else s.prod
    ensures CycleAt(s, s.cons) == if s.prod == s.cons then s.cons else s.cons + 1
  {
    LastLap(s);
    QuietNext(s);
    if s.cons < s.prod { QuietFront(s); }
  }

  /** With no operation in flight is_full_ and is_empty_ say exactly how far the indices are apart. */
  lemma QuietStatus(cap: nat, n: nat, run: seq<Step>)
    requires cap >= 2
    ensures var s := Runs.Exec(Apply, Init(cap, n), run);
      (forall t :: 0 <= t < |s.pc| ==> s.pc[t].Idle?) && s.cap == |s.cycle| > 0 ==>
        (IsFull(s) <==> s.prod == s.cons + s.cap) && (IsEmpty(s) <==> s.prod == s.cons)
  {
    AlwaysInv(cap, n, run);
    QuietTickets(cap, n, run);
    var s := Runs.Exec(Apply, Init(cap, n), run);
    if forall t :: 0 <= t < |s.pc| ==> s.pc[t].Idle? { QuietMeans(s); }
  }

  /** A ticket being written or read has a thread at work on it. */
  ghost predicate AttendedAt(s: State, i: nat)
    requires i < |s.phase|
  {
    match s.phase[i]
    case Writing(t) => t < |s.pc| && Producing(s.pc[t]) && s.pc[t].idx == i
    case Reading(t) => t < |s.pc| && Consuming(s.pc[t]) && s.pc[t].idx == i
    case _ => true
  }

  ghost predicate Attended(s: State) {
    forall i: nat :: i < |s.phase| ==> AttendedAt(s, i)
  }

  lemma StepKeepsAttended(s: State, a: Step)
    requires Inv(s) && Attended(s)
    ensures Attended(Apply(s, a))
  {
    if Enabled(s, a) {
      assert PcInv(s, a.t, s.pc[a.t]);
      forall i: nat | i < |Apply(s, a).phase| ensures AttendedAt(Apply(s, a), i) {
        if i < |s.phase| { StepKeepsAttendedAt(s, a, i); }
      }
    }
  }

  lemma StepKeepsAttendedAt(s: State, a: Step, i: nat)
    requires Inv(s) && Enabled(s, a) && PcInv(s, a.t, s.pc[a.t]) && i < |s.phase| && AttendedAt(s, i)
    ensures i < |Apply(s, a).phase| && AttendedAt(Apply(s, a), i)
  {
    match a
    case PushClaim(_, _) => PushKeepsAttendedAt(s, a, i);
    case PushWrite(_) => PushKeepsAttendedAt(s, a, i);
    case PushPublish(_) => PushKeepsAttendedAt(s, a, i);
    case PopClaim(_, _) => PopKeepsAttendedAt(s, a, i);
    case PopTake(_) => PopKeepsAttendedAt(s, a, i);
    case PopFree(_) => PopKeepsAttendedAt(s, a, i);
    case _ =>
  }

  lemma PopKeepsAttendedAt(s: State, a: Step, i: nat)
    requires Inv(s) && Enabled(s, a) && PcInv(s, a.t, s.pc[a.t]) && i < |s.phase| && AttendedAt(s, i)
    requires a.PopClaim? || a.PopTake? || a.PopFree?
    ensures i < |Apply(s, a).phase| && AttendedAt(Apply(s, a), i)
  {
  }

  lemma PushKeepsAttendedAt(s: State, a: Step, i: nat)
    requires Inv(s) && Enabled(s, a) && PcInv(s, a.t, s.pc[a.t]) && i < |s.phase| && AttendedAt(s, i)
    requires a.PushClaim? || a.PushWrite? || a.PushPublish?
    ensures i < |Apply(s, a).phase| && AttendedAt(Apply(s, a), i)
  {
  }

  lemma LoggedByIndex(cap: nat, n: nat, run: seq<Step>)
    requires cap >= 2
    ensures var s := Runs.Exec(Apply, Init(cap, n), run); |s.pushLog| == s.prod
  {
    AlwaysInv(cap, n, run);
  }

  lemma QuietTickets(cap: nat, n: nat, run: seq<Step>)
    requires cap >= 2
    ensures Attended(Runs.Exec(Apply, Init(cap, n), run))
  {
    LastLapAtStart(cap, n);
    forall s: State, a: Step | Inv(s) && Attended(s) ensures Inv(Apply(s, a)) && Attended(Apply(s, a)) {
      StepKeepsInv(s, a);
      StepKeepsAttended(s, a);
    }
    Runs.Invariant(Apply, s => Inv(s) && Attended(s), Init(cap, n), run);
  }

  lemma ClaimAlone(cap: nat, run: seq<Step>, s: State, v: Value) returns (run': seq<Step>, s': State)
    requires Runs.Reached(Apply, Init(cap, 1), run, s)
    requires cap > 0 && s.cap == |s.cycle| == |s.store| == cap && s.pc == [Idle] && s.prod == |s.phase|
    requires CycleAt(s, s.prod) == s.prod
    ensures Runs.Reached(Apply, Init(cap, 1), run', s')
    ensures s' == s.(pc := [PushStore(v, s.prod)], prod := s.prod + 1, pushLog := s.pushLog + [v],
                     phase := s.phase + [Writing(0)])
  {
    run', s' := Runs.Then(Apply, Init(cap, 1), run, s, PushBegin(0, v));
    run', s' := Runs.Then(Apply, Init(cap, 1), run', s', PushLoadIndex(0));
    run', s' := Runs.Then(Apply, Init(cap, 1), run', s', PushLoadCycle(0));
    run', s' := Runs.Then(Apply, Init(cap, 1), run', s', PushClaim(0, false));
    assert s'.pc == [PushStore(v, s.prod)];
  }

  /** A push that nobody disturbs, when its slot is free. */
  lemma PushAlone(cap: nat, run: seq<Step>, s: State, v: Value) returns (run': seq<Step>, s': State)
    requires Runs.Reached(Apply, Init(cap, 1), run, s)
    requires cap > 0 && s.cap == |s.cycle| == |s.store| == cap && s.pc == [Idle] && s.prod == |s.phase|
    requires CycleAt(s, s.prod) == s.prod
    ensures Runs.Reached(Apply, Init(cap, 1), run', s')
    ensures s'.cap == |s'.cycle| == |s'.store| == cap && s'.pc == [Idle] && |s'.phase| == s'.prod == s.prod + 1
    ensures s'.cons == s.cons && s'.cycle == s.cycle[Slot(s.prod, cap) := s.prod + 1] && s'.got == s.got
    ensures s'.pushLog == s.pushLog + [v] && s'.store == s.store[Slot(s.prod, cap) := Some(v)]
  {
    run', s' := ClaimAlone(cap, run, s, v);
    run', s' := Runs.Then(Apply, Init(cap, 1), run', s', PushWrite(0));
    run', s' := Runs.Then(Apply, Init(cap, 1), run', s', PushPublish(0));
  }

  /** With capacity 1, which the constructor accepts, "published" and "free again" are the same cycle:
      a second push succeeds while the first value waits, and puts its own in the only slot. */
  lemma CapacityOneOverflows(v: Value, w: Value) returns (run: seq<Step>)
    ensures var s := Runs.Exec(Apply, Init(1, 1), run);
      s.prod == 2 && s.cons == 0 && s.pushLog == [v, w] && s.store == [Some(w)] && s.got == map[]
  {
    var s := Init(1, 1);
    Runs.Start(Apply, s);
    run, s := PushAlone(1, [], s, v);
    Lap(0, 1);
    run, s := PushAlone(1, run, s, w);
  }

  /** The window holds on every run exactly for capacities of at least 2. */
  lemma WindowIff(cap: nat)
    requires cap > 0
    ensures cap >= 2 <==> forall n: nat, run ::
      var s := Runs.Exec(Apply, Init(cap, n), run); s.cons <= s.prod <= s.cons + cap
  {
    if cap >= 2 {
      forall n: nat, run ensures var s := Runs.Exec(Apply, Init(cap, n), run); s.cons <= s.prod <= s.cons + cap {
        AlwaysInv(cap, n, run);
        SameParameters(cap, n, run);
        LastLap(Runs.Exec(Apply, Init(cap, n), run));
      }
    } else {
      var run := CapacityOneOverflows(0, 0);
      assert Runs.Exec(Apply, Init(cap, 1), run).prod == 2;
    }
  }

  /** The ticket one lap before the producer's index is not released, so there is no slot for a push. */
  predicate NoSlot(s: State) {
    s.cap <= s.prod && s.prod - s.cap < |s.phase| && !s.phase[s.prod - s.cap].Free?
  }

  /** The consumer's next ticket is not yet published, so there is nothing for a pop. */
  predicate NothingStored(s: State) {
    s.cons < |s.phase| ==> s.phase[s.cons].Writing?
  }

  lemma PcOnly(s: State, a: Step, t: nat)
    requires t < |s.pc| && a.t != t
    ensures |Apply(s, a).pc| == |s.pc| && Apply(s, a).pc[t] == s.pc[t]
  {
  }

  lemma LogGrows(s: State, a: Step)
    ensures s.pushLog <= Apply(s, a).pushLog && s.cons <= Apply(s, a).cons
  {
  }

  lemma {:induction false} ForeignSteps(s: State, steps: seq<Step>, t: nat)
    requires t < |s.pc| && forall k :: 0 <= k < |steps| ==> steps[k].t != t
    ensures var s' := Runs.Exec(Apply, s, steps);
      |s'.pc| == |s.pc| && s'.pc[t] == s.pc[t] && s.pushLog <= s'.pushLog && s.cons <= s'.cons
    decreases |steps|
  {
    if steps != [] {
      var w := Runs.Exec(Apply, s, steps[..|steps| - 1]);
      ForeignSteps(s, steps[..|steps| - 1], t);
      PcOnly(w, steps[|steps| - 1], t);
      LogGrows(w, steps[|steps| - 1]);
    }
  }

  datatype Status = Success | Full | Empty | Unfinished

  /** The slots and indices in the form of the source. The retry loops have no bound of their own:
      `patience` rounds are followed, and `Unfinished` says they did not suffice. */
  class BufferedChannel {
    const capacity: nat
    var producerIdx: nat
    var consumerIdx: nat
    const cycles: array<nat>
    const values: array<Option<Value>>
    ghost const threads: nat
    ghost var run: seq<Step>
    ghost var m: State

    ghost predicate Valid()
      reads this, cycles, values
    {
      && PowerOfTwo(capacity) && cycles.Length == values.Length == capacity
      && producerIdx == m.prod && consumerIdx == m.cons && capacity == m.cap && |m.pc| == threads
      && cycles[..] == m.cycle && values[..] == m.store
      && Runs.Reached(Apply, Init(capacity, threads), run, m)
    }

    constructor (capacity: nat, ghost threads: nat)
      requires PowerOfTwo(capacity)
      ensures Valid() && this.capacity == capacity && this.threads == threads && run == []
      ensures fresh(cycles) && fresh(values)
    {
      this.capacity := capacity;
      producerIdx, consumerIdx := 0, 0;
      cycles := new nat[capacity](i => i);
      values := new Option<Value>[capacity](_ => None);
      this.threads := threads;
      run, m := [], Init(capacity, threads);
      new;
      Runs.Start(Apply, Init(capacity, threads));
      assert cycles[..] == m.cycle && values[..] == m.store;
    }

    /** The checked construction: refused exactly when the capacity is not a positive power of two. */
    static method Create(capacity: nat, ghost threads: nat) returns (c: Option<BufferedChannel>)
      ensures c.Some? <==> PowerOfTwo(capacity)
      ensures c.Some? ==> fresh(c.value) && c.value.Valid() && c.value.capacity == capacity && c.value.run == []
    {
      PowerTest(capacity);
      if capacity == 0 || And(capacity, capacity - 1) != 0 {
        return None;
      }
      var b := new BufferedChannel(capacity, threads);
      return Some(b);
    }

    ghost method Do(a: Step)
      requires Runs.Reached(Apply, Init(capacity, threads), run, m)
      modifies this`run, this`m
      ensures run == old(run) + [a] && m == Apply(old(m), a)
      ensures Runs.Reached(Apply, Init(capacity, threads), run, m)
    {
      run, m := Runs.Then(Apply, Init(capacity, threads), run, m, a);
    }

    /** Anything the other threads may do before thread t runs again. */
    method Interfere(ghost t: nat)
      requires Valid() && t < threads
      modifies this, cycles, values
      ensures Valid() && old(run) <= run
      ensures forall k :: |old(run)| <= k < |run| ==> run[k].t != t
    {
    }

    method Preempt(ghost t: nat)
      requires Valid() && t < threads
      modifies this, cycles, values
      ensures Valid() && old(run) <= run && m.pc[t] == old(m.pc[t])
      ensures old(m.pushLog) <= m.pushLog && old(consumerIdx) <= consumerIdx
    {
      Interfere(t);
      ghost var more := run[|old(run)|..];
      assert run == old(run) + more;
      Runs.Split(Apply, Init(capacity, threads), old(run), more);
      ForeignSteps(old(m), more, t);
    }

    method LoadCycle(idx: nat) returns (c: nat)
      requires Valid()
      ensures c == CycleAt(m, idx)
    {
      Mask(idx, capacity);
      c := cycles[And(idx, capacity - 1)];
    }

    method LoadProducerIdx(ghost t: nat, ghost v: Value) returns (idx: nat)
      requires Valid() && t < threads && m.pc[t] == PushIndex(v)
      modifies this, cycles, values
      ensures Valid() && old(run) <= run && m.pc[t] == PushCycle(v, idx) && old(m.pushLog) <= m.pushLog
    {
      Preempt(t);
      idx := producerIdx;
      Do(PushLoadIndex(t));
    }

    lemma FullIsSeen(t: nat, from: nat)
      requires Valid() && capacity >= 2 && t < threads && m.pc[t].PushCycle? && CycleAt(m, m.pc[t].idx) < m.pc[t].idx
      requires from <= |run|
      ensures Runs.Passes(Apply, Init(capacity, threads), run + [PushLoadCycle(t)], from, NoSlot)
    {
      PushVerdict(capacity, threads, run, t);
      Runs.PassesNow(Apply, Init(capacity, threads), run, m, from, PushLoadCycle(t), NoSlot);
    }

    method ExaminePush(ghost t: nat, ghost v: Value, idx: nat) returns (c: nat)
      requires Valid() && t < threads && m.pc[t] == PushCycle(v, idx)
      modifies this, cycles, values
      ensures Valid() && old(run) <= run && old(m.pushLog) <= m.pushLog
      ensures m.pc[t] == if c == idx then PushCas(v, idx) else if c < idx then Idle else PushIndex(v)
      ensures c < idx && capacity >= 2 ==> Runs.Passes(Apply, Init(capacity, threads), run, |old(run)|, NoSlot)
    {
      Preempt(t);
      c := LoadCycle(idx);
      if c < idx && capacity >= 2 { FullIsSeen(t, |old(run)|); }
      Do(PushLoadCycle(t));
    }

    /** The weak compare-and-swap of producer_idx_: it may fail without cause. */
    method ClaimPush(ghost t: nat, ghost v: Value, idx: nat) returns (won: bool, next: nat)
      requires Valid() && t < threads && m.pc[t] == PushCas(v, idx)
      modifies this, cycles, values
      ensures Valid() && old(run) <= run && old(m.pushLog) <= m.pushLog
      ensures m.pc[t] == if won then PushStore(v, idx) else PushCycle(v, next)
      ensures won ==> capacity >= 2 ==> |old(m.pushLog)| <= idx < |m.pushLog| && m.pushLog[idx] == v
    {
      Preempt(t);
      if capacity >= 2 { LoggedByIndex(capacity, threads, run); }
      var spurious: bool := *;
      won := producerIdx == idx && !spurious;
      next := producerIdx;
      if won {
        producerIdx := idx + 1;
      }
      Do(PushClaim(t, spurious));
    }

    method StoreValue(ghost t: nat, v: Value, idx: nat)
      requires Valid() && t < threads && m.pc[t] == PushStore(v, idx)
      modifies this, cycles, values
      ensures Valid() && old(run) <= run && m.pc[t] == PushRelease(v, idx) && old(m.pushLog) <= m.pushLog
    {
      Preempt(t);
      Mask(idx, capacity);
      values[And(idx, capacity - 1)] := Some(v);
      Do(PushWrite(t));
    }

    method StoreCycle(ghost t: nat, ghost v: Value, idx: nat)
      requires Valid() && t < threads && m.pc[t] == PushRelease(v, idx)
      modifies this, cycles, values
      ensures Valid() && old(run) <= run && m.pc[t] == Idle && old(m.pushLog) <= m.pushLog
    {
      Preempt(t);
      Mask(idx, capacity);
      cycles[And(idx, capacity - 1)] := idx + 1;
      Do(PushPublish(t));
    }

    method FinishPush(ghost t: nat, v: Value, idx: nat)
      requires Valid() && t < threads && m.pc[t] == PushStore(v, idx)
      modifies this, cycles, values
      ensures Valid() && old(run) <= run && m.pc[t] == Idle && old(m.pushLog) <= m.pushLog
    {
      StoreValue(t, v, idx);
      StoreCycle(t, v, idx);
    }

    /** try_push_(value): on success the value is logged under a ticket claimed during this call; full means
        that at some instant of the call there was no slot. */
    method TryPush(ghost t: nat, v: Value, patience: nat) returns (status: Status, ghost ticket: nat)
      requires Valid() && t < threads && m.pc[t] == Idle
      modifies this, cycles, values
      ensures Valid() && old(run) <= run && status != Empty
      ensures status != Unfinished ==> m.pc[t] == Idle
      ensures status == Success && capacity >= 2 ==> |old(m.pushLog)| <= ticket < |m.pushLog| && m.pushLog[ticket] == v
      ensures status == Full && capacity >= 2 ==> Runs.Passes(Apply, Init(capacity, threads), run, |old(run)|, NoSlot)
    {
      ticket := 0;
      Do(PushBegin(t, v));
      var idx := LoadProducerIdx(t, v);
      var rounds := patience;
      while rounds > 0
        invariant Valid() && old(run) <= run && m.pc[t] == PushCycle(v, idx) && old(m.pushLog) <= m.pushLog
        decreases rounds
      {
        rounds := rounds - 1;
        var c := ExaminePush(t, v, idx);
        if c == idx {
          var won, next := ClaimPush(t, v, idx);
          if won {
            FinishPush(t, v, idx);
            return Success, idx;
          }
          idx := next;
        } else if c < idx {
          return Full, 0;
        } else {
          idx := LoadProducerIdx(t, v);
        }
      }
      status := Unfinished;
    }

    method LoadConsumerIdx(ghost t: nat) returns (idx: nat)
      requires Valid() && t < threads && m.pc[t] == PopIndex
      modifies this, cycles, values
      ensures Valid() && old(run) <= run && m.pc[t] == PopCycle(idx) && old(consumerIdx) <= idx == consumerIdx
    {
      Preempt(t);
      idx := consumerIdx;
      Do(PopLoadIndex(t));
    }

    lemma EmptyIsSeen(t: nat, from: nat)
      requires Valid() && capacity >= 2 && t < threads && m.pc[t].PopCycle? && CycleAt(m, m.pc[t].idx) < m.pc[t].idx + 1
      requires from <= |run|
      ensures Runs.Passes(Apply, Init(capacity, threads), run + [PopLoadCycle(t)], from, NothingStored)
    {
      PopVerdict(capacity, threads, run, t);
      Runs.PassesNow(Apply, Init(capacity, threads), run, m, from, PopLoadCycle(t), NothingStored);
    }

    method ExaminePop(ghost t: nat, idx: nat) returns (c: nat)
      requires Valid() && t < threads && m.pc[t] == PopCycle(idx)
      modifies this, cycles, values
      ensures Valid() && old(run) <= run
      ensures m.pc[t] == if c == idx + 1 then PopCas(idx) else if c < idx + 1 then Idle else PopIndex
      ensures old(consumerIdx) <= consumerIdx
      ensures c < idx + 1 && capacity >= 2 ==>
        Runs.Passes(Apply, Init(capacity, threads), run, |old(run)|, NothingStored)
    {
      Preempt(t);
      c := LoadCycle(idx);
      if c < idx + 1 && capacity >= 2 { EmptyIsSeen(t, |old(run)|); }
      Do(PopLoadCycle(t));
    }

    method ClaimPop(ghost t: nat, idx: nat) returns (won: bool, next: nat)
      requires Valid() && t < threads && m.pc[t] == PopCas(idx)
      modifies this, cycles, values
      ensures Valid() && old(run) <= run
      ensures m.pc[t] == if won then PopRead(idx) else PopCycle(next)
      ensures old(consumerIdx) <= consumerIdx && old(consumerIdx) <= next
    {
      Preempt(t);
      var spurious: bool := *;
      won := consumerIdx == idx && !spurious;
      next := consumerIdx;
      if won {
        consumerIdx := idx + 1;
      }
      Do(PopClaim(t, spurious));
    }

    /** try_value_pop_: claims a ticket, leaving the slot to be freed once the value has been moved out. */
    method TryValuePop(ghost t: nat, patience: nat) returns (status: Status, idx: nat)
      requires Valid() && t < threads && m.pc[t] == Idle
      modifies this, cycles, values
      ensures Valid() && old(run) <= run && status != Full
      ensures status == Success ==> m.pc[t] == PopRead(idx) && old(consumerIdx) <= idx
      ensures status == Empty ==> m.pc[t] == Idle
      ensures status == Empty && capacity >= 2 ==>
        Runs.Passes(Apply, Init(capacity, threads), run, |old(run)|, NothingStored)
    {
      Do(PopBegin(t));
      idx := LoadConsumerIdx(t);
      var rounds := patience;
      while rounds > 0
        invariant Valid() && old(run) <= run && m.pc[t] == PopCycle(idx)
        invariant old(consumerIdx) <= idx && old(consumerIdx) <= consumerIdx
        decreases rounds
      {
        rounds := rounds - 1;
        var c := ExaminePop(t, idx);
        if c == idx + 1 {
          var won, next := ClaimPop(t, idx);
          if won {
            return Success, idx;
          }
          idx := next;
        } else if c < idx + 1 {
          return Empty, idx;
        } else {
          idx := LoadConsumerIdx(t);
        }
      }
      status := Unfinished;
    }

    method TakeValue(ghost t: nat, idx: nat) returns (v: Option<Value>)
      requires Valid() && t < threads && m.pc[t] == PopRead(idx)
      modifies this, cycles, values
      ensures Valid() && old(run) <= run && m.pc[t] == PopRelease(idx, v)
    {
      Preempt(t);
      Mask(idx, capacity);
      v := values[And(idx, capacity - 1)];
      Do(PopTake(t));
    }

    lemma HandedOutIsBehind()
      requires Valid() && capacity >= 2
      ensures forall i :: i in m.got ==> i < consumerIdx
    {
      forall i | i in m.got ensures i < consumerIdx { PopGetsItsTicket(capacity, threads, run, i); }
    }

    lemma OwnValue(idx: nat)
      requires Valid() && capacity >= 2 && idx in m.got
      ensures idx < |m.pushLog| && m.got[idx] == Some(m.pushLog[idx])
    {
      PopGetsItsTicket(capacity, threads, run, idx);
    }

    method FreeSlot(ghost t: nat, idx: nat, ghost v: Option<Value>)
      requires Valid() && t < threads && m.pc[t] == PopRelease(idx, v)
      modifies this, cycles, values
      ensures Valid() && old(run) <= run && m.pc[t] == Idle
      ensures idx in m.got && m.got[idx] == v
      ensures capacity >= 2 ==> idx < |m.pushLog| && v == Some(m.pushLog[idx])
    {
      Preempt(t);
      Mask(idx, capacity);
      cycles[And(idx, capacity - 1)] := idx + capacity;
      Do(PopFree(t));
      if capacity >= 2 { OwnValue(idx); }
    }

    /** try_pop_: on success the value is the one pushed under the ticket that this call claimed; empty means
        that at some instant of the call nothing was stored. */
    method TryPop(ghost t: nat, patience: nat) returns (status: Status, v: Option<Value>, ghost ticket: nat)
      requires Valid() && t < threads && m.pc[t] == Idle
      modifies this, cycles, values
      ensures Valid() && old(run) <= run && status != Full
      ensures status != Unfinished ==> m.pc[t] == Idle
      ensures status == Success && capacity >= 2 ==>
        && old(consumerIdx) <= ticket < |m.pushLog| && ticket !in old(m.got)
        && v == Some(m.pushLog[ticket]) && ticket in m.got
      ensures status == Empty && capacity >= 2 ==>
        Runs.Passes(Apply, Init(capacity, threads), run, |old(run)|, NothingStored)
    {
      if capacity >= 2 { HandedOutIsBehind(); }
      var idx: nat;
      v := None;
      status, idx := TryValuePop(t, patience);
      ticket := idx;
      if status == Success {
        v := TakeValue(t, idx);
        FreeSlot(t, idx, v);
      }
    }
  }
}
