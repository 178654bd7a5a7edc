/** Cross-reactor calls: Reactor::run_at, the event loop that serves them, and the reply that resumes the
    caller. Every reactor runs one fiber at a time on its own thread; the reactors interleave freely. A
    step is what the active fiber of one reactor does between two points where another reactor could
    notice. Inboxes are the queues of module Disruptor, as sequences. */
module RunAt {
  import opened Options
  import opened Lists
  import Runs

  type Cpu = nat
  type Fiber = nat
  type Id = nat

  /** What the task of a call ended with. */
  datatype Outcome = Value(v: int) | Exception(e: int)

  datatype Place = AtTarget | Serving(f: Fiber) | AtOrigin | Done

  /** `ret` is the message's return_ flag; `place` is where the message is. */
  datatype Msg = Msg(origin: Cpu, target: Cpu, caller: Fiber, ret: bool, outcome: Option<Outcome>, place: Place)

  datatype Loc = Active | InReady | InWait | Blocked | Ended

  /** Where a fiber stands in run_at, by message. */
  datatype Call = NoCall | Submitted(id: Id) | Waiting(id: Id) | Resumed(id: Id)

  /** `serving` is the message a fiber was created for. */
  datatype FiberState = FiberState(home: Cpu, loc: Loc, serving: Option<Id>, call: Call)

  datatype Answer = Answer(id: Id, outcome: Outcome)

  /** Fiber r < n is the event loop of reactor r. `wait` is the reactor scheduler's wait_queue_. `fault`
      records a failed assertion: a resume of a fiber that is not linked, or a switch with nothing ready.
      The logs hold the messages processed, those finished, and what run_at returned. */
  datatype State = State(
    n: nat, fibers: seq<FiberState>, active: seq<Fiber>, ready: seq<seq<Fiber>>, wait: seq<seq<Fiber>>,
    inbox: seq<seq<Id>>, msgs: seq<Msg>, running: seq<bool>, exited: seq<bool>, fault: bool,
    processed: seq<Id>, finished: seq<Id>, returned: seq<Answer>)

  datatype Step =
    | Spawn(r: Cpu)
    | Yield(r: Cpu)
    | Block(r: Cpu)                        // in a mutex, a channel, ...
    | Unblock(r: Cpu, f: Fiber)
    | End(r: Cpu)                          // the active fiber's function returns
    | SubmitCall(r: Cpu, target: Cpu)      // run_at: the message is made and sent
    | SuspendCall(r: Cpu)                  // run_at: the caller is linked and suspended
    | ReturnCall(r: Cpu)                   // run_at: resumed, the result is read
    | Receive(r: Cpu)                      // the event loop hands one message of its inbox to process_fn
    | EndProcess(r: Cpu, o: Outcome)       // msg->process() ends
    | Reply(r: Cpu)                        // the serving fiber sends the message back
    | Stop(r: Cpu)
    | Exit(r: Cpu)                         // the event loop's condition has failed

  function Init(n: nat): State {
    var loops := seq(n, i requires 0 <= i < n => FiberState(i, Active, None, NoCall));
    State(n, loops, seq(n, i requires 0 <= i < n => i), seq(n, _ => []), seq(n, _ => []), seq(n, _ => []), [],
          seq(n, _ => true), seq(n, _ => false), false, [], [], [])
  }

  ghost predicate Shape(s: State) {
    && |s.active| == |s.ready| == |s.wait| == |s.inbox| == |s.running| == |s.exited| == s.n <= |s.fibers|
    && forall r :: 0 <= r < s.n ==> s.active[r] < |s.fibers|
  }

  /** The active fiber of r, if r is a reactor still in its loop. */
  predicate Alive(s: State, r: Cpu) {
    && r < |s.active| && r < |s.ready| && r < |s.wait| && r < |s.inbox| && r < |s.running| && r < |s.exited|
    && !s.exited[r] && s.active[r] < |s.fibers|
  }

  function Now(s: State, r: Cpu): FiberState
    requires Alive(s, r)
  {
    s.fibers[s.active[r]]
  }

  predicate Replying(s: State, p: FiberState) {
    p.serving.Some? && p.serving.value < |s.msgs| && s.msgs[p.serving.value].ret
  }

  /** In user code: not inside run_at, nor past the end of its task. */
  predicate InUserCode(s: State, r: Cpu) {
    Alive(s, r) && s.active[r] >= s.n && Now(s, r).call == NoCall && !Replying(s, Now(s, r))
  }

  predicate LoopActive(s: State, r: Cpu) {
    Alive(s, r) && s.active[r] == r && r < s.n
  }

  predicate NoFibersLeft(s: State, r: Cpu) {
    forall f :: s.n <= f < |s.fibers| && s.fibers[f].home == r ==> s.fibers[f].loc == Ended
  }

  predicate Enabled(s: State, a: Step) {
    match a
    case Spawn(r) => InUserCode(s, r) || LoopActive(s, r)
    case Yield(r) => InUserCode(s, r) || LoopActive(s, r)
    case Block(r) => InUserCode(s, r)
    case Unblock(r, f) => InUserCode(s, r) && f < |s.fibers| && s.fibers[f].home == r && s.fibers[f].loc == Blocked
    case End(r) => InUserCode(s, r) && Now(s, r).serving == None
    case SubmitCall(r, target) => InUserCode(s, r) && target < |s.inbox|
    case SuspendCall(r) => Alive(s, r) && Now(s, r).call.Submitted?
    case ReturnCall(r) =>
      && Alive(s, r) && Now(s, r).call.Resumed? && Now(s, r).call.id < |s.msgs|
      && s.msgs[Now(s, r).call.id].outcome.Some?
    case Receive(r) => LoopActive(s, r) && s.inbox[r] != [] && s.inbox[r][0] < |s.msgs|
    case EndProcess(r, _) => InUserCode(s, r) && Now(s, r).serving.Some? && Now(s, r).serving.value < |s.msgs|
    case Reply(r) =>
      && Alive(s, r) && s.active[r] >= s.n && Replying(s, Now(s, r))
      && s.msgs[Now(s, r).serving.value].origin < |s.inbox|
    case Stop(r) => r < |s.running|
    case Exit(r) => LoopActive(s, r) && !s.running[r] && NoFibersLeft(s, r)
  }

  // ---- the parts of a step

  /** The active fiber of r becomes `p`, somewhere else, and the front of the ready queue runs. */
  function Leave(s: State, r: Cpu, p: FiberState): State
    requires Alive(s, r)
  {
    var a := s.active[r];
    var q := if p.loc == InReady then s.ready[r] + [a] else s.ready[r];
    if q == [] || q[0] >= |s.fibers| then s.(fault := true)
    else
      var fs := s.fibers[a := p];
      s.(fibers := fs[q[0] := fs[q[0]].(loc := Active)], active := s.active[r := q[0]], ready := s.ready[r := q[1..]],
         wait := if p.loc == InWait then s.wait[r := s.wait[r] + [a]] else s.wait)
  }

  function MakeReady(s: State, r: Cpu, f: Fiber, p: FiberState): State
    requires f < |s.fibers| && r < |s.ready|
  {
    s.(fibers := s.fibers[f := p.(loc := InReady)], ready := s.ready[r := s.ready[r] + [f]])
  }

  function NewFiber(s: State, r: Cpu, serving: Option<Id>): State
    requires r < |s.ready|
  {
    s.(fibers := s.fibers + [FiberState(r, InReady, serving, NoCall)], ready := s.ready[r := s.ready[r] + [|s.fibers|]])
  }

  function Post(s: State, r: Cpu, id: Id): State
    requires r < |s.inbox|
  {
    s.(inbox := s.inbox[r := s.inbox[r] + [id]])
  }

  /** finish(): the scheduler unlinks the caller and makes it ready. */
  function FinishStep(s: State, r: Cpu, id: Id): State
    requires id < |s.msgs| && r < |s.ready| && r < |s.wait|
  {
    var c := s.msgs[id].caller;
    if c !in s.wait[r] || c >= |s.fibers| then s.(fault := true)
    else
      MakeReady(s.(wait := s.wait[r := Remove(s.wait[r], c)]), r, c, s.fibers[c].(call := Resumed(id)))
       .(msgs := s.msgs[id := s.msgs[id].(place := Done)], finished := s.finished + [id])
  }

  /** process_fn: a returned message is finished, a fresh one gets a fiber of its own. */
  function ReceiveStep(s: State, r: Cpu): State
    requires Alive(s, r) && s.inbox[r] != [] && s.inbox[r][0] < |s.msgs|
  {
    var id := s.inbox[r][0];
    var t := s.(inbox := s.inbox[r := s.inbox[r][1..]]);
    if s.msgs[id].ret then FinishStep(t, r, id)
    else NewFiber(t, r, Some(id)).(msgs := s.msgs[id := s.msgs[id].(place := Serving(|s.fibers|))])
  }

  function SubmitStep(s: State, r: Cpu, target: Cpu): State
    requires Alive(s, r) && target < |s.inbox|
  {
    var id := |s.msgs|;
    var a := s.active[r];
    Post(s.(msgs := s.msgs + [Msg(r, target, a, false, None, AtTarget)],
            fibers := s.fibers[a := s.fibers[a].(call := Submitted(id))]), target, id)
  }

  function ReturnStep(s: State, r: Cpu): State
    requires Alive(s, r) && Now(s, r).call.Resumed? && Now(s, r).call.id < |s.msgs|
    requires s.msgs[Now(s, r).call.id].outcome.Some?
  {
    var id := Now(s, r).call.id;
    s.(fibers := s.fibers[s.active[r] := Now(s, r).(call := NoCall)],
       returned := s.returned + [Answer(id, s.msgs[id].outcome.value)])
  }

  function EndProcessStep(s: State, id: Id, o: Outcome): State
    requires id < |s.msgs|
  {
    s.(msgs := s.msgs[id := s.msgs[id].(ret := true, outcome := Some(o))], processed := s.processed + [id])
  }

  function ReplyStep(s: State, r: Cpu): State
    requires Alive(s, r) && Replying(s, Now(s, r)) && s.msgs[Now(s, r).serving.value].origin < |s.inbox|
  {
    var id := Now(s, r).serving.value;
    Post(s.(msgs := s.msgs[id := s.msgs[id].(place := AtOrigin)],
            fibers := s.fibers[s.active[r] := Now(s, r).(serving := None)]), s.msgs[id].origin, id)
  }

  function Apply(s: State, a: Step): State {
    if !Enabled(s, a) then s else
    match a
    case Spawn(r) => NewFiber(s, r, None)
    case Yield(r) => Leave(s, r, Now(s, r).(loc := InReady))
    case Block(r) => Leave(s, r, Now(s, r).(loc := Blocked))
    case Unblock(r, f) => MakeReady(s, r, f, s.fibers[f])
    case End(r) => Leave(s, r, Now(s, r).(loc := Ended))
    case SubmitCall(r, target) => SubmitStep(s, r, target)
    case SuspendCall(r) => Leave(s, r, Now(s, r).(loc := InWait, call := Waiting(Now(s, r).call.id)))
    case ReturnCall(r) => ReturnStep(s, r)
    case Receive(r) => ReceiveStep(s, r)
    case EndProcess(r, o) => EndProcessStep(s, Now(s, r).serving.value, o)
    case Reply(r) => ReplyStep(s, r)
    case Stop(r) => s.(running := s.running[r := false])
    case Exit(r) => s.(exited := s.exited[r := true])
  }

  // ---- the invariant

  ghost predicate FiberInv(s: State, f: Fiber)
    requires Shape(s) && f < |s.fibers|
  {
    var p := s.fibers[f];
    && p.home < s.n
    && (f < s.n ==> p.home == f && p.serving == None && p.call == NoCall && (p.loc == Active || p.loc == InReady))
    && (p.loc == Active <==> s.active[p.home] == f)
    && (p.loc == InReady <==> f in s.ready[p.home])
    && (p.loc == InWait <==> f in s.wait[p.home])
    && (p.call.Waiting? <==> p.loc == InWait)
    && (p.call.Submitted? ==> p.loc == Active)
    && (p.call.Resumed? ==> p.loc == Active || p.loc == InReady)
    && (p.loc == Ended ==> p.serving == None)
    && (p.call != NoCall ==> CallInv(s, f, p.call.id))
    && (p.serving.Some? ==> ServeInv(s, f, p.serving.value))
  }

  ghost predicate CallInv(s: State, f: Fiber, id: Id)
    requires f < |s.fibers|
  {
    && id < |s.msgs| && s.msgs[id].caller == f && s.msgs[id].origin == s.fibers[f].home
    && (s.fibers[f].call.Resumed? <==> s.msgs[id].place == Done)
    && (forall k :: 0 <= k < |s.returned| ==> s.returned[k].id != id)
  }

  ghost predicate ServeInv(s: State, f: Fiber, id: Id)
    requires f < |s.fibers|
  {
    id < |s.msgs| && s.msgs[id].place == Serving(f) && s.msgs[id].target == s.fibers[f].home
  }

  ghost predicate QueueInv(s: State, r: Cpu)
    requires Shape(s) && r < s.n
  {
    && s.fibers[s.active[r]].home == r
    && Distinct(s.ready[r]) && Distinct(s.wait[r])
    && (forall f :: f in s.ready[r] || f in s.wait[r] ==> f < |s.fibers| && s.fibers[f].home == r)
    && (s.exited[r] ==> s.active[r] == r && NoFibersLeft(s, r))
  }

  /** A message in the inbox of r is on its way there or on its way back. */
  predicate Addressed(m: Msg, r: Cpu) {
    (m.place == AtTarget && m.target == r) || (m.place == AtOrigin && m.origin == r)
  }

  ghost predicate InboxInv(s: State, r: Cpu)
    requires Shape(s) && r < s.n
  {
    && Distinct(s.inbox[r])
    && forall i :: i in s.inbox[r] ==> i < |s.msgs| && Addressed(s.msgs[i], r)
  }

  ghost predicate MsgInv(s: State, i: Id)
    requires Shape(s) && i < |s.msgs|
  {
    var m := s.msgs[i];
    && m.origin < s.n && m.target < s.n && m.caller < |s.fibers|
    && (m.place == AtTarget ==> i in s.inbox[m.target] && !m.ret)
    && (m.place == AtOrigin ==> i in s.inbox[m.origin] && m.ret)
    && (m.place.Serving? ==> m.place.f < |s.fibers| && s.fibers[m.place.f].serving == Some(i))
    && (m.place == Done ==> m.ret)
    && (m.place != Done ==> s.fibers[m.caller].call == Submitted(i) || s.fibers[m.caller].call == Waiting(i))
    && (m.ret <==> m.outcome.Some?) && (m.ret <==> i in s.processed)
    && (m.place == Done <==> i in s.finished)
  }

  ghost predicate Logs(s: State) {
    && Distinct(s.processed) && Distinct(s.finished)
    && (forall i :: i in s.processed || i in s.finished ==> i < |s.msgs|)
    && (forall j, k :: 0 <= j < k < |s.returned| ==> s.returned[j].id != s.returned[k].id)
    && (forall k :: 0 <= k < |s.returned| ==> Returned(s, s.returned[k]))
  }

  ghost predicate Returned(s: State, a: Answer) {
    a.id < |s.msgs| && s.msgs[a.id].place == Done && s.msgs[a.id].outcome == Some(a.outcome)
  }

  ghost predicate Inv(s: State) {
    && Shape(s) && !s.fault && Logs(s)
    && (forall f: Fiber :: f < |s.fibers| ==> FiberInv(s, f))
    && (forall r: Cpu :: r < s.n ==> QueueInv(s, r) && InboxInv(s, r))
    && (forall i: Id :: i < |s.msgs| ==> MsgInv(s, i))
  }
  // ---- every step keeps it

  /** What a fiber may look like after giving up the processor. */
  ghost predicate MayLeave(s: State, r: Cpu, p: FiberState) {
    && Alive(s, r) && p.home == Now(s, r).home && p.serving == Now(s, r).serving && p.loc != Active
    && (s.active[r] < s.n ==> p.loc == InReady)
    && (p.loc == Ended ==> p.serving == None)
    && (if p.loc == InWait then Now(s, r).call.Submitted? && p.call == Waiting(Now(s, r).call.id)
        else p.call == NoCall && Now(s, r).call == NoCall)
  }

  function Candidates(s: State, r: Cpu, p: FiberState): seq<Fiber>
    requires Alive(s, r)
  {
    if p.loc == InReady then s.ready[r] + [s.active[r]] else s.ready[r]
  }

  /** The event loop is ready whenever it does not run, so there is always somebody to switch to. */
  lemma SomebodyIsReady(s: State, r: Cpu, p: FiberState)
    requires Inv(s) && MayLeave(s, r, p)
    ensures var q := Candidates(s, r, p);
      && q != [] && Distinct(q) && r < s.n
      && forall f :: f in q ==> f < |s.fibers| && s.fibers[f].home == r && (f == s.active[r] || s.fibers[f].loc == InReady)
  {
    assert QueueInv(s, r) && FiberInv(s, r) && FiberInv(s, s.active[r]);
    var q := Candidates(s, r, p);
    forall f | f in q
      ensures f < |s.fibers| && s.fibers[f].home == r && (f == s.active[r] || s.fibers[f].loc == InReady)
    {
      if f != s.active[r] { assert FiberInv(s, f); }
    }
  }

  /** The state after a switch on r, spelled out. */
  lemma LeaveShape(s: State, r: Cpu, p: FiberState)
    requires Inv(s) && MayLeave(s, r, p)
    ensures var s' := Leave(s, r, p); var q := Candidates(s, r, p); var a := s.active[r];
      && Shape(s') && !s'.fault && q != [] && q[0] < |s.fibers| == |s'.fibers| && r < s.n
      && s'.active == s.active[r := q[0]] && s'.ready == s.ready[r := q[1..]]
      && (forall f: Fiber :: f in q[1..] <==> f in q && f != q[0]) && Distinct(q[1..])
      && s'.wait == (if p.loc == InWait then s.wait[r := s.wait[r] + [a]] else s.wait)
      && s.fibers[q[0]].home == r && s'.fibers[q[0]].loc == Active
      && (q[0] == a ==> s'.fibers[a] == p.(loc := Active)) && (q[0] != a ==> s'.fibers[a] == p)
      && (q[0] != a ==> s'.fibers[q[0]] == s.fibers[q[0]].(loc := Active) && s.fibers[q[0]].loc == InReady)
      && forall f: Fiber :: f < |s.fibers| && f != a && f != q[0] ==> s'.fibers[f] == s.fibers[f]
  {
    SomebodyIsReady(s, r, p);
    Behind(Candidates(s, r, p));
    assert QueueInv(s, r);
  }

  lemma LeaveFiber(s: State, r: Cpu, p: FiberState, f: Fiber)
    requires Inv(s) && MayLeave(s, r, p) && f < |s.fibers|
    ensures var s' := Leave(s, r, p); Shape(s') && f < |s'.fibers| && FiberInv(s', f)
  {
    LeaveShape(s, r, p);
    assert QueueInv(s, r) && FiberInv(s, s.active[r]) && FiberInv(s, f);
    var q := Candidates(s, r, p);
    assert f in q <==> f in s.ready[r] || (p.loc == InReady && f == s.active[r]);
    if f == s.active[r] {
    } else if f == q[0] {
    } else {
    }
  }

  lemma LeaveQueue(s: State, r: Cpu, p: FiberState, k: Cpu)
    requires Inv(s) && MayLeave(s, r, p) && k < s.n
    ensures var s' := Leave(s, r, p); Shape(s') && k < s'.n && QueueInv(s', k)
  {
    LeaveShape(s, r, p);
    SomebodyIsReady(s, r, p);
    assert QueueInv(s, k) && FiberInv(s, s.active[r]);
    var s' := Leave(s, r, p);
    assert forall f: Fiber :: f < |s.fibers| ==> s'.fibers[f].home == s.fibers[f].home;
    assert QueueInv(s, r);
    if k != r {
      assert s'.exited[k] ==> NoFibersLeft(s', k);
    }
  }

  lemma LeaveMessage(s: State, r: Cpu, p: FiberState, i: Id)
    requires Inv(s) && MayLeave(s, r, p) && i < |s.msgs|
    ensures var s' := Leave(s, r, p); Shape(s') && i < |s'.msgs| && MsgInv(s', i)
  {
    LeaveShape(s, r, p);
    assert MsgInv(s, i) && FiberInv(s, s.active[r]);
  }

  lemma LeaveKeepsInv(s: State, r: Cpu, p: FiberState)
    requires Inv(s) && MayLeave(s, r, p)
    ensures Inv(Leave(s, r, p))
  {
    LeaveShape(s, r, p);
    var s' := Leave(s, r, p);
    forall f: Fiber | f < |s'.fibers| ensures FiberInv(s', f) { LeaveFiber(s, r, p, f); }
    forall k: Cpu | k < s'.n ensures QueueInv(s', k) && InboxInv(s', k) {
      LeaveQueue(s, r, p, k);
      assert InboxInv(s, k);
    }
    forall i: Id | i < |s'.msgs| ensures MsgInv(s', i) { LeaveMessage(s, r, p, i); }
    forall k | 0 <= k < |s'.returned| ensures Returned(s', s'.returned[k]) { assert Returned(s, s.returned[k]); }
  }

  lemma SpawnKeepsInv(s: State, r: Cpu)
    requires Inv(s) && Alive(s, r)
    ensures Inv(NewFiber(s, r, None))
  {
    var s' := NewFiber(s, r, None);
    assert |s.fibers| !in s.ready[r] && |s.fibers| !in s.wait[r] by { assert QueueInv(s, r); }
    forall f: Fiber | f < |s'.fibers| ensures FiberInv(s', f) {
      if f < |s.fibers| { assert FiberInv(s, f); } else { assert forall k: Cpu :: k < s.n ==> QueueInv(s, k); }
    }
    forall k: Cpu | k < s'.n ensures QueueInv(s', k) && InboxInv(s', k) { assert QueueInv(s, k) && InboxInv(s, k); }
    forall i: Id | i < |s'.msgs| ensures MsgInv(s', i) { assert MsgInv(s, i); }
    forall k | 0 <= k < |s'.returned| ensures Returned(s', s'.returned[k]) { assert Returned(s, s.returned[k]); }
  }

  lemma UnblockKeepsInv(s: State, r: Cpu, f: Fiber)
    requires Inv(s) && Enabled(s, Unblock(r, f))
    ensures Inv(Apply(s, Unblock(r, f)))
  {
    var s' := Apply(s, Unblock(r, f));
    assert FiberInv(s, f) && QueueInv(s, r);
    forall g: Fiber | g < |s'.fibers| ensures FiberInv(s', g) { assert FiberInv(s, g); }
    forall k: Cpu | k < s'.n ensures QueueInv(s', k) && InboxInv(s', k) { assert QueueInv(s, k) && InboxInv(s, k); }
    forall i: Id | i < |s'.msgs| ensures MsgInv(s', i) { assert MsgInv(s, i); }
    forall k | 0 <= k < |s'.returned| ensures Returned(s', s'.returned[k]) { assert Returned(s, s.returned[k]); }
  }

  lemma SubmitFibers(s: State, r: Cpu, target: Cpu)
    requires Inv(s) && Enabled(s, SubmitCall(r, target))
    ensures var s' := SubmitStep(s, r, target); Shape(s') && forall g: Fiber :: g < |s'.fibers| ==> FiberInv(s', g)
  {
    var s' := SubmitStep(s, r, target);
    assert FiberInv(s, s.active[r]) && QueueInv(s, r);
    forall k | 0 <= k < |s.returned| ensures s.returned[k].id != |s.msgs| { assert Returned(s, s.returned[k]); }
    forall g: Fiber | g < |s'.fibers| ensures FiberInv(s', g) { assert FiberInv(s, g); }
  }

  lemma SubmitQueues(s: State, r: Cpu, target: Cpu)
    requires Inv(s) && Enabled(s, SubmitCall(r, target))
    ensures var s' := SubmitStep(s, r, target); Shape(s') && forall k: Cpu :: k < s'.n ==> QueueInv(s', k) && InboxInv(s', k)
  {
    var s' := SubmitStep(s, r, target);
    assert InboxInv(s, target) && |s.msgs| !in s.inbox[target];
    forall k: Cpu | k < s'.n ensures QueueInv(s', k) && InboxInv(s', k) { assert QueueInv(s, k) && InboxInv(s, k); }
  }

  lemma SubmitKeepsInv(s: State, r: Cpu, target: Cpu)
    requires Inv(s) && Enabled(s, SubmitCall(r, target))
    ensures Inv(SubmitStep(s, r, target))
  {
    var s' := SubmitStep(s, r, target);
    assert FiberInv(s, s.active[r]) && QueueInv(s, r);
    SubmitFibers(s, r, target);
    SubmitQueues(s, r, target);
    forall i: Id | i < |s'.msgs| ensures MsgInv(s', i) { assert i < |s.msgs| ==> MsgInv(s, i); }
    forall k | 0 <= k < |s'.returned| ensures Returned(s', s'.returned[k]) { assert Returned(s, s.returned[k]); }
  }

  lemma ReturnKeepsInv(s: State, r: Cpu)
    requires Inv(s) && Enabled(s, ReturnCall(r))
    ensures Inv(ReturnStep(s, r))
  {
    var s' := ReturnStep(s, r);
    var a := s.active[r];
    var id := Now(s, r).call.id;
    assert FiberInv(s, a) && MsgInv(s, id);
    forall g: Fiber | g < |s'.fibers| ensures FiberInv(s', g) { assert FiberInv(s, g); }
    forall k: Cpu | k < s'.n ensures QueueInv(s', k) && InboxInv(s', k) { assert QueueInv(s, k) && InboxInv(s, k); }
    forall i: Id | i < |s'.msgs| ensures MsgInv(s', i) { assert MsgInv(s, i); }
    forall k | 0 <= k < |s'.returned| ensures Returned(s', s'.returned[k]) {
      assert k < |s.returned| ==> Returned(s, s.returned[k]);
    }
  }

  lemma EndProcessKeepsInv(s: State, r: Cpu, o: Outcome)
    requires Inv(s) && Enabled(s, EndProcess(r, o))
    ensures Inv(Apply(s, EndProcess(r, o)))
  {
    var s' := Apply(s, EndProcess(r, o));
    var id := Now(s, r).serving.value;
    assert FiberInv(s, s.active[r]) && MsgInv(s, id);
    forall g: Fiber | g < |s'.fibers| ensures FiberInv(s', g) { assert FiberInv(s, g); }
    forall k: Cpu | k < s'.n ensures QueueInv(s', k) && InboxInv(s', k) { assert QueueInv(s, k) && InboxInv(s, k); }
    forall i: Id | i < |s'.msgs| ensures MsgInv(s', i) { assert MsgInv(s, i); }
    forall k | 0 <= k < |s'.returned| ensures Returned(s', s'.returned[k]) { assert Returned(s, s.returned[k]); }
  }

  lemma ReplyFibers(s: State, r: Cpu)
    requires Inv(s) && Enabled(s, Reply(r))
    ensures var s' := ReplyStep(s, r); Shape(s') && forall g: Fiber :: g < |s'.fibers| ==> FiberInv(s', g)
  {
    var s' := ReplyStep(s, r);
    assert FiberInv(s, s.active[r]) && MsgInv(s, Now(s, r).serving.value);
    forall g: Fiber | g < |s'.fibers| ensures FiberInv(s', g) { assert FiberInv(s, g); }
  }

  lemma ReplyQueues(s: State, r: Cpu)
    requires Inv(s) && Enabled(s, Reply(r))
    ensures var s' := ReplyStep(s, r); Shape(s') && forall k: Cpu :: k < s'.n ==> QueueInv(s', k) && InboxInv(s', k)
  {
    var s' := ReplyStep(s, r);
    var id := Now(s, r).serving.value;
    assert FiberInv(s, s.active[r]) && MsgInv(s, id) && InboxInv(s, s.msgs[id].origin);
    forall k: Cpu | k < s'.n ensures QueueInv(s', k) && InboxInv(s', k) { assert QueueInv(s, k) && InboxInv(s, k); }
  }

  lemma ReplyKeepsInv(s: State, r: Cpu)
    requires Inv(s) && Enabled(s, Reply(r))
    ensures Inv(ReplyStep(s, r))
  {
    ReplyFibers(s, r);
    ReplyQueues(s, r);
    var s' := ReplyStep(s, r);
    assert FiberInv(s, s.active[r]);
    forall i: Id | i < |s'.msgs| ensures MsgInv(s', i) { assert MsgInv(s, i); }
    forall k | 0 <= k < |s'.returned| ensures Returned(s', s'.returned[k]) { assert Returned(s, s.returned[k]); }
  }

  lemma ServeFibers(s: State, r: Cpu)
    requires Inv(s) && Enabled(s, Receive(r)) && !s.msgs[s.inbox[r][0]].ret
    ensures var s' := ReceiveStep(s, r); Shape(s') && forall g: Fiber :: g < |s'.fibers| ==> FiberInv(s', g)
  {
    var s' := ReceiveStep(s, r);
    Front(s.inbox[r]);
    assert InboxInv(s, r) && QueueInv(s, r) && MsgInv(s, s.inbox[r][0]);
    forall g: Fiber | g < |s'.fibers| ensures FiberInv(s', g) {
      if g < |s.fibers| { assert FiberInv(s, g); } else { assert forall k: Cpu :: k < s.n ==> QueueInv(s, k); }
    }
  }

  lemma ServeQueues(s: State, r: Cpu)
    requires Inv(s) && Enabled(s, Receive(r)) && !s.msgs[s.inbox[r][0]].ret
    ensures var s' := ReceiveStep(s, r); Shape(s') && forall k: Cpu :: k < s'.n ==> QueueInv(s', k) && InboxInv(s', k)
  {
    var s' := ReceiveStep(s, r);
    assert r < s.n && InboxInv(s, r) && QueueInv(s, r) && |s.fibers| !in s.ready[r];
    Behind(s.inbox[r]);
    forall k: Cpu | k < s'.n ensures QueueInv(s', k) && InboxInv(s', k) { assert QueueInv(s, k) && InboxInv(s, k); }
  }

  /** A fresh message leaves the inbox with the fiber made for it. */
  lemma ServeKeepsInv(s: State, r: Cpu)
    requires Inv(s) && Enabled(s, Receive(r)) && !s.msgs[s.inbox[r][0]].ret
    ensures Inv(ReceiveStep(s, r))
  {
    var s' := ReceiveStep(s, r);
    ServeFibers(s, r);
    ServeQueues(s, r);
    assert r < s.n && InboxInv(s, r);
    Behind(s.inbox[r]);
    forall i: Id | i < |s'.msgs| ensures MsgInv(s', i) { assert MsgInv(s, i); }
    forall k | 0 <= k < |s'.returned| ensures Returned(s', s'.returned[k]) { assert Returned(s, s.returned[k]); }
  }

  /** When a reply is received its caller is linked in the wait queue: it cannot still be on its way
      there, because then it, and not the event loop, would be running. */
  lemma CallerIsLinked(s: State, r: Cpu)
    requires Inv(s) && Enabled(s, Receive(r)) && s.msgs[s.inbox[r][0]].ret
    ensures var id := s.inbox[r][0]; var c := s.msgs[id].caller;
      && c in s.wait[r] && r < s.n <= c < |s.fibers| && s.fibers[c].home == r && s.fibers[c].loc == InWait
      && s.fibers[c].call == Waiting(id) && s.msgs[id].origin == r && s.msgs[id].place == AtOrigin
  {
    var id := s.inbox[r][0];
    var c := s.msgs[id].caller;
    Front(s.inbox[r]);
    assert InboxInv(s, r) && MsgInv(s, id);
    assert FiberInv(s, c);
  }

  lemma FinishShape(s: State, r: Cpu)
    requires Inv(s) && Enabled(s, Receive(r)) && s.msgs[s.inbox[r][0]].ret
    ensures var s' := ReceiveStep(s, r); var id := s.inbox[r][0]; var c := s.msgs[id].caller;
      && c < |s.fibers| && s.fibers[c].home == r && s.fibers[c].loc == InWait && s.fibers[c].call == Waiting(id)
      && Shape(s') && !s'.fault && |s'.fibers| == |s.fibers| && |s'.msgs| == |s.msgs|
      && s'.fibers == s.fibers[c := s.fibers[c].(call := Resumed(id), loc := InReady)]
      && s'.active == s.active && s'.ready == s.ready[r := s.ready[r] + [c]] && c !in s.ready[r]
      && (forall k: Cpu :: k < s.n && k != r ==> s'.wait[k] == s.wait[k] && s'.inbox[k] == s.inbox[k])
      && Distinct(s'.wait[r]) && (forall f: Fiber :: f in s'.wait[r] <==> f in s.wait[r] && f != c)
      && Distinct(s'.inbox[r]) && (forall i: Id :: i in s'.inbox[r] <==> i in s.inbox[r] && i != id)
      && s'.msgs == s.msgs[id := s.msgs[id].(place := Done)] && s'.finished == s.finished + [id]
      && s.msgs[id].place == AtOrigin && s.msgs[id].origin == r
  {
    CallerIsLinked(s, r);
    var id := s.inbox[r][0];
    var c := s.msgs[id].caller;
    assert InboxInv(s, r) && QueueInv(s, r) && FiberInv(s, c);
    Behind(s.inbox[r]);
    RemoveMembers(s.wait[r], c);
    RemoveDistinct(s.wait[r], c);
  }

  lemma FinishFiber(s: State, r: Cpu, g: Fiber)
    requires Inv(s) && Enabled(s, Receive(r)) && s.msgs[s.inbox[r][0]].ret && g < |s.fibers|
    ensures var s' := ReceiveStep(s, r); Shape(s') && g < |s'.fibers| && FiberInv(s', g)
  {
    FinishShape(s, r);
    assert FiberInv(s, g) && FiberInv(s, s.msgs[s.inbox[r][0]].caller);
  }

  lemma FinishQueue(s: State, r: Cpu, k: Cpu)
    requires Inv(s) && Enabled(s, Receive(r)) && s.msgs[s.inbox[r][0]].ret && k < s.n
    ensures var s' := ReceiveStep(s, r); Shape(s') && k < s'.n && QueueInv(s', k) && InboxInv(s', k)
  {
    FinishShape(s, r);
    assert QueueInv(s, k) && InboxInv(s, k);
  }

  lemma FinishMessage(s: State, r: Cpu, i: Id)
    requires Inv(s) && Enabled(s, Receive(r)) && s.msgs[s.inbox[r][0]].ret && i < |s.msgs|
    ensures var s' := ReceiveStep(s, r); Shape(s') && i < |s'.msgs| && MsgInv(s', i)
  {
    FinishShape(s, r);
    assert MsgInv(s, i) && MsgInv(s, s.inbox[r][0]);
  }

  lemma FinishKeepsInv(s: State, r: Cpu)
    requires Inv(s) && Enabled(s, Receive(r)) && s.msgs[s.inbox[r][0]].ret
    ensures Inv(ReceiveStep(s, r))
  {
    FinishShape(s, r);
    var s' := ReceiveStep(s, r);
    assert MsgInv(s, s.inbox[r][0]);
    forall g: Fiber | g < |s'.fibers| ensures FiberInv(s', g) { FinishFiber(s, r, g); }
    forall k: Cpu | k < s'.n ensures QueueInv(s', k) && InboxInv(s', k) { FinishQueue(s, r, k); }
    forall i: Id | i < |s'.msgs| ensures MsgInv(s', i) { FinishMessage(s, r, i); }
    forall k | 0 <= k < |s'.returned| ensures Returned(s', s'.returned[k]) { assert Returned(s, s.returned[k]); }
  }

  lemma ExitKeepsInv(s: State, r: Cpu)
    requires Inv(s) && Enabled(s, Exit(r))
    ensures Inv(Apply(s, Exit(r)))
  {
    var s' := Apply(s, Exit(r));
    forall g: Fiber | g < |s'.fibers| ensures FiberInv(s', g) { assert FiberInv(s, g); }
    forall k: Cpu | k < s'.n ensures QueueInv(s', k) && InboxInv(s', k) { assert QueueInv(s, k) && InboxInv(s, k); }
    forall i: Id | i < |s'.msgs| ensures MsgInv(s', i) { assert MsgInv(s, i); }
    forall k | 0 <= k < |s'.returned| ensures Returned(s', s'.returned[k]) { assert Returned(s, s.returned[k]); }
  }

  lemma StopKeepsInv(s: State, r: Cpu)
    requires Inv(s) && Enabled(s, Stop(r))
    ensures Inv(Apply(s, Stop(r)))
  {
    var s' := Apply(s, Stop(r));
    forall g: Fiber | g < |s'.fibers| ensures FiberInv(s', g) { assert FiberInv(s, g); }
    forall k: Cpu | k < s'.n ensures QueueInv(s', k) && InboxInv(s', k) { assert QueueInv(s, k) && InboxInv(s, k); }
    forall i: Id | i < |s'.msgs| ensures MsgInv(s', i) { assert MsgInv(s, i); }
    forall k | 0 <= k < |s'.returned| ensures Returned(s', s'.returned[k]) { assert Returned(s, s.returned[k]); }
  }

  lemma StepKeepsInv(s: State, a: Step)
    requires Inv(s)
    ensures Inv(Apply(s, a))
  {
    if Enabled(s, a) {
      match a
      case Spawn(r) => SpawnKeepsInv(s, r);
      case Yield(r) => YieldKeepsInv(s, r);
      case Block(r) => LeaveKeepsInv(s, r, Now(s, r).(loc := Blocked));
      case Unblock(r, f) => UnblockKeepsInv(s, r, f);
      case End(r) => LeaveKeepsInv(s, r, Now(s, r).(loc := Ended));
      case SubmitCall(r, target) => SubmitKeepsInv(s, r, target);
      case SuspendCall(r) => SuspendKeepsInv(s, r);
      case ReturnCall(r) => ReturnKeepsInv(s, r);
      case Receive(r) => if s.msgs[s.inbox[r][0]].ret { FinishKeepsInv(s, r); } else { ServeKeepsInv(s, r); }
      case EndProcess(r, o) => EndProcessKeepsInv(s, r, o);
      case Reply(r) => ReplyKeepsInv(s, r);
      case Stop(r) => StopKeepsInv(s, r);
      case Exit(r) => ExitKeepsInv(s, r);
    }
  }

  lemma YieldKeepsInv(s: State, r: Cpu)
    requires Inv(s) && Enabled(s, Yield(r))
    ensures Inv(Apply(s, Yield(r)))
  {
    assert FiberInv(s, s.active[r]);
    LeaveKeepsInv(s, r, Now(s, r).(loc := InReady));
  }

  lemma SuspendKeepsInv(s: State, r: Cpu)
    requires Inv(s) && Enabled(s, SuspendCall(r))
    ensures Inv(Apply(s, SuspendCall(r)))
  {
    assert FiberInv(s, s.active[r]);
    LeaveKeepsInv(s, r, Now(s, r).(loc := InWait, call := Waiting(Now(s, r).call.id)));
  }

  lemma AlwaysInv(n: nat, run: seq<Step>)
    ensures Inv(Runs.Exec(Apply, Init(n), run))
  {
    var s := Init(n);
    forall f: Fiber | f < |s.fibers| ensures FiberInv(s, f) { }
    forall r: Cpu | r < n ensures QueueInv(s, r) && InboxInv(s, r) { }
    forall s: State, a: Step | Inv(s) ensures Inv(Apply(s, a)) { StepKeepsInv(s, a); }
    Runs.Invariant(Apply, Inv, Init(n), run);
  }

  // ---- what run_at promises

  /** Where a message is found: in an inbox on its way out, with a fiber, in an inbox on its way back. */
  predicate InInbox(s: State, i: Id, r: Cpu) {
    r < |s.inbox| && i in s.inbox[r]
  }

  predicate Served(s: State, i: Id, f: Fiber) {
    f < |s.fibers| && s.fibers[f].serving == Some(i)
  }

  /** A message is in exactly one place: on its way out in the target's inbox, or served by one fiber of
      the target, or on its way back in the origin's inbox, or finished. */
  lemma MessageInOnePlace(n: nat, run: seq<Step>, i: Id, r: Cpu, f: Fiber)
    ensures var s := Runs.Exec(Apply, Init(n), run);
      i < |s.msgs| ==> var m := s.msgs[i];
        && (InInbox(s, i, r) <==> (m.place == AtTarget && r == m.target) || (m.place == AtOrigin && r == m.origin))
        && (InInbox(s, i, r) ==> Distinct(s.inbox[r]))
        && (Served(s, i, f) <==> m.place == Serving(f))
        && (m.place == Done <==> i in s.finished) && (m.ret <==> i in s.processed)
        && (m.place == AtTarget ==> !m.ret) && (m.place == AtOrigin || m.place == Done ==> m.ret)
  {
    AlwaysInv(n, run);
    var s := Runs.Exec(Apply, Init(n), run);
    if i < |s.msgs| {
      assert MsgInv(s, i);
      if r < s.n { assert InboxInv(s, r); }
      if f < |s.fibers| { assert FiberInv(s, f); }
    }
  }

  /** An answer given to a caller: its message is finished, and this is what the processing ended with. */
  ghost predicate RightAnswer(s: State, a: Answer) {
    a.id in s.finished && a.id < |s.msgs| && s.msgs[a.id].outcome == Some(a.outcome)
  }

  /** A message is processed at most once, finished at most once and only after that, and its call returns
      at most once, only when finished, with what the processing ended with. */
  lemma OnceEach(n: nat, run: seq<Step>)
    ensures var s := Runs.Exec(Apply, Init(n), run);
      && Distinct(s.processed) && Distinct(s.finished)
      && (forall i :: i in s.finished ==> i in s.processed)
      && (forall j, k :: 0 <= j < k < |s.returned| ==> s.returned[j].id != s.returned[k].id)
      && (forall k :: 0 <= k < |s.returned| ==> RightAnswer(s, s.returned[k]))
  {
    AlwaysInv(n, run);
    var s := Runs.Exec(Apply, Init(n), run);
    forall i | i in s.finished ensures i in s.processed { assert MsgInv(s, i); }
    forall k | 0 <= k < |s.returned| ensures RightAnswer(s, s.returned[k]) {
      assert Returned(s, s.returned[k]) && MsgInv(s, s.returned[k].id);
    }
  }

  /** What the processing ended with is never changed afterwards. */
  lemma OutcomeIsFinal(n: nat, run: seq<Step>, more: seq<Step>, i: Id)
    ensures var s := Runs.Exec(Apply, Init(n), run); var s' := Runs.Exec(Apply, Init(n), run + more);
      i < |s.msgs| && s.msgs[i].ret ==> i < |s'.msgs| && s'.msgs[i].ret && s'.msgs[i].outcome == s.msgs[i].outcome
  {
    var s := Runs.Exec(Apply, Init(n), run);
    if i < |s.msgs| && s.msgs[i].ret {
      AlwaysInv(n, run);
      Runs.Split(Apply, Init(n), run, more);
      var kept := (t: State) => Inv(t) && i < |t.msgs| && t.msgs[i].ret && t.msgs[i].outcome == s.msgs[i].outcome;
      forall t: State, a: Step | kept(t) ensures kept(Apply(t, a)) {
        StepKeepsInv(t, a);
        OutcomeStays(t, a, i);
      }
      Runs.Invariant(Apply, kept, s, more);
    }
  }

  lemma OutcomeStays(s: State, a: Step, i: Id)
    requires Inv(s) && i < |s.msgs| && s.msgs[i].ret
    ensures var s' := Apply(s, a); i < |s'.msgs| && s'.msgs[i].ret && s'.msgs[i].outcome == s.msgs[i].outcome
  {
  }

  /** Whenever a reply is taken from an inbox, its caller is suspended and linked on that very reactor,
      however the reply raced with the caller's way into the wait queue; so finish never fails. */
  lemma ReplyFindsCallerLinked(n: nat, run: seq<Step>, r: Cpu)
    ensures var s := Runs.Exec(Apply, Init(n), run);
      && !s.fault
      && (Enabled(s, Receive(r)) && s.msgs[s.inbox[r][0]].ret ==>
            var id := s.inbox[r][0]; var c := s.msgs[id].caller;
            && c in s.wait[r] && c < |s.fibers| && s.fibers[c].loc == InWait && s.fibers[c].call == Waiting(id)
            && id !in s.finished)
  {
    AlwaysInv(n, run);
    var s := Runs.Exec(Apply, Init(n), run);
    if Enabled(s, Receive(r)) && s.msgs[s.inbox[r][0]].ret {
      CallerIsLinked(s, r);
      assert MsgInv(s, s.inbox[r][0]);
    }
  }

  /** The message lives on its caller's stack: until it is finished the caller is inside that call, so
      nobody holds a pointer to a message that is gone. */
  lemma CallerOutlivesMessage(n: nat, run: seq<Step>, i: Id)
    ensures var s := Runs.Exec(Apply, Init(n), run);
      i < |s.msgs| && s.msgs[i].place != Done ==>
        var c := s.msgs[i].caller;
        c < |s.fibers| && (s.fibers[c].call == Submitted(i) || s.fibers[c].call == Waiting(i)) && s.fibers[c].loc != Ended
  {
    AlwaysInv(n, run);
    var s := Runs.Exec(Apply, Init(n), run);
    if i < |s.msgs| {
      assert MsgInv(s, i);
      if s.msgs[i].caller < |s.fibers| { assert FiberInv(s, s.msgs[i].caller); }
    }
  }

  /** An event loop ends only when no call it originated is unfinished. */
  lemma ExitLeavesNoCaller(n: nat, run: seq<Step>, i: Id)
    ensures var s := Runs.Exec(Apply, Init(n), run);
      i < |s.msgs| && s.msgs[i].origin < |s.exited| && s.exited[s.msgs[i].origin] ==> s.msgs[i].place == Done
  {
    AlwaysInv(n, run);
    var s := Runs.Exec(Apply, Init(n), run);
    if i < |s.msgs| && s.msgs[i].origin < |s.exited| && s.exited[s.msgs[i].origin] {
      assert MsgInv(s, i) && QueueInv(s, s.msgs[i].origin) && FiberInv(s, s.msgs[i].caller);
    }
  }

  ghost predicate Stranded(s: State, i: Id) {
    i < |s.msgs| && s.msgs[i].place == AtTarget && s.msgs[i].target < |s.exited| && s.exited[s.msgs[i].target]
  }

  /** But it does not look at the inbox: a call sent to a reactor that has ended stays there for ever, and
      its caller never returns. */
  lemma EndedTargetStrandsCall(n: nat, run: seq<Step>, more: seq<Step>, i: Id)
    requires Stranded(Runs.Exec(Apply, Init(n), run), i)
    ensures var s' := Runs.Exec(Apply, Init(n), run + more);
      Stranded(s', i) && forall k :: 0 <= k < |s'.returned| ==> s'.returned[k].id != i
  {
    AlwaysInv(n, run);
    Runs.Split(Apply, Init(n), run, more);
    var kept := (t: State) => Inv(t) && Stranded(t, i);
    forall t: State, a: Step | kept(t) ensures kept(Apply(t, a)) {
      StepKeepsInv(t, a);
      StrandedStays(t, a, i);
    }
    Runs.Invariant(Apply, kept, Runs.Exec(Apply, Init(n), run), more);
    var s' := Runs.Exec(Apply, Init(n), run + more);
    forall k | 0 <= k < |s'.returned| ensures s'.returned[k].id != i { assert Returned(s', s'.returned[k]); }
  }

  lemma StrandedStays(s: State, a: Step, i: Id)
    requires Inv(s) && Stranded(s, i)
    ensures Stranded(Apply(s, a), i)
  {
    if Enabled(s, a) {
      match a
      case Receive(r) =>
        Front(s.inbox[r]);
        assert InboxInv(s, r);
        if s.msgs[s.inbox[r][0]].ret { CallerIsLinked(s, r); }
      case Reply(r) => assert FiberInv(s, s.active[r]);
      case _ =>
    }
  }

  // ---- a switch, seen from outside

  predicate IsSwitch(a: Step) { a.Yield? || a.Block? || a.End? || a.SuspendCall? }

  /** What a switch on one reactor does to calls, messages and other reactors: nothing, but for the caller
      that suspends. */
  ghost predicate Switched(s: State, a: Step, s': State) {
    && s'.n == s.n && s'.msgs == s.msgs && s'.returned == s.returned && s'.exited == s.exited && s'.inbox == s.inbox
    && s'.finished == s.finished && |s'.fibers| == |s.fibers| && |s'.active| == |s.active|
    && (forall k: Cpu :: k < |s.active| && k != a.r ==> s'.active[k] == s.active[k])
    && forall f: Fiber :: f < |s.fibers| ==>
      && s'.fibers[f].home == s.fibers[f].home && s'.fibers[f].serving == s.fibers[f].serving
      && (if a.SuspendCall? && a.r < |s.active| && f == s.active[a.r] && s.fibers[f].call.Submitted?
          then s'.fibers[f].call == Waiting(s.fibers[f].call.id) else s'.fibers[f].call == s.fibers[f].call)
  }

  lemma LeaveEffect(s: State, a: Step, p: FiberState)
    requires Inv(s) && Enabled(s, a) && MayLeave(s, a.r, p) && Apply(s, a) == Leave(s, a.r, p)
    requires p.call == if a.SuspendCall? then Waiting(Now(s, a.r).call.id) else Now(s, a.r).call
    requires a.SuspendCall? ==> Now(s, a.r).call.Submitted?
    ensures Switched(s, a, Apply(s, a))
  {
    LeaveShape(s, a.r, p);
  }

  lemma SwitchEffect(s: State, a: Step)
    requires Inv(s) && Enabled(s, a) && IsSwitch(a)
    ensures Switched(s, a, Apply(s, a))
  {
    assert FiberInv(s, s.active[a.r]);
    match a
    case Yield(r) => LeaveEffect(s, a, Now(s, r).(loc := InReady));
    case Block(r) => LeaveEffect(s, a, Now(s, r).(loc := Blocked));
    case End(r) => LeaveEffect(s, a, Now(s, r).(loc := Ended));
    case SuspendCall(r) => LeaveEffect(s, a, Now(s, r).(loc := InWait, call := Waiting(Now(s, r).call.id)));
  }

  lemma SuspendShape(s: State, r: Cpu)
    requires Inv(s) && Enabled(s, SuspendCall(r))
    ensures var s' := Apply(s, SuspendCall(r)); var a := s.active[r];
      && s.ready[r] != [] && a !in s.wait[r] && s'.wait == s.wait[r := s.wait[r] + [a]]
      && s'.active == s.active[r := s.ready[r][0]] && s'.ready == s.ready[r := s.ready[r][1..]]
      && s'.msgs == s.msgs && s'.inbox == s.inbox && s'.running == s.running && |s'.fibers| == |s.fibers|
  {
    assert FiberInv(s, s.active[r]) && QueueInv(s, r);
    LeaveShape(s, r, Now(s, r).(loc := InWait, call := Waiting(Now(s, r).call.id)));
  }

  // ---- which calls a run makes, and with what outcomes

  /** A call as run_at was asked for it. */
  datatype Request = Request(origin: Cpu, target: Cpu, caller: Fiber)

  /** The calls of a run, in order. */
  function Requests(n: nat, run: seq<Step>): seq<Request> {
    if run == [] then []
    else
      var front, a := run[..|run| - 1], run[|run| - 1];
      var s := Runs.Exec(Apply, Init(n), front);
      Requests(n, front) + if a.SubmitCall? && Enabled(s, a) then [Request(a.r, a.target, s.active[a.r])] else []
  }

  /** What the task of message i ended with: the argument of the step that ended its processing. */
  function GivenOutcome(n: nat, run: seq<Step>, i: Id): Option<Outcome> {
    if run == [] then None
    else
      var front, a := run[..|run| - 1], run[|run| - 1];
      var s := Runs.Exec(Apply, Init(n), front);
      if a.EndProcess? && Enabled(s, a) && Now(s, a.r).serving == Some(i) then Some(a.o) else GivenOutcome(n, front, i)
  }

  function RequestOf(m: Msg): Request { Request(m.origin, m.target, m.caller) }

  lemma StepKeepsRequests(s: State, a: Step, i: Id)
    requires Inv(s) && i < |s.msgs|
    ensures i < |Apply(s, a).msgs| && RequestOf(Apply(s, a).msgs[i]) == RequestOf(s.msgs[i])
    ensures Apply(s, a).msgs[i].outcome ==
      if a.EndProcess? && Enabled(s, a) && Now(s, a.r).serving == Some(i) then Some(a.o) else s.msgs[i].outcome
  {
    if Enabled(s, a) && IsSwitch(a) { SwitchEffect(s, a); }
    if Enabled(s, a) && a.Receive? && s.msgs[s.inbox[a.r][0]].ret { FinishShape(s, a.r); }
  }

  lemma StepMakesRequests(s: State, a: Step)
    requires Inv(s)
    ensures |Apply(s, a).msgs| == |s.msgs| + if a.SubmitCall? && Enabled(s, a) then 1 else 0
    ensures a.SubmitCall? && Enabled(s, a) ==>
      RequestOf(Apply(s, a).msgs[|s.msgs|]) == Request(a.r, a.target, s.active[a.r]) && Apply(s, a).msgs[|s.msgs|].outcome == None
  {
    if Enabled(s, a) && IsSwitch(a) { SwitchEffect(s, a); }
    if Enabled(s, a) && a.Receive? && s.msgs[s.inbox[a.r][0]].ret { FinishShape(s, a.r); }
  }

  /** No step has ended the processing of a message that does not exist yet. */
  lemma {:induction false} NoOutcomeYet(n: nat, run: seq<Step>, i: Id)
    requires |Runs.Exec(Apply, Init(n), run).msgs| <= i
    ensures GivenOutcome(n, run, i) == None
    decreases |run|
  {
    if run != [] {
      var front := run[..|run| - 1];
      AlwaysInv(n, front);
      StepMakesRequests(Runs.Exec(Apply, Init(n), front), run[|run| - 1]);
      NoOutcomeYet(n, front, i);
    }
  }

  ghost predicate AsAsked(n: nat, run: seq<Step>, s: State) {
    && |s.msgs| == |Requests(n, run)|
    && forall i: Id :: i < |s.msgs| ==> RequestOf(s.msgs[i]) == Requests(n, run)[i] && s.msgs[i].outcome == GivenOutcome(n, run, i)
  }

  /** The i-th message goes from the reactor of the i-th call to the reactor it asks for, on behalf of the
      fiber that makes it, and carries what its own task ended with. */
  lemma {:induction false} MessagesAreTheCalls(n: nat, run: seq<Step>)
    ensures AsAsked(n, run, Runs.Exec(Apply, Init(n), run))
    decreases |run|
  {
    if run != [] {
      var front, a := run[..|run| - 1], run[|run| - 1];
      var s := Runs.Exec(Apply, Init(n), front);
      MessagesAreTheCalls(n, front);
      AlwaysInv(n, front);
      StepMakesRequests(s, a);
      forall i: Id | i < |Apply(s, a).msgs|
        ensures RequestOf(Apply(s, a).msgs[i]) == Requests(n, run)[i] && Apply(s, a).msgs[i].outcome == GivenOutcome(n, run, i)
      {
        if i < |s.msgs| { StepKeepsRequests(s, a, i); } else { NoOutcomeYet(n, front, i); }
      }
    }
  }

  // ---- what the other reactors may do while the event loop of r runs

  /** Not a step of reactor r itself; anybody may stop it. */
  predicate Foreign(r: Cpu, a: Step) { a.r != r || a.Stop? }

  /** A message that r's event loop has taken: finished if it was a reply, else with a fiber of r. */
  predicate Taken(s: State, r: Cpu, i: Id, reply: bool) {
    if reply then i in s.finished
    else i < |s.msgs| && s.msgs[i].place.Serving? && s.msgs[i].place.f < |s.fibers| && s.fibers[s.msgs[i].place.f].home == r
  }

  lemma ForeignKeepsLoop(s: State, a: Step, r: Cpu)
    requires Inv(s) && LoopActive(s, r) && Foreign(r, a)
    ensures var s' := Apply(s, a); LoopActive(s', r) && s.inbox[r] <= s'.inbox[r]
  {
    if Enabled(s, a) && IsSwitch(a) { SwitchEffect(s, a); }
  }

  lemma ForeignKeepsTaken(s: State, a: Step, r: Cpu, i: Id, reply: bool)
    requires Inv(s) && LoopActive(s, r) && Foreign(r, a) && Taken(s, r, i, reply)
    ensures Taken(Apply(s, a), r, i, reply)
  {
    if Enabled(s, a) {
      if IsSwitch(a) { SwitchEffect(s, a); }
      else if a.Receive? || a.Reply? {
        Front(s.inbox[a.r]);
        assert InboxInv(s, a.r) && QueueInv(s, a.r) && FiberInv(s, s.active[a.r]);
        if a.Receive? && s.msgs[s.inbox[a.r][0]].ret { FinishShape(s, a.r); }
      }
    }
  }

  lemma ForeignKeepsWaiting(s: State, a: Step, r: Cpu, i: Id)
    requires Inv(s) && LoopActive(s, r) && Foreign(r, a) && i in s.inbox[r]
    ensures i < |s.msgs| <= |Apply(s, a).msgs| && Apply(s, a).msgs[i].ret == s.msgs[i].ret
  {
    assert InboxInv(s, r);
    if Enabled(s, a) {
      if IsSwitch(a) { SwitchEffect(s, a); }
      else if a.EndProcess? { assert FiberInv(s, s.active[a.r]); }
    }
  }

  /** The event loop of r, which began in s, has taken the first `count` messages of its inbox; the others
      are still in front of what has come in since. */
  ghost predicate Midway(s: State, t: State, r: Cpu, count: nat) {
    && LoopActive(s, r) && LoopActive(t, r) && count <= |s.inbox[r]| && s.inbox[r][count..] <= t.inbox[r]
    && (forall k :: 0 <= k < |s.inbox[r]| ==> s.inbox[r][k] < |s.msgs| <= |t.msgs|)
    && (forall k :: 0 <= k < count ==> Taken(t, r, s.inbox[r][k], s.msgs[s.inbox[r][k]].ret))
    && (forall k :: count <= k < |s.inbox[r]| ==> t.msgs[s.inbox[r][k]].ret == s.msgs[s.inbox[r][k]].ret)
  }

  lemma MidwayStart(s: State, r: Cpu)
    requires Inv(s) && LoopActive(s, r)
    ensures Midway(s, s, r, 0)
  {
    assert InboxInv(s, r);
    forall k | 0 <= k < |s.inbox[r]| ensures s.inbox[r][k] < |s.msgs| { assert s.inbox[r][k] in s.inbox[r]; }
  }

  lemma WaitingInInbox(s: State, t: State, r: Cpu, count: nat, k: nat)
    requires Midway(s, t, r, count) && count <= k < |s.inbox[r]|
    ensures s.inbox[r][k] in t.inbox[r] && t.inbox[r][k - count] == s.inbox[r][k]
  {
    assert s.inbox[r][count..][k - count] == s.inbox[r][k];
  }

  lemma ForeignKeepsMidway(s: State, t: State, a: Step, r: Cpu, count: nat)
    requires Inv(t) && Midway(s, t, r, count) && Foreign(r, a)
    ensures Midway(s, Apply(t, a), r, count)
  {
    ForeignKeepsLoop(t, a, r);
    MessagesGrow(t, a);
    forall k | 0 <= k < count ensures Taken(Apply(t, a), r, s.inbox[r][k], s.msgs[s.inbox[r][k]].ret) {
      ForeignKeepsTaken(t, a, r, s.inbox[r][k], s.msgs[s.inbox[r][k]].ret);
    }
    forall k | count <= k < |s.inbox[r]| ensures Apply(t, a).msgs[s.inbox[r][k]].ret == s.msgs[s.inbox[r][k]].ret {
      WaitingInInbox(s, t, r, count, k);
      ForeignKeepsWaiting(t, a, r, s.inbox[r][k]);
    }
  }

  lemma MessagesGrow(s: State, a: Step)
    requires Inv(s)
    ensures |s.msgs| <= |Apply(s, a).msgs|
  {
    if Enabled(s, a) && IsSwitch(a) { SwitchEffect(s, a); }
  }

  lemma {:induction false} ForeignStepsKeepMidway(s: State, t: State, steps: seq<Step>, r: Cpu, count: nat)
    requires Inv(t) && Midway(s, t, r, count) && forall k :: 0 <= k < |steps| ==> Foreign(r, steps[k])
    ensures var t' := Runs.Exec(Apply, t, steps); Inv(t') && Midway(s, t', r, count)
    decreases |steps|
  {
    if steps != [] {
      var k := |steps| - 1;
      ForeignStepsKeepMidway(s, t, steps[..k], r, count);
      StepKeepsInv(Runs.Exec(Apply, t, steps[..k]), steps[k]);
      ForeignKeepsMidway(s, Runs.Exec(Apply, t, steps[..k]), steps[k], r, count);
    }
  }

  lemma ReceiveTakes(s: State, r: Cpu)
    requires Inv(s) && Enabled(s, Receive(r))
    ensures var s' := Apply(s, Receive(r)); var id := s.inbox[r][0];
      && LoopActive(s', r) && s'.inbox[r] == s.inbox[r][1..] && |s'.msgs| == |s.msgs|
      && Taken(s', r, id, s.msgs[id].ret)
      && forall i: Id :: i < |s.msgs| ==> s'.msgs[i].ret == s.msgs[i].ret
  {
    if s.msgs[s.inbox[r][0]].ret { FinishShape(s, r); }
  }

  lemma ReceiveKeepsTaken(s: State, r: Cpu, i: Id, reply: bool)
    requires Inv(s) && Enabled(s, Receive(r)) && Taken(s, r, i, reply)
    ensures Taken(Apply(s, Receive(r)), r, i, reply)
  {
    Front(s.inbox[r]);
    assert InboxInv(s, r);
    if s.msgs[s.inbox[r][0]].ret { FinishShape(s, r); }
  }

  lemma ReceiveKeepsMidway(s: State, t: State, r: Cpu, count: nat)
    requires Inv(t) && Midway(s, t, r, count) && count < |s.inbox[r]|
    ensures Enabled(t, Receive(r)) && Midway(s, Apply(t, Receive(r)), r, count + 1)
  {
    WaitingInInbox(s, t, r, count, count);
    assert InboxInv(t, r);
    ReceiveTakes(t, r);
    forall k | 0 <= k < count + 1 ensures Taken(Apply(t, Receive(r)), r, s.inbox[r][k], s.msgs[s.inbox[r][k]].ret) {
      if k < count { ReceiveKeepsTaken(t, r, s.inbox[r][k], s.msgs[s.inbox[r][k]].ret); }
    }
    assert s.inbox[r][count + 1..] == s.inbox[r][count..][1..];
  }

  /** How many messages the event loop of r takes in a run. */
  function Takes(run: seq<Step>, r: Cpu): nat {
    if run == [] then 0 else Takes(run[..|run| - 1], r) + if run[|run| - 1] == Receive(r) then 1 else 0
  }

  lemma {:induction false} ForeignTakesNothing(run: seq<Step>, steps: seq<Step>, r: Cpu)
    requires forall k :: 0 <= k < |steps| ==> Foreign(r, steps[k])
    ensures Takes(run + steps, r) == Takes(run, r)
    decreases |steps|
  {
    if steps == [] {
      assert run + steps == run;
    } else {
      assert (run + steps)[..|run + steps| - 1] == run + steps[..|steps| - 1];
      ForeignTakesNothing(run, steps[..|steps| - 1], r);
    }
  }

  // ---- the reactors in the form of the source

  /** FiberLambdaMessage's fields. */
  datatype Letter = Letter(cpu: Cpu, ret: bool, result: int, exception: Option<int>, context: Fiber)

  /** result(): the exception is thrown again. */
  function ResultOf(l: Letter): Outcome {
    if l.exception.Some? then Exception(l.exception.value) else Value(l.result)
  }

  predicate Matches(l: Letter, m: Msg) {
    && l.cpu == m.origin && l.ret == m.ret && l.context == m.caller
    && (m.outcome == if l.ret then Some(ResultOf(l)) else None) && (!l.ret ==> l.exception == None)
  }

  /** All reactors with the Smp they share. Each method runs on one reactor r, and calls on different
      reactors may come in any order. */
  class Cluster {
    const cpus: nat
    var active: seq<Fiber>
    var readyQueue: seq<seq<Fiber>>
    var waitQueue: seq<seq<Fiber>>
    var inboxes: seq<seq<Id>>
    var letters: seq<Letter>
    var running: seq<bool>
    var fiberCount: nat
    ghost var run: seq<Step>
    ghost var m: State

    ghost predicate Valid()
      reads this
    {
      && active == m.active && readyQueue == m.ready && waitQueue == m.wait && inboxes == m.inbox
      && running == m.running && fiberCount == |m.fibers| && |letters| == |m.msgs|
      && (forall i :: 0 <= i < |letters| ==> Matches(letters[i], m.msgs[i]))
      && Runs.Reached(Apply, Init(cpus), run, m)
    }

    constructor (cpus: nat)
      ensures Valid() && this.cpus == cpus && run == []
    {
      this.cpus := cpus;
      active := seq(cpus, i requires 0 <= i < cpus => i);
      readyQueue, waitQueue, inboxes := seq(cpus, _ => []), seq(cpus, _ => []), seq(cpus, _ => []);
      letters, running, fiberCount := [], seq(cpus, _ => true), cpus;
      run, m := [], Init(cpus);
      new;
      Runs.Start(Apply, Init(cpus));
    }

    ghost method Do(a: Step)
      requires Runs.Reached(Apply, Init(cpus), run, m)
      modifies this`run, this`m
      ensures run == old(run) + [a] && m == Apply(old(m), a)
      ensures Runs.Reached(Apply, Init(cpus), run, m)
    {
      run, m := Runs.Then(Apply, Init(cpus), run, m, a);
    }

    /** submit_to: the inbox's send. */
    method SubmitTo(target: Cpu, id: Id)
      requires target < |inboxes|
      modifies this`inboxes
      ensures inboxes == old(inboxes)[target := old(inboxes)[target] + [id]]
    {
      inboxes := inboxes[target := inboxes[target] + [id]];
    }

    method PickNext(r: Cpu)
      requires r < |active| && r < |readyQueue| && readyQueue[r] != []
      modifies this`active, this`readyQueue
      ensures active == old(active)[r := old(readyQueue)[r][0]]
      ensures readyQueue == old(readyQueue)[r := old(readyQueue)[r][1..]]
    {
      active := active[r := readyQueue[r][0]];
      readyQueue := readyQueue[r := readyQueue[r][1..]];
    }

    /** run_at, first half: the message is sent, its pointer may travel at once. */
    method SubmitRunAt(r: Cpu, target: Cpu) returns (id: Id)
      requires Valid() && Enabled(m, SubmitCall(r, target))
      modifies this
      ensures Valid() && run == old(run) + [SubmitCall(r, target)]
      ensures id == |old(letters)| && letters == old(letters) + [Letter(r, false, 0, None, old(active)[r])]
      ensures target < |old(inboxes)| && inboxes == old(inboxes)[target := old(inboxes)[target] + [id]]
      ensures m.msgs == old(m).msgs + [Msg(r, target, old(active)[r], false, None, AtTarget)]
      ensures active == old(active) && readyQueue == old(readyQueue) && waitQueue == old(waitQueue) && running == old(running)
      ensures m.fibers == old(m).fibers[old(active)[r] := old(m).fibers[old(active)[r]].(call := Submitted(id))]
    {
      Do(SubmitCall(r, target));
      id := |letters|;
      letters := letters + [Letter(r, false, 0, None, active[r])];
      SubmitTo(target, id);
    }

    /** run_at, second half: scheduler_->suspend. */
    method SuspendRunAt(r: Cpu)
      requires Valid() && Enabled(m, SuspendCall(r))
      modifies this
      ensures Valid() && run == old(run) + [SuspendCall(r)]
      ensures r < |old(waitQueue)| && old(active)[r] !in old(waitQueue)[r] && old(readyQueue)[r] != []
      ensures waitQueue == old(waitQueue)[r := old(waitQueue)[r] + [old(active)[r]]]
      ensures active == old(active)[r := old(readyQueue)[r][0]]
      ensures readyQueue == old(readyQueue)[r := old(readyQueue)[r][1..]]
      ensures inboxes == old(inboxes) && letters == old(letters) && running == old(running)
    {
      AlwaysInv(cpus, run);
      SuspendShape(m, r);
      Do(SuspendCall(r));
      waitQueue := waitQueue[r := waitQueue[r] + [active[r]]];
      PickNext(r);
    }

    /** run_at, resumed with its own message: the result, or the exception, that processing it left. */
    method ReturnRunAt(r: Cpu, msg: Id) returns (o: Outcome)
      requires Valid() && Enabled(m, ReturnCall(r)) && msg == Now(m, r).call.id
      modifies this`run, this`m
      ensures Valid() && run == old(run) + [ReturnCall(r)]
      ensures m == old(m).(fibers := old(m).fibers[active[r] := old(m).fibers[active[r]].(call := NoCall)],
                           returned := old(m).returned + [Answer(msg, o)])
      ensures msg in m.processed && msg in m.finished && msg < |m.msgs| && m.msgs[msg].outcome == Some(o)
    {
      AlwaysInv(cpus, run);
      assert FiberInv(m, m.active[r]) && MsgInv(m, msg);
      o := ResultOf(letters[msg]);
      Do(ReturnCall(r));
    }

    /** finish() on the origin: Scheduler::resume of the caller. */
    method Finish(r: Cpu, id: Id)
      requires id < |letters| && r < |waitQueue| && r < |readyQueue|
      modifies this`waitQueue, this`readyQueue
      ensures waitQueue == old(waitQueue)[r := Remove(old(waitQueue)[r], letters[id].context)]
      ensures readyQueue == old(readyQueue)[r := old(readyQueue)[r] + [letters[id].context]]
    {
      var c := letters[id].context;
      waitQueue := waitQueue[r := Remove(waitQueue[r], c)];
      readyQueue := readyQueue[r := readyQueue[r] + [c]];
    }

    lemma ReceiveFacts(r: Cpu)
      requires Valid() && Enabled(m, Receive(r))
      ensures var id := m.inbox[r][0]; var m' := Apply(m, Receive(r));
        && id < |letters| == |m'.msgs| && letters[id].ret == m.msgs[id].ret && LoopActive(m', r)
        && m'.inbox == m.inbox[r := m.inbox[r][1..]] && m'.active == m.active && m'.running == m.running
        && (forall i :: 0 <= i < |letters| ==> Matches(letters[i], m'.msgs[i]))
        && (if letters[id].ret then
              && letters[id].context in m.wait[r] && id in m'.finished && |m'.fibers| == |m.fibers|
              && m'.wait == m.wait[r := Remove(m.wait[r], letters[id].context)]
              && m'.ready == m.ready[r := m.ready[r] + [letters[id].context]]
            else
              && m'.msgs[id].place == Serving(|m.fibers|) && |m'.fibers| == |m.fibers| + 1
              && m'.wait == m.wait && m'.ready == m.ready[r := m.ready[r] + [|m.fibers|]])
    {
      AlwaysInv(cpus, run);
      if m.msgs[m.inbox[r][0]].ret { CallerIsLinked(m, r); }
    }

    /** process_fn on the front message of the inbox. */
    method ReceiveOne(r: Cpu)
      requires Valid() && Enabled(m, Receive(r))
      modifies this
      ensures Valid() && run == old(run) + [Receive(r)] && m == Apply(old(m), Receive(r)) && LoopActive(m, r)
      ensures inboxes == old(inboxes)[r := old(inboxes)[r][1..]] && letters == old(letters)
      ensures var id := old(inboxes)[r][0];
        if letters[id].ret then
          && letters[id].context in old(waitQueue)[r] && id in m.finished && fiberCount == old(fiberCount)
          && waitQueue == old(waitQueue)[r := Remove(old(waitQueue)[r], letters[id].context)]
          && readyQueue == old(readyQueue)[r := old(readyQueue)[r] + [letters[id].context]]
        else
          && id < |m.msgs| && m.msgs[id].place == Serving(old(fiberCount)) && fiberCount == old(fiberCount) + 1
          && waitQueue == old(waitQueue) && readyQueue == old(readyQueue)[r := old(readyQueue)[r] + [old(fiberCount)]]
      ensures active == old(active) && running == old(running)
    {
      ReceiveFacts(r);
      Do(Receive(r));
      var id := inboxes[r][0];
      inboxes := inboxes[r := inboxes[r][1..]];
      if letters[id].ret {
        Finish(r, id);
      } else {
        readyQueue := readyQueue[r := readyQueue[r] + [fiberCount]];
        fiberCount := fiberCount + 1;
      }
    }

    /** Anything the other reactors may do before the event loop of r goes on. */
    method Interfere(r: Cpu)
      requires Valid()
      modifies this
      ensures Valid() && old(run) <= run && forall k :: |old(run)| <= k < |run| ==> Foreign(r, run[k])
    {
    }

    method Preempt(r: Cpu, ghost s: State, ghost count: nat)
      requires Valid() && Midway(s, m, r, count)
      modifies this
      ensures Valid() && old(run) <= run && forall k :: |old(run)| <= k < |run| ==> Foreign(r, run[k])
      ensures Midway(s, m, r, count) && Takes(run, r) == old(Takes(run, r))
    {
      AlwaysInv(cpus, run);
      Interfere(r);
      ghost var more := run[|old(run)|..];
      assert run == old(run) + more;
      Runs.Split(Apply, Init(cpus), old(run), more);
      ForeignStepsKeepMidway(s, old(m), more, r, count);
      ForeignTakesNothing(old(run), more, r);
    }

    lemma OneMore(r: Cpu, s: State, count: nat)
      requires Valid() && Midway(s, m, r, count) && count < |s.inbox[r]|
      ensures Enabled(m, Receive(r)) && Midway(s, Apply(m, Receive(r)), r, count + 1)
      ensures Takes(run + [Receive(r)], r) == Takes(run, r) + 1
    {
      AlwaysInv(cpus, run);
      ReceiveKeepsMidway(s, m, r, count);
      assert (run + [Receive(r)])[..|run|] == run;
    }

    /** One turn of the loop in get_all. */
    method TakeOne(r: Cpu, ghost s: State, ghost count: nat)
      requires Valid() && Midway(s, m, r, count) && count < |s.inbox[r]|
      modifies this
      ensures Valid() && Midway(s, m, r, count + 1) && Takes(run, r) == old(Takes(run, r)) + 1
      ensures old(run) <= run && forall k :: |old(run)| <= k < |run| ==> run[k] == Receive(r) || Foreign(r, run[k])
    {
      Preempt(r, s, count);
      OneMore(r, s, count);
      ReceiveOne(r);
    }

    /** receive_all: every message that was there, in inbox order, and none of those that the other reactors
        send meanwhile. */
    method ReceiveAll(r: Cpu) returns (count: nat)
      requires Valid() && LoopActive(m, r)
      modifies this
      ensures Valid() && count == |old(inboxes[r])| && Midway(old(m), m, r, count)
      ensures Takes(run, r) == old(Takes(run, r)) + count
      ensures old(run) <= run && forall k :: |old(run)| <= k < |run| ==> run[k] == Receive(r) || Foreign(r, run[k])
    {
      AlwaysInv(cpus, run);
      MidwayStart(m, r);
      var available := |inboxes[r]|;
      count := 0;
      while count < available
        invariant Valid() && count <= available && Midway(old(m), m, r, count)
        invariant Takes(run, r) == old(Takes(run, r)) + count
        invariant old(run) <= run && forall k :: |old(run)| <= k < |run| ==> run[k] == Receive(r) || Foreign(r, run[k])
      {
        TakeOne(r, old(m), count);
        count := count + 1;
      }
    }

    lemma ProcessFacts(r: Cpu, id: Id)
      requires Valid() && InUserCode(m, r) && Now(m, r).serving == Some(id) && id < |m.msgs|
      ensures id !in m.processed && !letters[id].ret
    {
      AlwaysInv(cpus, run);
      assert FiberInv(m, m.active[r]) && MsgInv(m, id);
    }

    /** process(): the task's result or exception is kept in the message. */
    method Process(r: Cpu, id: Id, task: Outcome)
      requires Valid() && Enabled(m, EndProcess(r, task)) && Now(m, r).serving == Some(id)
      modifies this`letters, this`run, this`m
      ensures Valid() && run == old(run) + [EndProcess(r, task)]
      ensures id < |letters| == |old(letters)| && letters == old(letters)[id := letters[id]]
      ensures letters[id].ret && ResultOf(letters[id]) == task
      ensures letters[id].cpu == old(letters)[id].cpu && letters[id].context == old(letters)[id].context
      ensures id !in old(m).processed && m.processed == old(m).processed + [id]
    {
      ProcessFacts(r, id);
      Do(EndProcess(r, task));
      var msg := letters[id];
      match task {
        case Value(v) => msg := msg.(result := v);
        case Exception(e) => msg := msg.(exception := Some(e));
      }
      letters := letters[id := msg.(ret := true)];
    }

    /** The serving fiber returns the message to where it came from. */
    method SendBack(r: Cpu, id: Id)
      requires Valid() && Enabled(m, Reply(r)) && Now(m, r).serving == Some(id)
      modifies this`inboxes, this`run, this`m
      ensures Valid() && run == old(run) + [Reply(r)] && letters == old(letters)
      ensures id < |letters| && letters[id].cpu < |old(inboxes)|
      ensures inboxes == old(inboxes)[letters[id].cpu := old(inboxes)[letters[id].cpu] + [id]]
    {
      Do(Reply(r));
      SubmitTo(letters[id].cpu, id);
    }

    /** The end of a round of the event loop. */
    method YieldLoop(r: Cpu)
      requires Valid() && LoopActive(m, r)
      modifies this
      ensures Valid() && run == old(run) + [Yield(r)]
      ensures r < |old(readyQueue)| && active == old(active)[r := (old(readyQueue)[r] + [r])[0]]
      ensures readyQueue == old(readyQueue)[r := (old(readyQueue)[r] + [r])[1..]]
      ensures waitQueue == old(waitQueue) && inboxes == old(inboxes) && letters == old(letters) && running == old(running)
    {
      AlwaysInv(cpus, run);
      assert FiberInv(m, m.active[r]);
      LeaveShape(m, r, Now(m, r).(loc := InReady));
      Do(Yield(r));
      readyQueue := readyQueue[r := readyQueue[r] + [active[r]]];
      PickNext(r);
    }

    /** A fiber's function returns. */
    method EndFiber(r: Cpu)
      requires Valid() && Enabled(m, End(r))
      modifies this
      ensures Valid() && run == old(run) + [End(r)]
      ensures r < |old(readyQueue)| && old(readyQueue)[r] != [] && active == old(active)[r := old(readyQueue)[r][0]]
      ensures readyQueue == old(readyQueue)[r := old(readyQueue)[r][1..]] && waitQueue == old(waitQueue)
      ensures inboxes == old(inboxes) && letters == old(letters) && running == old(running)
    {
      AlwaysInv(cpus, run);
      LeaveShape(m, r, Now(m, r).(loc := Ended));
      Do(End(r));
      PickNext(r);
    }

    method StopReactor(r: Cpu)
      requires Valid() && r < |running|
      modifies this
      ensures Valid() && run == old(run) + [Stop(r)] && running == old(running)[r := false]
      ensures active == old(active) && readyQueue == old(readyQueue) && waitQueue == old(waitQueue)
      ensures inboxes == old(inboxes) && letters == old(letters)
    {
      Do(Stop(r));
      running := running[r := false];
    }
  }
}
