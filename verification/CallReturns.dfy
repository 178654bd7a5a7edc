/** Which cross-reactor calls return. A call made on behalf of another one is nested in it: the outer
    message is served by the fiber that waits for the inner one. A call can be led to its return exactly when
    the chain of calls nested in it does not end with a message in the inbox of a reactor that has ended. */
module CallReturns {
  import opened Options
  import opened Lists
  import opened RunAt
  import Runs

  /** The call of message i has returned. */
  ghost predicate Back(s: State, i: Id) {
    exists k :: 0 <= k < |s.returned| && s.returned[k].id == i
  }

  /** Message i is served by a fiber that is itself inside a later call. */
  predicate Nests(s: State, i: Id) {
    && i < |s.msgs| && s.msgs[i].place.Serving? && s.msgs[i].place.f < |s.fibers|
    && var c := s.fibers[s.msgs[i].place.f].call; c != NoCall && i < c.id < |s.msgs|
  }

  function Inner(s: State, i: Id): Id
    requires Nests(s, i)
  {
    s.fibers[s.msgs[i].place.f].call.id
  }

  /** The chain of calls nested in i ends with a stranded message. */
  ghost predicate Doomed(s: State, i: Id)
    decreases if i < |s.msgs| then |s.msgs| - i else 0
  {
    Stranded(s, i) || (Nests(s, i) && Doomed(s, Inner(s, i)))
  }

  // ---- calls are nested in the order of their messages

  ghost predicate NestedFiber(s: State, f: Fiber)
    requires f < |s.fibers|
  {
    var p := s.fibers[f];
    p.call != NoCall && p.serving.Some? ==>
      p.serving.value < p.call.id && p.serving.value < |s.msgs| && !s.msgs[p.serving.value].ret
  }

  /** A finished call is back, or its caller has been resumed. */
  ghost predicate ComesBack(s: State, i: Id)
    requires i < |s.msgs|
  {
    var m := s.msgs[i];
    m.place == Done && !Back(s, i) ==> m.caller < |s.fibers| && s.fibers[m.caller].call == Resumed(i)
  }

  ghost predicate Nested(s: State) {
    && Inv(s)
    && (forall f: Fiber :: f < |s.fibers| ==> NestedFiber(s, f))
    && (forall i: Id :: i < |s.msgs| ==> ComesBack(s, i))
  }

  lemma SwitchKeepsNested(s: State, a: Step)
    requires Nested(s) && Enabled(s, a) && IsSwitch(a)
    ensures Nested(Apply(s, a))
  {
    var s' := Apply(s, a);
    StepKeepsInv(s, a);
    SwitchEffect(s, a);
    forall f: Fiber | f < |s'.fibers| ensures NestedFiber(s', f) { assert NestedFiber(s, f); }
    forall i: Id | i < |s'.msgs| ensures ComesBack(s', i) { assert ComesBack(s, i); }
  }

  lemma SubmitKeepsNested(s: State, a: Step)
    requires Nested(s) && Enabled(s, a) && a.SubmitCall?
    ensures Nested(Apply(s, a))
  {
    var s' := Apply(s, a);
    StepKeepsInv(s, a);
    assert FiberInv(s, s.active[a.r]);
    forall f: Fiber | f < |s'.fibers| ensures NestedFiber(s', f) { assert NestedFiber(s, f); }
    forall i: Id | i < |s'.msgs| ensures ComesBack(s', i) { assert i < |s.msgs| ==> ComesBack(s, i); }
  }

  lemma ReturnKeepsNested(s: State, a: Step)
    requires Nested(s) && Enabled(s, a) && a.ReturnCall?
    ensures Nested(Apply(s, a))
  {
    var s' := Apply(s, a);
    var id := Now(s, a.r).call.id;
    StepKeepsInv(s, a);
    forall f: Fiber | f < |s'.fibers| ensures NestedFiber(s', f) { assert NestedFiber(s, f); }
    assert s'.returned[|s.returned|].id == id;
    forall i: Id | i < |s'.msgs| ensures ComesBack(s', i) {
      assert ComesBack(s, i);
      if Back(s, i) { BackStays(s, s', i); }
    }
  }

  lemma BackStays(s: State, s': State, i: Id)
    requires Back(s, i) && s.returned <= s'.returned
    ensures Back(s', i)
  {
    var k :| 0 <= k < |s.returned| && s.returned[k].id == i;
    assert s'.returned[k].id == i;
  }

  lemma EndProcessKeepsNested(s: State, a: Step)
    requires Nested(s) && Enabled(s, a) && a.EndProcess?
    ensures Nested(Apply(s, a))
  {
    var s' := Apply(s, a);
    StepKeepsInv(s, a);
    assert FiberInv(s, s.active[a.r]);
    forall f: Fiber | f < |s'.fibers| ensures NestedFiber(s', f) { assert NestedFiber(s, f) && FiberInv(s, f); }
    forall i: Id | i < |s'.msgs| ensures ComesBack(s', i) { assert ComesBack(s, i); }
  }

  lemma ReplyKeepsNested(s: State, a: Step)
    requires Nested(s) && Enabled(s, a) && a.Reply?
    ensures Nested(Apply(s, a))
  {
    var s' := Apply(s, a);
    StepKeepsInv(s, a);
    forall f: Fiber | f < |s'.fibers| ensures NestedFiber(s', f) { assert NestedFiber(s, f); }
    forall i: Id | i < |s'.msgs| ensures ComesBack(s', i) { assert ComesBack(s, i); }
  }

  lemma ReceiveKeepsNested(s: State, a: Step)
    requires Nested(s) && Enabled(s, a) && a.Receive?
    ensures Nested(Apply(s, a))
  {
    var s' := Apply(s, a);
    StepKeepsInv(s, a);
    if s.msgs[s.inbox[a.r][0]].ret { FinishShape(s, a.r); }
    forall f: Fiber | f < |s'.fibers| ensures NestedFiber(s', f) { assert f < |s.fibers| ==> NestedFiber(s, f); }
    forall i: Id | i < |s'.msgs| ensures ComesBack(s', i) { assert ComesBack(s, i); }
  }

  lemma StepKeepsNested(s: State, a: Step)
    requires Nested(s)
    ensures Nested(Apply(s, a))
  {
    if Enabled(s, a) {
      match a
      case SubmitCall(_, _) => SubmitKeepsNested(s, a);
      case ReturnCall(_) => ReturnKeepsNested(s, a);
      case EndProcess(_, _) => EndProcessKeepsNested(s, a);
      case Reply(_) => ReplyKeepsNested(s, a);
      case Receive(_) => ReceiveKeepsNested(s, a);
      case _ => if IsSwitch(a) { SwitchKeepsNested(s, a); } else { QuietKeepsNested(s, a); }
    }
  }

  /** Spawn, Unblock, Stop and Exit. */
  lemma QuietKeepsNested(s: State, a: Step)
    requires Nested(s) && Enabled(s, a) && (a.Spawn? || a.Unblock? || a.Stop? || a.Exit?)
    ensures Nested(Apply(s, a))
  {
    var s' := Apply(s, a);
    StepKeepsInv(s, a);
    forall f: Fiber | f < |s'.fibers| ensures NestedFiber(s', f) { assert f < |s.fibers| ==> NestedFiber(s, f); }
    forall i: Id | i < |s'.msgs| ensures ComesBack(s', i) { assert ComesBack(s, i); }
  }

  lemma AlwaysNested(n: nat, run: seq<Step>)
    ensures Nested(Runs.Exec(Apply, Init(n), run))
  {
    AlwaysInv(n, []);
    forall s: State, a: Step | Nested(s) ensures Nested(Apply(s, a)) { StepKeepsNested(s, a); }
    Runs.Invariant(Apply, Nested, Init(n), run);
  }

  // ---- a doomed call never returns

  /** The nesting lasts until the inner call is finished. */
  lemma NestStays(s: State, a: Step, i: Id)
    requires Nested(s) && Nests(s, i) && s.msgs[Inner(s, i)].place != Done
    ensures var s' := Apply(s, a); Nests(s', i) && Inner(s', i) == Inner(s, i)
  {
    if Enabled(s, a) {
      var f := s.msgs[i].place.f;
      assert MsgInv(s, i) && FiberInv(s, f) && NestedFiber(s, f);
      if IsSwitch(a) { SwitchEffect(s, a); }
      else if a.Receive? { ReceiveKeepsNest(s, a, i); }
    }
  }

  lemma ReceiveKeepsNest(s: State, a: Step, i: Id)
    requires Nested(s) && Nests(s, i) && Enabled(s, a) && a.Receive?
    ensures var s' := Apply(s, a); Nests(s', i) && Inner(s', i) == Inner(s, i)
  {
    Front(s.inbox[a.r]);
    assert InboxInv(s, a.r) && MsgInv(s, i);
    if s.msgs[s.inbox[a.r][0]].ret { FinishShape(s, a.r); }
  }

  lemma {:induction false} StepKeepsDoomed(s: State, a: Step, i: Id)
    requires Nested(s) && Doomed(s, i)
    ensures Doomed(Apply(s, a), i)
    decreases |s.msgs| - i
  {
    if Stranded(s, i) {
      StrandedStays(s, a, i);
    } else {
      var j := Inner(s, i);
      StepKeepsDoomed(s, a, j);
      NestStays(s, a, i);
    }
  }

  lemma DoomedIsNotBack(s: State, i: Id)
    requires Inv(s) && Doomed(s, i)
    ensures !Back(s, i)
  {
    forall k | 0 <= k < |s.returned| ensures s.returned[k].id != i { assert RunAt.Returned(s, s.returned[k]); }
  }

  /** Whatever happens next, a doomed call does not return. */
  lemma DoomedNeverReturns(n: nat, run: seq<Step>, more: seq<Step>, i: Id)
    requires Doomed(Runs.Exec(Apply, Init(n), run), i)
    ensures var s' := Runs.Exec(Apply, Init(n), run + more); Doomed(s', i) && !Back(s', i)
  {
    AlwaysNested(n, run);
    Runs.Split(Apply, Init(n), run, more);
    var kept := (t: State) => Nested(t) && Doomed(t, i);
    forall t: State, a: Step | kept(t) ensures kept(Apply(t, a)) {
      StepKeepsNested(t, a);
      StepKeepsDoomed(t, a, i);
    }
    Runs.Invariant(Apply, kept, Runs.Exec(Apply, Init(n), run), more);
    DoomedIsNotBack(Runs.Exec(Apply, Init(n), run + more), i);
  }

  // ---- a call that is not doomed can be led to its return

  /** Steps that make no call and end no reactor. They may make fresh fibers and unblock blocked ones. */
  predicate Helpful(a: Step) {
    a.Spawn? || a.Yield? || a.Unblock? || a.SuspendCall? || a.ReturnCall? || a.Receive? || a.EndProcess? || a.Reply?
  }

  predicate AllHelpful(steps: seq<Step>) {
    forall k :: 0 <= k < |steps| ==> Helpful(steps[k])
  }

  /** A helpful step nests nothing that was not nested before. */
  lemma NestBefore(s: State, a: Step, i: Id)
    requires Nested(s) && Helpful(a) && i < |s.msgs| && Nests(Apply(s, a), i)
    ensures Nests(s, i) && Inner(s, i) == Inner(Apply(s, a), i)
  {
    if Enabled(s, a) {
      assert MsgInv(s, i);
      if IsSwitch(a) { SwitchEffect(s, a); }
      else if a.Receive? && s.msgs[s.inbox[a.r][0]].ret { FinishShape(s, a.r); }
    }
  }

  lemma StrandedBefore(s: State, a: Step, i: Id)
    requires Nested(s) && Helpful(a) && i < |s.msgs| && Stranded(Apply(s, a), i)
    ensures Stranded(s, i)
  {
    if Enabled(s, a) {
      if IsSwitch(a) { SwitchEffect(s, a); }
      else if a.Receive? && s.msgs[s.inbox[a.r][0]].ret { FinishShape(s, a.r); }
    }
  }

  lemma MessagesStay(s: State, a: Step)
    requires Inv(s) && Helpful(a)
    ensures |Apply(s, a).msgs| == |s.msgs|
  {
    if Enabled(s, a) && IsSwitch(a) { SwitchEffect(s, a); }
  }

  lemma {:induction false} DoomedBefore(s: State, a: Step, i: Id)
    requires Nested(s) && Helpful(a) && i < |s.msgs| && Doomed(Apply(s, a), i)
    ensures Doomed(s, i)
    decreases |s.msgs| - i
  {
    MessagesStay(s, a);
    if Stranded(Apply(s, a), i) {
      StrandedBefore(s, a, i);
    } else {
      NestBefore(s, a, i);
      DoomedBefore(s, a, Inner(s, i));
    }
  }

  // ---- the way a message still has to go

  ghost function Stage(s: State, i: Id): nat
    requires i < |s.msgs|
  {
    var m := s.msgs[i];
    (match m.place
     case AtTarget => 4
     case Serving(_) => if m.ret then 2 else 3
     case AtOrigin => 1
     case Done => 0)
    + (if m.caller < |s.fibers| && s.fibers[m.caller].call == Submitted(i) then 1 else 0)
    + (if Back(s, i) then 0 else 1)
  }

  ghost function Ahead(s: State, k: nat): nat
    requires k <= |s.msgs|
  {
    if k == 0 then 0 else Ahead(s, k - 1) + Stage(s, k - 1)
  }

  ghost function Rest(s: State): nat {
    Ahead(s, |s.msgs|)
  }

  lemma {:induction false} AheadDrops(s: State, s': State, k: nat, i: Id)
    requires k <= |s.msgs| == |s'.msgs| && i < |s.msgs| && Stage(s', i) < Stage(s, i)
    requires forall j: Id :: j < |s.msgs| ==> Stage(s', j) <= Stage(s, j)
    ensures Ahead(s', k) <= Ahead(s, k) && (i < k ==> Ahead(s', k) < Ahead(s, k))
  {
    if k > 0 { AheadDrops(s, s', k - 1, i); }
  }

  lemma SuspendDrops(s: State, r: Cpu)
    requires Nested(s) && Enabled(s, SuspendCall(r))
    ensures Rest(Apply(s, SuspendCall(r))) < Rest(s)
  {
    var s' := Apply(s, SuspendCall(r));
    SwitchEffect(s, SuspendCall(r));
    assert FiberInv(s, s.active[r]);
    forall j: Id | j < |s.msgs| ensures Stage(s', j) <= Stage(s, j) { BackSame(s, s', j); assert MsgInv(s, j); }
    AheadDrops(s, s', |s.msgs|, Now(s, r).call.id);
  }

  lemma BackSame(s: State, s': State, i: Id)
    requires s'.returned == s.returned
    ensures Back(s', i) <==> Back(s, i)
  {
  }

  lemma ReturnDrops(s: State, r: Cpu)
    requires Nested(s) && Enabled(s, ReturnCall(r))
    ensures Rest(Apply(s, ReturnCall(r))) < Rest(s) && Back(Apply(s, ReturnCall(r)), Now(s, r).call.id)
  {
    var s' := Apply(s, ReturnCall(r));
    var id := Now(s, r).call.id;
    assert FiberInv(s, s.active[r]);
    assert s'.returned[|s.returned|].id == id;
    forall j: Id | j < |s.msgs| ensures Stage(s', j) <= Stage(s, j) { if Back(s, j) { BackStays(s, s', j); } }
    AheadDrops(s, s', |s.msgs|, id);
  }

  lemma EndProcessDrops(s: State, r: Cpu, o: Outcome)
    requires Nested(s) && Enabled(s, EndProcess(r, o))
    ensures Rest(Apply(s, EndProcess(r, o))) < Rest(s)
  {
    var s' := Apply(s, EndProcess(r, o));
    assert FiberInv(s, s.active[r]);
    forall j: Id | j < |s.msgs| ensures Stage(s', j) <= Stage(s, j) { BackSame(s, s', j); }
    AheadDrops(s, s', |s.msgs|, Now(s, r).serving.value);
  }

  lemma ReplyDrops(s: State, r: Cpu)
    requires Nested(s) && Enabled(s, Reply(r))
    ensures Rest(Apply(s, Reply(r))) < Rest(s)
  {
    var s' := Apply(s, Reply(r));
    assert FiberInv(s, s.active[r]);
    forall j: Id | j < |s.msgs| ensures Stage(s', j) <= Stage(s, j) { BackSame(s, s', j); }
    AheadDrops(s, s', |s.msgs|, Now(s, r).serving.value);
  }

  lemma ReceiveDrops(s: State, r: Cpu)
    requires Nested(s) && Enabled(s, Receive(r))
    ensures Rest(Apply(s, Receive(r))) < Rest(s)
  {
    var s' := Apply(s, Receive(r));
    var id := s.inbox[r][0];
    Front(s.inbox[r]);
    assert InboxInv(s, r) && MsgInv(s, id);
    if s.msgs[id].ret { FinishShape(s, r); }
    forall j: Id | j < |s.msgs| ensures Stage(s', j) <= Stage(s, j) { BackSame(s, s', j); assert MsgInv(s, j); }
    AheadDrops(s, s', |s.msgs|, id);
  }

  // ---- leading a call: helpful steps until some message has moved on

  /** `steps` is a helpful run from s0 to s, where call i is not doomed. */
  ghost predicate Leads(s0: State, steps: seq<Step>, s: State, i: Id) {
    && Runs.Reached(Apply, s0, steps, s) && AllHelpful(steps)
    && Nested(s) && i < |s.msgs| && !Doomed(s, i)
  }

  lemma Help(s0: State, steps: seq<Step>, s: State, i: Id, a: Step) returns (steps': seq<Step>, s': State)
    requires Leads(s0, steps, s, i) && Helpful(a)
    ensures Leads(s0, steps', s', i) && s' == Apply(s, a)
  {
    steps', s' := Runs.Then(Apply, s0, steps, s, a);
    StepKeepsNested(s, a);
    MessagesStay(s, a);
    if Doomed(s', i) { DoomedBefore(s, a, i); }
  }

  /** From s to s' fibers were at most made, switched and unblocked. */
  ghost predicate SameCalls(s: State, s': State) {
    && s'.n == s.n && s'.msgs == s.msgs && s'.returned == s.returned && s'.exited == s.exited && s'.inbox == s.inbox
    && |s.fibers| <= |s'.fibers|
    && forall f: Fiber :: f < |s.fibers| ==>
      && s'.fibers[f].home == s.fibers[f].home && s'.fibers[f].serving == s.fibers[f].serving
      && s'.fibers[f].call == s.fibers[f].call
  }

  /** And none was unblocked. */
  ghost predicate Idle(s: State, s': State) {
    SameCalls(s, s') && forall f: Fiber :: f < |s.fibers| && s.fibers[f].loc == Blocked ==> s'.fibers[f].loc == Blocked
  }

  lemma {:induction false} AheadSame(s: State, s': State, k: nat)
    requires k <= |s.msgs| == |s'.msgs| && forall j: Id :: j < |s.msgs| ==> Stage(s', j) == Stage(s, j)
    ensures Ahead(s', k) == Ahead(s, k)
  {
    if k > 0 { AheadSame(s, s', k - 1); }
  }

  lemma SameRest(s: State, s': State)
    requires Inv(s) && SameCalls(s, s')
    ensures Rest(s') == Rest(s)
  {
    forall i: Id | i < |s.msgs| ensures Stage(s', i) == Stage(s, i) { BackSame(s, s', i); assert MsgInv(s, i); }
    AheadSame(s, s', |s.msgs|);
  }

  /** The active fiber of r is the event loop or in user code, or a step moves its message on. */
  lemma Settle(s0: State, steps: seq<Step>, s: State, i: Id, r: Cpu) returns (steps': seq<Step>, s': State)
    requires Leads(s0, steps, s, i) && r < s.n && !s.exited[r]
    ensures Leads(s0, steps', s', i)
    ensures Rest(s') < Rest(s) || (s' == s && (InUserCode(s, r) || LoopActive(s, r)))
  {
    steps', s' := steps, s;
    var a := s.active[r];
    var p := s.fibers[a];
    assert QueueInv(s, r) && FiberInv(s, a);
    if p.call.Submitted? {
      SuspendDrops(s, r);
      steps', s' := Help(s0, steps, s, i, SuspendCall(r));
    } else if p.call.Resumed? {
      assert MsgInv(s, p.call.id);
      ReturnDrops(s, r);
      steps', s' := Help(s0, steps, s, i, ReturnCall(r));
    } else if Replying(s, p) {
      assert MsgInv(s, p.serving.value);
      ReplyDrops(s, r);
      steps', s' := Help(s0, steps, s, i, Reply(r));
    }
  }

  /** Yielding moves the ready queue on by one. */
  lemma YieldIsIdle(s: State, r: Cpu)
    requires Inv(s) && Enabled(s, Yield(r))
    ensures var s' := Apply(s, Yield(r)); var q := s.ready[r] + [s.active[r]];
      Idle(s, s') && s'.active == s.active[r := q[0]] && s'.ready == s.ready[r := q[1..]]
  {
    assert FiberInv(s, s.active[r]) && QueueInv(s, r);
    LeaveShape(s, r, Now(s, r).(loc := InReady));
  }

  /** A ready fiber becomes active, unless some message moves on before. */
  lemma BringUp(s0: State, steps: seq<Step>, s: State, i: Id, r: Cpu, f: Fiber, k: nat)
    returns (steps': seq<Step>, s': State)
    requires Leads(s0, steps, s, i) && r < s.n && !s.exited[r] && k < |s.ready[r]| && s.ready[r][k] == f
    ensures Leads(s0, steps', s', i)
    ensures Rest(s') < Rest(s) || (Idle(s, s') && s'.active[r] == f)
    decreases k
  {
    steps', s' := Settle(s0, steps, s, i, r);
    if Rest(s') >= Rest(s) {
      YieldIsIdle(s, r);
      steps', s' := Help(s0, steps, s, i, Yield(r));
      if k > 0 {
        var t := s';
        SameRest(s, t);
        assert t.ready[r][k - 1] == f;
        steps', s' := BringUp(s0, steps', t, i, r, f, k - 1);
      }
    }
  }

  /** User code becomes active on r. */
  lemma BringUser(s0: State, steps: seq<Step>, s: State, i: Id, r: Cpu) returns (steps': seq<Step>, s': State)
    requires Leads(s0, steps, s, i) && r < s.n && !s.exited[r]
    ensures Leads(s0, steps', s', i)
    ensures Rest(s') < Rest(s) || (Idle(s, s') && InUserCode(s', r))
  {
    steps', s' := Settle(s0, steps, s, i, r);
    if Rest(s') >= Rest(s) && !InUserCode(s, r) {
      steps', s' := Help(s0, steps, s, i, Spawn(r));
      var t, f := s', |s.fibers|;
      SameRest(s, t);
      assert t.ready[r][|s.ready[r]|] == f && t.fibers[f] == FiberState(r, InReady, None, NoCall);
      steps', s' := BringUp(s0, steps', t, i, r, f, |s.ready[r]|);
    }
  }

  /** A fiber outside the wait queue becomes active; if it is blocked, other user code unblocks it. */
  lemma Awaken(s0: State, steps: seq<Step>, s: State, i: Id, r: Cpu, f: Fiber)
    returns (steps': seq<Step>, s': State)
    requires Leads(s0, steps, s, i) && r < s.n && !s.exited[r]
    requires f < |s.fibers| && s.fibers[f].home == r && s.fibers[f].loc != InWait && s.fibers[f].loc != Ended
    ensures Leads(s0, steps', s', i)
    ensures Rest(s') < Rest(s) || (SameCalls(s, s') && s'.active[r] == f)
  {
    steps', s' := steps, s;
    assert FiberInv(s, f) && QueueInv(s, r);
    if s.fibers[f].loc == InReady {
      var k: nat :| k < |s.ready[r]| && s.ready[r][k] == f;
      steps', s' := BringUp(s0, steps, s, i, r, f, k);
    } else if s.fibers[f].loc == Blocked {
      steps', s' := BringUser(s0, steps, s, i, r);
      if Rest(s') >= Rest(s) {
        var t := s';
        steps', s' := Help(s0, steps', t, i, Unblock(r, f));
        assert s'.ready[r][|t.ready[r]|] == f;
        SameRest(s, s');
        steps', s' := BringUp(s0, steps', s', i, r, f, |t.ready[r]|);
      }
    }
  }

  // ---- and such a message exists

  /** The last message of the chain of nested calls. */
  lemma {:induction false} Innermost(s: State, i: Id) returns (w: Id)
    requires Nested(s) && i < |s.msgs| && !Doomed(s, i) && !Back(s, i)
    ensures w < |s.msgs| && !Stranded(s, w) && !Back(s, w) && !Nests(s, w)
    decreases |s.msgs| - i
  {
    w := i;
    if Nests(s, i) {
      assert FiberInv(s, s.msgs[i].place.f);
      w := Innermost(s, Inner(s, i));
    }
  }

  /** The fiber that has to act next for a message that nothing is nested in, and where. */
  function Actor(s: State, w: Id): Fiber
    requires w < |s.msgs|
  {
    var m := s.msgs[w];
    match m.place
    case AtTarget => m.target
    case Serving(f) => f
    case AtOrigin => m.origin
    case Done => m.caller
  }

  lemma ActorCanRun(s: State, w: Id)
    requires Nested(s) && w < |s.msgs| && !Stranded(s, w) && !Back(s, w) && !Nests(s, w)
    ensures var f := Actor(s, w);
      && f < |s.fibers| && s.fibers[f].home < s.n && !s.exited[s.fibers[f].home]
      && s.fibers[f].loc != InWait && s.fibers[f].loc != Ended
      && (s.msgs[w].place.Serving? ==> f >= s.n && s.fibers[f].call == NoCall && s.fibers[f].serving == Some(w))
      && (s.msgs[w].place == Done ==> s.fibers[f].call == Resumed(w))
  {
    var f := Actor(s, w);
    assert MsgInv(s, w) && ComesBack(s, w);
    assert FiberInv(s, f) && NestedFiber(s, f) && QueueInv(s, s.fibers[f].home);
    if s.msgs[w].place == AtOrigin { assert FiberInv(s, s.msgs[w].caller); }
  }

  /** Its step, once it runs. */
  function NextStep(s: State, w: Id, r: Cpu): Step
    requires w < |s.msgs|
  {
    match s.msgs[w].place
    case AtTarget => Receive(r)
    case Serving(_) => if s.msgs[w].ret then Reply(r) else EndProcess(r, Value(0))
    case AtOrigin => Receive(r)
    case Done => ReturnCall(r)
  }

  lemma NextStepDrops(s: State, w: Id, r: Cpu)
    requires Nested(s) && w < |s.msgs| && r < s.n && !s.exited[r] && s.active[r] == Actor(s, w)
    requires s.fibers[s.active[r]].home == r
    requires s.msgs[w].place.Serving? ==> s.active[r] >= s.n && Now(s, r).call == NoCall && Now(s, r).serving == Some(w)
    requires s.msgs[w].place == Done ==> Now(s, r).call == Resumed(w)
    ensures Rest(Apply(s, NextStep(s, w, r))) < Rest(s)
  {
    assert MsgInv(s, w) && FiberInv(s, s.active[r]) && InboxInv(s, r);
    match s.msgs[w].place
    case AtTarget => Front(s.inbox[r]); ReceiveDrops(s, r);
    case Serving(_) => if s.msgs[w].ret { ReplyDrops(s, r); } else { EndProcessDrops(s, r, Value(0)); }
    case AtOrigin => Front(s.inbox[r]); ReceiveDrops(s, r);
    case Done => ReturnDrops(s, r);
  }

  /** While a call that is not doomed has not returned, helpful steps move some message on. */
  lemma Progress(s0: State, steps: seq<Step>, s: State, i: Id) returns (steps': seq<Step>, s': State)
    requires Leads(s0, steps, s, i) && !Back(s, i)
    ensures Leads(s0, steps', s', i) && Rest(s') < Rest(s)
  {
    var w := Innermost(s, i);
    ActorCanRun(s, w);
    var f := Actor(s, w);
    var r := s.fibers[f].home;
    steps', s' := Awaken(s0, steps, s, i, r, f);
    if Rest(s') >= Rest(s) {
      SameRest(s, s');
      NextStepDrops(s', w, r);
      steps', s' := Help(s0, steps', s', i, NextStep(s', w, r));
    }
  }

  lemma {:induction false} LeadHome(s0: State, steps: seq<Step>, s: State, i: Id) returns (steps': seq<Step>, s': State)
    requires Leads(s0, steps, s, i)
    ensures Leads(s0, steps', s', i) && Back(s', i)
    decreases Rest(s)
  {
    steps', s' := steps, s;
    if !Back(s, i) {
      steps', s' := Progress(s0, steps, s, i);
      steps', s' := LeadHome(s0, steps', s', i);
    }
  }

  /** What is back was processed and finished, once each; see OnceEach. */
  lemma BackIsFinished(s: State, i: Id)
    requires Inv(s) && Back(s, i)
    ensures i in s.processed && i in s.finished && Distinct(s.processed) && Distinct(s.finished)
  {
    var k :| 0 <= k < |s.returned| && s.returned[k].id == i;
    assert RunAt.Returned(s, s.returned[k]) && MsgInv(s, i);
  }

  /** From every reachable state a call that is not doomed can be led to its return, processed and finished
      exactly once, without a new call and without ending a reactor. */
  lemma LiveCallCanReturn(n: nat, run: seq<Step>, i: Id) returns (more: seq<Step>)
    requires i < |Runs.Exec(Apply, Init(n), run).msgs| && !Doomed(Runs.Exec(Apply, Init(n), run), i)
    ensures AllHelpful(more)
    ensures var s' := Runs.Exec(Apply, Init(n), run + more);
      Back(s', i) && i in s'.processed && i in s'.finished && Distinct(s'.processed) && Distinct(s'.finished)
  {
    AlwaysNested(n, run);
    var s := Runs.Exec(Apply, Init(n), run);
    Runs.Start(Apply, s);
    var s': State;
    more, s' := LeadHome(s, [], s, i);
    assert Runs.Exec(Apply, s, more) == s';
    Runs.Split(Apply, Init(n), run, more);
    BackIsFinished(s', i);
  }

  /** So a call can return exactly when the chain of calls nested in it does not end in the inbox of a
      reactor that has ended. */
  lemma CanReturnIff(n: nat, run: seq<Step>, i: Id)
    ensures i < |Runs.Exec(Apply, Init(n), run).msgs| ==>
      ((exists more :: Back(Runs.Exec(Apply, Init(n), run + more), i)) <==>
       !Doomed(Runs.Exec(Apply, Init(n), run), i))
  {
    var s := Runs.Exec(Apply, Init(n), run);
    if i < |s.msgs| {
      if Doomed(s, i) {
        forall more ensures !Back(Runs.Exec(Apply, Init(n), run + more), i) { DoomedNeverReturns(n, run, more, i); }
      } else {
        var more := LiveCallCanReturn(n, run, i);
      }
    }
  }

  // ---- which reactors have to be stopped for that

  lemma StepKeepsRunning(s: State, a: Step, t: Cpu)
    requires t < |s.running| && t < |s.exited| && s.running[t] && !s.exited[t] && a != Stop(t)
    ensures var s' := Apply(s, a); t < |s'.running| && t < |s'.exited| && s'.running[t] && !s'.exited[t]
  {
  }

  lemma {:induction false} NotStopped(n: nat, run: seq<Step>, t: Cpu)
    requires t < n && Stop(t) !in run
    ensures var s := Runs.Exec(Apply, Init(n), run);
      t < |s.running| && t < |s.exited| && s.running[t] && !s.exited[t]
    decreases |run|
  {
    if run != [] {
      var k := |run| - 1;
      NotStopped(n, run[..k], t);
      StepKeepsRunning(Runs.Exec(Apply, Init(n), run[..k]), run[k], t);
    }
  }

  lemma SameReactors(n: nat, run: seq<Step>)
    ensures Runs.Exec(Apply, Init(n), run).n == n
  {
    Runs.Invariant(Apply, (s: State) => s.n == n, Init(n), run);
  }

  /** Only a call to a reactor that was told to stop is ever stranded. */
  lemma StrandedWasStopped(n: nat, run: seq<Step>, i: Id)
    ensures var s := Runs.Exec(Apply, Init(n), run); Stranded(s, i) ==> Stop(s.msgs[i].target) in run
  {
    AlwaysInv(n, run);
    SameReactors(n, run);
    var s := Runs.Exec(Apply, Init(n), run);
    if Stranded(s, i) && Stop(s.msgs[i].target) !in run { NotStopped(n, run, s.msgs[i].target); }
  }

  lemma {:induction false} DoomedStrands(s: State, i: Id) returns (j: Id)
    requires Doomed(s, i)
    ensures Stranded(s, j)
    decreases if i < |s.msgs| then |s.msgs| - i else 0
  {
    if Stranded(s, i) { j := i; } else { j := DoomedStrands(s, Inner(s, i)); }
  }

  /** While no reactor is told to stop every call can be led to its return. */
  lemma UnstoppedCallsCanReturn(n: nat, run: seq<Step>, i: Id) returns (more: seq<Step>)
    requires i < |Runs.Exec(Apply, Init(n), run).msgs| && forall t :: Stop(t) !in run
    ensures Back(Runs.Exec(Apply, Init(n), run + more), i)
  {
    if Doomed(Runs.Exec(Apply, Init(n), run), i) {
      var j := DoomedStrands(Runs.Exec(Apply, Init(n), run), i);
      StrandedWasStopped(n, run, j);
    }
    more := LiveCallCanReturn(n, run, i);
  }

  /** Reactor t stops and ends. */
  lemma EndReactor(n: nat, t: Cpu) returns (run: seq<Step>, s: State)
    requires t < n
    ensures Runs.Reached(Apply, Init(n), run, s) && run == [Stop(t), Exit(t)]
    ensures s == Init(n).(running := Init(n).running[t := false], exited := Init(n).exited[t := true])
  {
    s := Init(n);
    Runs.Start(Apply, s);
    run, s := Runs.Then(Apply, Init(n), [], s, Stop(t));
    run, s := Runs.Then(Apply, Init(n), run, s, Exit(t));
  }

  /** Another reactor makes a fiber, which runs. */
  lemma StartFiber(n: nat, run: seq<Step>, s: State, r: Cpu) returns (run': seq<Step>, s': State)
    requires Runs.Reached(Apply, Init(n), run, s)
    requires r < n && s == Init(n).(running := s.running, exited := s.exited) && |s.running| == |s.exited| == n && !s.exited[r]
    ensures Runs.Reached(Apply, Init(n), run', s') && run' == run + [Spawn(r), Yield(r)]
    ensures InUserCode(s', r) && s'.msgs == [] && s'.exited == s.exited && |s'.inbox| == n
  {
    run', s' := Runs.Then(Apply, Init(n), run, s, Spawn(r));
    assert s'.ready[r] == [n] && s'.fibers[n] == FiberState(r, InReady, None, NoCall);
    run', s' := Runs.Then(Apply, Init(n), run', s', Yield(r));
  }

  /** For every target beside another reactor there is a run that strands a call to it. */
  lemma CallToEndedReactor(n: nat, t: Cpu) returns (run: seq<Step>)
    requires t < n && n >= 2
    ensures var r := if t == 0 then 1 else 0; run == [Stop(t), Exit(t), Spawn(r), Yield(r), SubmitCall(r, t)]
    ensures Stranded(Runs.Exec(Apply, Init(n), run), 0)
  {
    var r := if t == 0 then 1 else 0;
    var s: State;
    run, s := EndReactor(n, t);
    run, s := StartFiber(n, run, s, r);
    run, s := Runs.Then(Apply, Init(n), run, s, SubmitCall(r, t));
    assert s == Runs.Exec(Apply, Init(n), run);
  }

  predicate OnlyStops(run: seq<Step>, stopped: set<Cpu>) {
    forall k :: 0 <= k < |run| && run[k].Stop? ==> run[k].r in stopped
  }

  /** A run that stops no others strands a call. */
  ghost predicate Strands(n: nat, run: seq<Step>, stopped: set<Cpu>) {
    OnlyStops(run, stopped) && exists i: Id :: Stranded(Runs.Exec(Apply, Init(n), run), i)
  }

  lemma StrandsOnlyStopped(n: nat, run: seq<Step>, stopped: set<Cpu>) returns (t: Cpu)
    requires Strands(n, run, stopped)
    ensures n >= 2 && t in stopped && t < n
  {
    var s := Runs.Exec(Apply, Init(n), run);
    var i: Id :| Stranded(s, i);
    AlwaysInv(n, run);
    SameReactors(n, run);
    StrandedBesideAnother(s, i);
    StrandedWasStopped(n, run, i);
    t := s.msgs[i].target;
  }

  /** A call can be stranded exactly when one of the reactors that may be stopped exists and has another
      beside it. */
  lemma StrandsIff(n: nat, stopped: set<Cpu>)
    ensures (exists run :: Strands(n, run, stopped)) <==> n >= 2 && exists t: Cpu :: t in stopped && t < n
  {
    if run :| Strands(n, run, stopped) {
      var t := StrandsOnlyStopped(n, run, stopped);
    }
    if n >= 2 && exists t: Cpu :: t in stopped && t < n {
      var t: Cpu :| t in stopped && t < n;
      var run := CallToEndedReactor(n, t);
      assert Strands(n, run, stopped);
    }
  }

  /** A reactor does not end with a call of its own under way, so alone it strands nobody. */
  lemma StrandedBesideAnother(s: State, i: Id)
    requires Inv(s) && Stranded(s, i)
    ensures s.n >= 2 && s.msgs[i].target < s.n
  {
    assert MsgInv(s, i) && FiberInv(s, s.msgs[i].caller) && QueueInv(s, s.msgs[i].origin);
  }
}
