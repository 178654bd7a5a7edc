/** context_mpsc_queue: an intrusive linked queue, many pushers and one popper. A push breaks the list
    between its exchange of head_ and its link; the popper re-inserts a dummy node to take the last one. */
module MpscList {
  import opened Options
  import Runs

  type Node = nat

  const DUMMY: Node := 0

  datatype Pusher =
    | Idle
    | Cleared(x: Node)                          // remote_nxt_ of x is null; about to exchange head_
    | Linking(x: Node, prev: Node, k: nat)      // exchanged; about to link prev to x

  datatype Popper =
    | Away
    | AtNext(t: Node)                           // skipped the dummy; about to load t's link
    | AtHead(t: Node)                           // t's link was null; about to load head_
    | ClearDummy(t: Node)                       // t is the last node: push(dummy_) begins
    | SwapDummy(t: Node)
    | LinkDummy(t: Node, prev: Node, k: nat)
    | LastLook(t: Node)                         // about to load t's link once more

  datatype Link = Linked | By(p: nat) | ByPopper

  datatype Answer = Open | Null | Got(x: Node)

  /** `order` lists the nodes in the order of their exchanges, from the initial dummy on; tail_ is
      order[lo]. link[k] says who still has to link order[k - 1] to order[k]. `popped` logs what pop
      returned, `answer` is that of the last pop, and `seen` tells whether at some instant of that pop
      the queue was empty or a push stood between its exchange and its link. */
  datatype State = State(
    next: map<Node, Node>, head: Node, tail: Node, pushers: seq<Pusher>, popper: Popper,
    order: seq<Node>, link: seq<Link>, lo: nat, popped: seq<Node>, answer: Answer, seen: bool)

  datatype Step =
    | PushClear(p: nat, x: Node)
    | PushSwap(p: nat)
    | PushLink(p: nat)
    | PopLoad
    | PopNext
    | PopHead
    | PopClear
    | PopSwap
    | PopLink
    | PopLast

  predicate IsPush(a: Step) {
    a.PushClear? || a.PushSwap? || a.PushLink?
  }

  function Init(n: nat): State {
    State(map[], DUMMY, DUMMY, seq(n, _ => Idle), Away, [DUMMY], [Linked], 0, [], Open, false)
  }

  function Next(s: State, x: Node): Option<Node> {
    if x in s.next then Some(s.next[x]) else None
  }

  function InQueue(s: State): seq<Node> {
    if s.lo <= |s.order| then s.order[s.lo..] else []
  }

  /** Node x is not in the list. */
  ghost predicate Outside(s: State, x: Node) {
    forall k :: s.lo <= k < |s.order| ==> s.order[k] != x
  }

  /** The caller of push passes a context that is in no queue and that nobody else is pushing. */
  ghost predicate Pushable(s: State, x: Node) {
    x != DUMMY && Outside(s, x) && forall q :: 0 <= q < |s.pushers| ==> s.pushers[q] != Cleared(x)
  }

  ghost predicate Enabled(s: State, a: Step) {
    match a
    case PushClear(p, x) => p < |s.pushers| && s.pushers[p].Idle? && Pushable(s, x)
    case PushSwap(p) => p < |s.pushers| && s.pushers[p].Cleared?
    case PushLink(p) => p < |s.pushers| && s.pushers[p].Linking? && s.pushers[p].k < |s.link|
    case PopLoad => s.popper.Away?
    case PopNext => s.popper.AtNext?
    case PopHead => s.popper.AtHead?
    case PopClear => s.popper.ClearDummy?
    case PopSwap => s.popper.SwapDummy?
    case PopLink => s.popper.LinkDummy? && s.popper.k < |s.link|
    case PopLast => s.popper.LastLook?
  }

  /** The queue holds no context, or some push stands between its exchange and its link. */
  ghost predicate Blocked(s: State) {
    (s.lo == |s.order| - 1 && s.order[s.lo] == DUMMY) ||
    exists k :: s.lo < k < |s.link| && s.link[k].By?
  }

  function Null(s: State): State {
    s.(popper := Away, answer := Answer.Null)
  }

  function Return(s: State, t: Node, next: Node): State {
    s.(tail := next, lo := s.lo + 1, popped := s.popped + [t], popper := Away, answer := Got(t))
  }

  function Swap(s: State, x: Node, l: Link): State {
    s.(head := x, order := s.order + [x], link := s.link + [l])
  }

  function Move(s: State, a: Step): State
    requires match a
      case PushLink(p) => p < |s.pushers| && s.pushers[p].Linking? && s.pushers[p].k < |s.link|
      case PushClear(p, _) => p < |s.pushers|
      case PushSwap(p) => p < |s.pushers| && s.pushers[p].Cleared?
      case PopLoad => true
      case PopNext => s.popper.AtNext?
      case PopHead => s.popper.AtHead?
      case PopClear => s.popper.ClearDummy?
      case PopSwap => s.popper.SwapDummy?
      case PopLink => s.popper.LinkDummy? && s.popper.k < |s.link|
      case PopLast => s.popper.LastLook?
  {
    match a
    case PushClear(p, x) => s.(next := s.next - {x}, pushers := s.pushers[p := Cleared(x)])
    case PushSwap(p) =>
      Swap(s, s.pushers[p].x, By(p)).(pushers := s.pushers[p := Linking(s.pushers[p].x, s.head, |s.order|)])
    case PushLink(p) =>
      var w := s.pushers[p];
      s.(next := s.next[w.prev := w.x], link := s.link[w.k := Linked], pushers := s.pushers[p := Idle])
    case PopLoad =>
      var nx, o := Next(s, s.tail), s.(answer := Open);
      if s.tail == DUMMY then
        if nx == None then Null(o) else o.(tail := nx.value, lo := s.lo + 1, popper := AtNext(nx.value))
      else
        if nx == None then o.(popper := AtHead(s.tail)) else Return(o, s.tail, nx.value)
    case PopNext =>
      var t := s.popper.t;
      if Next(s, t) == None then s.(popper := AtHead(t)) else Return(s, t, Next(s, t).value)
    case PopHead =>
      var t := s.popper.t;
      if s.head != t then Null(s) else s.(popper := ClearDummy(t))
    case PopClear => s.(next := s.next - {DUMMY}, popper := SwapDummy(s.popper.t))
    case PopSwap => Swap(s, DUMMY, ByPopper).(popper := LinkDummy(s.popper.t, s.head, |s.order|))
    case PopLink =>
      var w := s.popper;
      s.(next := s.next[w.prev := DUMMY], link := s.link[w.k := Linked], popper := LastLook(w.t))
    case PopLast =>
      var t := s.popper.t;
      if Next(s, t) == None then Null(s) else Return(s, t, Next(s, t).value)
  }

  ghost function Apply(s: State, a: Step): State {
    if !Enabled(s, a) then s else
    var s' := Move(s, a);
    s'.(seen := (if a.PopLoad? then Blocked(s) else s.seen) || Blocked(s'))
  }

  // ---- the invariant

  /** Between order[k - 1] and order[k]: the link is in place, or null until its pusher writes it. */
  ghost predicate LinkAt(s: State, k: nat)
    requires 0 < k < |s.order| == |s.link|
  {
    && Next(s, s.order[k - 1]) == (if s.link[k] == Linked then Some(s.order[k]) else None)
    && match s.link[k]
      case Linked => true
      case By(p) => p < |s.pushers| && s.pushers[p] == Linking(s.order[k], s.order[k - 1], k)
      case ByPopper => s.popper.LinkDummy? && s.popper.prev == s.order[k - 1] && s.popper.k == k
  }

  ghost predicate Chain(s: State) {
    && |s.link| == |s.order| && s.lo < |s.order|
    && s.tail == s.order[s.lo] && s.head == s.order[|s.order| - 1]
    && (forall i, j :: s.lo <= i < j < |s.order| ==> s.order[i] != s.order[j])
    && (forall k :: 0 <= k <= s.lo ==> s.link[k] == Linked)
    && (forall k :: s.lo < k < |s.order| ==> LinkAt(s, k))
    && Next(s, s.order[|s.order| - 1]) == None
  }

  ghost predicate PusherInv(s: State, p: nat, w: Pusher)
    requires Chain(s)
  {
    match w
    case Idle => true
    case Cleared(x) => x != DUMMY && Outside(s, x) && Next(s, x) == None
    case Linking(x, prev, k) => s.lo < k < |s.order| && s.link[k] == By(p) && s.order[k] == x && s.order[k - 1] == prev
  }

  ghost predicate PushersInv(s: State)
    requires Chain(s)
  {
    && (forall p :: 0 <= p < |s.pushers| ==> PusherInv(s, p, s.pushers[p]))
    && (forall p, q | 0 <= p < |s.pushers| && 0 <= q < |s.pushers| && p != q && s.pushers[p].Cleared? && s.pushers[q].Cleared? ::
          s.pushers[p].x != s.pushers[q].x)
  }

  ghost predicate PopperInv(s: State)
    requires Chain(s)
  {
    && (!s.popper.Away? ==> s.popper.t == s.tail != DUMMY && s.answer.Open?)
    && match s.popper
      case ClearDummy(_) => Outside(s, DUMMY)
      case SwapDummy(_) => Outside(s, DUMMY) && Next(s, DUMMY) == None
      case LinkDummy(_, prev, k) =>
        s.lo < k < |s.order| && s.link[k] == ByPopper && s.order[k] == DUMMY && s.order[k - 1] == prev
      case LastLook(_) => s.lo < |s.order| - 1
      case _ => true
  }

  /** The contexts among a list of nodes. */
  function Contexts(q: seq<Node>): (r: seq<Node>)
    ensures DUMMY !in r
  {
    if q == [] then []
    else if q[|q| - 1] == DUMMY then Contexts(q[..|q| - 1]) else Contexts(q[..|q| - 1]) + [q[|q| - 1]]
  }

  /** All of the invariant that does not speak of `seen`. */
  ghost predicate Core(s: State) {
    Chain(s) && PushersInv(s) && PopperInv(s) && s.popped == Contexts(s.order[..s.lo])
  }

  /** A null answer, given or impending, has its excuse. */
  ghost predicate SeenInv(s: State) {
    (s.popper.AtHead? ==> s.seen || s.lo == |s.order| - 1) && (s.answer.Null? ==> s.seen)
  }

  ghost predicate Inv(s: State) {
    Core(s) && SeenInv(s)
  }

  // ---- preservation

  lemma ClearKeepsCore(s: State, p: nat, x: Node)
    requires Core(s) && Enabled(s, PushClear(p, x))
    ensures Core(Move(s, PushClear(p, x)))
  {
    var s' := Move(s, PushClear(p, x));
    forall k | s.lo < k < |s.order| ensures LinkAt(s', k) { assert LinkAt(s, k); }
    forall q | 0 <= q < |s'.pushers| ensures PusherInv(s', q, s'.pushers[q]) { assert PusherInv(s, q, s.pushers[q]); }
  }

  lemma SwapKeepsChain(s: State, x: Node, l: Link, s': State)
    requires Core(s) && Outside(s, x) && Next(s, x) == None && l != Linked
    requires s' == Swap(s, x, l).(pushers := s'.pushers, popper := s'.popper)
    requires |s'.pushers| == |s.pushers|
    requires forall q :: 0 <= q < |s.pushers| && s.pushers[q].Linking? ==> s'.pushers[q] == s.pushers[q]
    requires s.popper.LinkDummy? ==> s'.popper == s.popper
    requires match l case By(p) => p < |s.pushers| && s'.pushers[p] == Linking(x, s.head, |s.order|)
             case ByPopper => s'.popper.LinkDummy? && s'.popper.prev == s.head && s'.popper.k == |s.order|
             case Linked => false
    ensures Chain(s') && s'.order[..s.lo] == s.order[..s.lo]
  {
    forall k | s.lo < k < |s'.order| ensures LinkAt(s', k) { if k < |s.order| { assert LinkAt(s, k); } }
  }

  lemma SwapKeepsPusher(s: State, p: nat, q: nat)
    requires Chain(s) && PushersInv(s) && Enabled(s, PushSwap(p)) && Chain(Move(s, PushSwap(p))) && q < |s.pushers|
    ensures var s' := Move(s, PushSwap(p)); q < |s'.pushers| && PusherInv(s', q, s'.pushers[q])
  {
    assert PusherInv(s, q, s.pushers[q]);
  }

  lemma SwapKeepsPushers(s: State, p: nat)
    requires Core(s) && Enabled(s, PushSwap(p)) && Chain(Move(s, PushSwap(p)))
    ensures PushersInv(Move(s, PushSwap(p)))
  {
    var s' := Move(s, PushSwap(p));
    forall q | 0 <= q < |s'.pushers| ensures PusherInv(s', q, s'.pushers[q]) { SwapKeepsPusher(s, p, q); }
  }

  lemma SwapKeepsCore(s: State, p: nat)
    requires Core(s) && Enabled(s, PushSwap(p))
    ensures Core(Move(s, PushSwap(p)))
  {
    var s' := Move(s, PushSwap(p));
    var x := s.pushers[p].x;
    assert PusherInv(s, p, s.pushers[p]);
    SwapKeepsChain(s, x, By(p), s');
    SwapKeepsPushers(s, p);
    SwapKeepsPopper(s, p);
  }

  lemma SwapKeepsPopper(s: State, p: nat)
    requires Core(s) && Enabled(s, PushSwap(p)) && Chain(Move(s, PushSwap(p))) && s.pushers[p].x != DUMMY
    ensures PopperInv(Move(s, PushSwap(p)))
  {
  }

  lemma DummySwapKeepsCore(s: State)
    requires Core(s) && Enabled(s, PopSwap)
    ensures Core(Move(s, PopSwap))
  {
    var s' := Move(s, PopSwap);
    SwapKeepsChain(s, DUMMY, ByPopper, s');
    forall q | 0 <= q < |s'.pushers| ensures PusherInv(s', q, s'.pushers[q]) { assert PusherInv(s, q, s.pushers[q]); }
  }

  /** Writing a missing link. */
  lemma LinkKeepsChain(s: State, k: nat, s': State)
    requires Core(s) && s.lo < k < |s.order| && s.link[k] != Linked
    requires s' == s.(next := s.next[s.order[k - 1] := s.order[k]], link := s.link[k := Linked],
                      pushers := s'.pushers, popper := s'.popper)
    requires |s'.pushers| == |s.pushers|
    requires forall q :: 0 <= q < |s.pushers| && s.link[k] != By(q) ==> s'.pushers[q] == s.pushers[q]
    requires s.link[k] != ByPopper ==> s'.popper == s.popper
    ensures Chain(s')
  {
    forall j | s.lo < j < |s.order| ensures LinkAt(s', j) { assert LinkAt(s, j) && LinkAt(s, k); }
  }

  lemma LinkKeepsPushers(s: State, p: nat)
    requires Core(s) && Enabled(s, PushLink(p)) && Chain(Move(s, PushLink(p)))
    requires s.lo < s.pushers[p].k < |s.order| && s.order[s.pushers[p].k - 1] == s.pushers[p].prev
    requires s.link[s.pushers[p].k] == By(p)
    ensures PushersInv(Move(s, PushLink(p)))
  {
    var s' := Move(s, PushLink(p));
    forall q | 0 <= q < |s'.pushers| ensures PusherInv(s', q, s'.pushers[q]) { assert PusherInv(s, q, s.pushers[q]); }
  }

  lemma LinkKeepsCore(s: State, p: nat)
    requires Core(s) && Enabled(s, PushLink(p))
    ensures Core(Move(s, PushLink(p)))
  {
    assert PusherInv(s, p, s.pushers[p]);
    var k := s.pushers[p].k;
    assert LinkAt(s, k);
    LinkKeepsChain(s, k, Move(s, PushLink(p)));
    LinkKeepsPushers(s, p);
  }

  lemma DummyLinkKeepsCore(s: State)
    requires Core(s) && Enabled(s, PopLink)
    ensures Core(Move(s, PopLink))
  {
    var s' := Move(s, PopLink);
    var k := s.popper.k;
    LinkKeepsChain(s, k, s');
    forall q | 0 <= q < |s'.pushers| ensures PusherInv(s', q, s'.pushers[q]) {
      assert PusherInv(s, q, s.pushers[q]);
    }
  }

  lemma DummyClearKeepsCore(s: State)
    requires Core(s) && Enabled(s, PopClear)
    ensures Core(Move(s, PopClear))
  {
    var s' := Move(s, PopClear);
    forall k | s.lo < k < |s.order| ensures LinkAt(s', k) {
      assert LinkAt(s, k);
    }
    forall q | 0 <= q < |s'.pushers| ensures PusherInv(s', q, s'.pushers[q]) { assert PusherInv(s, q, s.pushers[q]); }
  }

  lemma Passed(s: State)
    requires s.lo < |s.order|
    ensures Contexts(s.order[..s.lo + 1]) ==
      Contexts(s.order[..s.lo]) + if s.order[s.lo] == DUMMY then [] else [s.order[s.lo]]
  {
    assert s.order[..s.lo + 1][..s.lo] == s.order[..s.lo];
  }

  /** tail_ moves over a link that is in place. */
  ghost predicate Advanced(s: State, s': State) {
    && Core(s) && !s.popper.LinkDummy? && Next(s, s.tail) != None
    && s' == s.(tail := Next(s, s.tail).value, lo := s.lo + 1, popper := s'.popper, answer := s'.answer,
                popped := if s.tail == DUMMY then s.popped else s.popped + [s.tail])
    && (s'.popper.Away? || (s'.popper == AtNext(s'.tail) && s.tail == DUMMY && s'.answer.Open?))
  }

  lemma AdvanceKeepsChain(s: State, s': State)
    requires Advanced(s, s')
    ensures s'.lo < |s.order| && s.link[s'.lo] == Linked && s'.tail == s.order[s'.lo] != s.tail && Chain(s')
  {
    if s.lo + 1 < |s.order| { assert LinkAt(s, s.lo + 1); }
    assert s.link[s.lo + 1] == Linked;
    forall k | s'.lo < k < |s.order| ensures LinkAt(s', k) { assert LinkAt(s, k); }
  }

  lemma AdvanceKeepsPusher(s: State, s': State, q: nat)
    requires Advanced(s, s') && Chain(s') && s.lo + 1 < |s.order| && s.link[s.lo + 1] == Linked && q < |s.pushers|
    ensures PusherInv(s', q, s.pushers[q])
  {
    assert PusherInv(s, q, s.pushers[q]);
  }

  lemma AdvanceKeepsPushers(s: State, s': State)
    requires Advanced(s, s') && Chain(s') && s.lo + 1 < |s.order| && s.link[s.lo + 1] == Linked
    ensures PushersInv(s')
  {
    forall q | 0 <= q < |s'.pushers| ensures PusherInv(s', q, s'.pushers[q]) { AdvanceKeepsPusher(s, s', q); }
  }

  lemma AdvanceKeepsCore(s: State, s': State)
    requires Advanced(s, s')
    ensures Core(s')
  {
    AdvanceKeepsChain(s, s');
    AdvanceKeepsPushers(s, s');
    Passed(s);
  }

  /** The popper changes nothing but its own place. */
  lemma StayKeepsChain(s: State, s': State)
    requires Core(s) && s' == s.(popper := s'.popper, answer := s'.answer)
    requires !s.popper.LinkDummy?
    ensures Chain(s') && PushersInv(s')
  {
    forall k | s.lo < k < |s.order| ensures LinkAt(s', k) { assert LinkAt(s, k); }
    forall q | 0 <= q < |s'.pushers| ensures PusherInv(s', q, s'.pushers[q]) { assert PusherInv(s, q, s.pushers[q]); }
  }

  lemma PopKeepsCore(s: State, a: Step)
    requires Core(s) && Enabled(s, a) && (a.PopLoad? || a.PopNext? || a.PopLast?)
    ensures Core(Move(s, a))
  {
    var s' := Move(s, a);
    if Next(s, s.tail) != None { AdvanceKeepsCore(s, s'); } else { StayKeepsChain(s, s'); }
  }

  lemma PopHeadKeepsCore(s: State)
    requires Core(s) && Enabled(s, PopHead)
    ensures Core(Move(s, PopHead))
  {
    StayKeepsChain(s, Move(s, PopHead));
  }

  lemma MoveKeepsCore(s: State, a: Step)
    requires Core(s) && Enabled(s, a)
    ensures Core(Move(s, a))
  {
    match a
    case PushClear(p, x) => ClearKeepsCore(s, p, x);
    case PushSwap(p) => SwapKeepsCore(s, p);
    case PushLink(p) => LinkKeepsCore(s, p);
    case PopClear => DummyClearKeepsCore(s);
    case PopSwap => DummySwapKeepsCore(s);
    case PopLink => DummyLinkKeepsCore(s);
    case PopHead => PopHeadKeepsCore(s);
    case _ => PopKeepsCore(s, a);
  }

  /** A null link behind the tail means that the queue ends there or that a push is unfinished. */
  lemma NullLink(s: State)
    requires Core(s) && !s.popper.LinkDummy? && Next(s, s.tail) == None
    ensures s.lo == |s.order| - 1 || Blocked(s)
  {
    if s.lo < |s.order| - 1 {
      assert LinkAt(s, s.lo + 1);
      assert s.link[s.lo + 1].By?;
    }
  }

  lemma StepKeepsSeen(s: State, a: Step)
    requires Inv(s) && Enabled(s, a)
    ensures SeenInv(Apply(s, a))
  {
    match a
    case PushSwap(p) => assert Move(s, a).link[|s.order|].By?;
    case PopLoad => if Next(s, s.tail) == None { NullLink(s); }
    case PopNext => if Next(s, s.tail) == None { NullLink(s); }
    case PopLast => if Next(s, s.tail) == None { NullLink(s); }
    case _ =>
  }

  lemma CoreIgnoresSeen(s: State, b: bool)
    requires Core(s)
    ensures Core(s.(seen := b))
  {
    var s' := s.(seen := b);
    forall k | s.lo < k < |s.order| ensures LinkAt(s', k) { assert LinkAt(s, k); }
    forall q | 0 <= q < |s'.pushers| ensures PusherInv(s', q, s'.pushers[q]) { assert PusherInv(s, q, s.pushers[q]); }
  }

  lemma StepKeepsInv(s: State, a: Step)
    requires Inv(s)
    ensures Inv(Apply(s, a))
  {
    if Enabled(s, a) {
      MoveKeepsCore(s, a);
      CoreIgnoresSeen(Move(s, a), Apply(s, a).seen);
      StepKeepsSeen(s, a);
    }
  }

  lemma AlwaysInv(n: nat, run: seq<Step>)
    ensures Inv(Runs.Exec(Apply, Init(n), run))
  {
    forall s: State, a: Step | Inv(s) ensures Inv(Apply(s, a)) { StepKeepsInv(s, a); }
    Runs.Invariant(Apply, Inv, Init(n), run);
  }

  // ---- what the queue promises

  lemma OrderSplits(s: State)
    requires Core(s)
    ensures Contexts(s.order) == s.popped + Contexts(InQueue(s)) && DUMMY !in s.popped
    ensures forall i, j :: 0 <= i < j < |InQueue(s)| ==> InQueue(s)[i] != InQueue(s)[j]
  {
    ContextsOfBoth(s.order[..s.lo], s.order[s.lo..]);
    assert s.order == s.order[..s.lo] + s.order[s.lo..];
  }

  /** pop returns the pushed contexts in exchange order, each once, and never the dummy, which is
      in the list at most once; what it has not returned yet is still in the list. */
  lemma PopsInExchangeOrder(n: nat, run: seq<Step>)
    ensures var s := Runs.Exec(Apply, Init(n), run);
      && s.popped <= Contexts(s.order) && DUMMY !in s.popped
      && Contexts(s.order) == s.popped + Contexts(InQueue(s))
      && forall i, j :: 0 <= i < j < |InQueue(s)| ==> InQueue(s)[i] != InQueue(s)[j]
  {
    AlwaysInv(n, run);
    OrderSplits(Runs.Exec(Apply, Init(n), run));
  }

  lemma {:induction false} ContextsOfBoth(a: seq<Node>, b: seq<Node>)
    ensures Contexts(a + b) == Contexts(a) + Contexts(b)
    decreases |b|
  {
    if b == [] {
      assert a + b == a;
    } else {
      ContextsOfBoth(a, b[..|b| - 1]);
      assert (a + b)[..|a + b| - 1] == a + b[..|b| - 1];
    }
  }

  /** pop answers null only if at some instant of that pop the queue was empty or some push stood
      between its exchange and its link. */
  lemma NullHasExcuse(n: nat, run: seq<Step>)
    ensures var s := Runs.Exec(Apply, Init(n), run); s.answer.Null? ==> s.seen
  {
    AlwaysInv(n, run);
  }

  lemma ReturnTakesFront(s: State, a: Step)
    requires Inv(s) && !s.answer.Got? && Apply(s, a).answer.Got?
    ensures var s' := Apply(s, a);
      && Chain(s') && Core(s') && s'.order == s.order && s'.lo == s.lo + 1 < |s.order| && s'.answer.x == s.order[s.lo] != DUMMY
      && Outside(s', s'.answer.x)
  {
    StepKeepsInv(s, a);
  }

  lemma NoLinkPending(s: State, p: nat)
    requires Core(s) && s.lo >= 1 && p < |s.pushers| && s.pushers[p].Linking? && Outside(s, s.order[s.lo - 1])
    ensures s.pushers[p].prev != s.order[s.lo - 1] && s.pushers[p].x != s.order[s.lo - 1]
  {
    assert PusherInv(s, p, s.pushers[p]);
  }

  /** The context a pop returns is out of the list, and no push still has to write its link,
      so it may be pushed again at once. */
  lemma ReturnedNodeIsFree(n: nat, run: seq<Step>, a: Step, p: nat)
    requires var s := Runs.Exec(Apply, Init(n), run); !s.answer.Got? && Apply(s, a).answer.Got?
    ensures var s' := Apply(Runs.Exec(Apply, Init(n), run), a);
      && s'.answer.x != DUMMY && Outside(s', s'.answer.x)
      && (p < |s'.pushers| && s'.pushers[p].Linking? ==>
            s'.pushers[p].prev != s'.answer.x && s'.pushers[p].x != s'.answer.x)
  {
    AlwaysInv(n, run);
    var s := Runs.Exec(Apply, Init(n), run);
    ReturnTakesFront(s, a);
    if p < |Apply(s, a).pushers| && Apply(s, a).pushers[p].Linking? { NoLinkPending(Apply(s, a), p); }
  }

  /** A single pop, left alone. */
  predicate OnePop(run: seq<Step>) {
    run != [] && run[0].PopLoad? && forall k :: 0 < k < |run| ==> !IsPush(run[k]) && !run[k].PopLoad?
  }

  /** The dummy goes behind the last node, whose link the popper writes itself. */
  lemma TakeBeforeDummy(s0: State, run: seq<Step>, s: State) returns (run': seq<Step>, s': State)
    requires Runs.Reached(Apply, s0, run, s) && OnePop(run)
    requires s.popper.SwapDummy? && s.head == s.popper.t && |s.link| == |s.order|
    ensures Runs.Reached(Apply, s0, run', s') && s'.answer == Got(s.popper.t)
    ensures OnePop(run') && s'.popper.Away? && s'.popped == s.popped + [s.popper.t]
  {
    run', s' := Runs.Then(Apply, s0, run, s, PopSwap);
    run', s' := Runs.Then(Apply, s0, run', s', PopLink);
    run', s' := Runs.Then(Apply, s0, run', s', PopLast);
  }

  /** The popper re-inserts the dummy to take the last node of an otherwise quiet queue. */
  lemma TakeLast(s0: State, run: seq<Step>, s: State) returns (run': seq<Step>, s': State)
    requires Runs.Reached(Apply, s0, run, s) && Core(s) && s.popper.AtHead? && s.lo == |s.order| - 1
    requires OnePop(run)
    ensures Runs.Reached(Apply, s0, run', s') && s'.answer == Got(s.tail)
    ensures OnePop(run') && s'.popper.Away? && s'.popped == s.popped + [s.tail]
  {
    run', s' := Runs.Then(Apply, s0, run, s, PopHead);
    run', s' := Runs.Then(Apply, s0, run', s', PopClear);
    run', s' := TakeBeforeDummy(s0, run', s');
  }

  lemma {:induction false} FirstContext(q: seq<Node>, k: nat)
    requires k < |q| && q[k] != DUMMY && forall i :: 0 <= i < k ==> q[i] == DUMMY
    ensures Contexts(q) != [] && Contexts(q)[0] == q[k]
    decreases |q|
  {
    if k < |q| - 1 {
      FirstContext(q[..|q| - 1], k);
    } else {
      AllDummies(q[..k]);
    }
  }

  lemma {:induction false} AllDummies(q: seq<Node>)
    requires forall i :: 0 <= i < |q| ==> q[i] == DUMMY
    ensures Contexts(q) == []
    decreases |q|
  {
    if q != [] { AllDummies(q[..|q| - 1]); }
  }

  lemma QuietLinks(s: State)
    requires Core(s) && !s.popper.LinkDummy? && !Blocked(s)
    ensures s.lo < |s.order| - 1 || s.tail != DUMMY
    ensures forall k :: s.lo < k < |s.order| ==> s.link[k] == Linked
  {
    forall k | s.lo < k < |s.order| ensures s.link[k] == Linked { assert LinkAt(s, k); }
  }

  /** A popper that has skipped the dummy and finds every link in place returns the node it is at. */
  lemma TakeNext(s0: State, run: seq<Step>, s: State) returns (run': seq<Step>, s': State)
    requires Runs.Reached(Apply, s0, run, s) && Core(s) && s.popper.AtNext?
    requires forall k :: s.lo < k < |s.order| ==> s.link[k] == Linked
    requires OnePop(run)
    ensures Runs.Reached(Apply, s0, run', s') && s'.answer == Got(s.tail)
    ensures OnePop(run') && s'.popper.Away? && s'.popped == s.popped + [s.tail]
  {
    if s.lo < |s.order| - 1 { assert LinkAt(s, s.lo + 1); }
    run', s' := Runs.Then(Apply, s0, run, s, PopNext);
    if s'.popper.AtHead? {
      StayKeepsChain(s, Move(s, PopNext));
      CoreIgnoresSeen(Move(s, PopNext), s'.seen);
      run', s' := TakeLast(s0, run', s');
    }
  }

  function FrontContext(s: State): Node
    requires s.lo < |s.order| - 1 || s.tail != DUMMY
  {
    if s.tail == DUMMY then s.order[s.lo + 1] else s.tail
  }

  /** The first look of a pop that nothing stands in the way of. */
  lemma FirstLook(s: State)
    requires Core(s) && s.popper.Away? && !Blocked(s)
    ensures s.lo < |s.order| - 1 || s.tail != DUMMY
    ensures var s' := Apply(s, PopLoad);
      && Core(s') && (forall k :: s'.lo < k < |s'.order| ==> s'.link[k] == Linked)
      && match s'.popper
         case AtNext(_) => s'.tail == FrontContext(s) && s'.popped == s.popped
         case AtHead(_) => s'.tail == FrontContext(s) && s'.popped == s.popped && s'.lo == |s'.order| - 1
         case p => p == Away && s'.answer == Got(FrontContext(s)) && s'.popped == s.popped + [FrontContext(s)]
  {
    QuietLinks(s);
    if s.lo < |s.order| - 1 { assert LinkAt(s, s.lo + 1); }
    MoveKeepsCore(s, PopLoad);
    CoreIgnoresSeen(Move(s, PopLoad), Apply(s, PopLoad).seen);
  }

  lemma TakeFront(s: State) returns (run: seq<Step>, s': State)
    requires Core(s) && s.popper.Away? && !Blocked(s)
    ensures Runs.Reached(Apply, s, run, s') && OnePop(run) && s'.popper.Away?
    ensures s.lo < |s.order| - 1 || s.tail != DUMMY
    ensures s'.answer == Got(FrontContext(s)) && s'.popped == s.popped + [FrontContext(s)]
  {
    FirstLook(s);
    Runs.Start(Apply, s);
    run, s' := Runs.Then(Apply, s, [], s, PopLoad);
    if s'.popper.AtNext? {
      run, s' := TakeNext(s, run, s');
    } else if s'.popper.AtHead? {
      run, s' := TakeLast(s, run, s');
    }
  }

  /** The converse of the excuse: from every reachable state in which the queue holds a context and no
      push is between exchange and link, a pop left alone returns the first context in exchange order. */
  lemma QuietPopSucceeds(n: nat, run: seq<Step>) returns (pop: seq<Step>)
    requires var s := Runs.Exec(Apply, Init(n), run); s.popper.Away? && !Blocked(s)
    ensures OnePop(pop)
    ensures var s := Runs.Exec(Apply, Init(n), run); var s' := Runs.Exec(Apply, s, pop);
      && Contexts(InQueue(s)) != [] && s'.popper.Away? && s'.answer == Got(Contexts(InQueue(s))[0])
      && s'.popped == s.popped + [Contexts(InQueue(s))[0]]
  {
    AlwaysInv(n, run);
    var s := Runs.Exec(Apply, Init(n), run);
    var s': State;
    pop, s' := TakeFront(s);
    QuietLinks(s);
    FirstContext(InQueue(s), if s.tail == DUMMY then 1 else 0);
  }

  // ---- the queue in the form of the source

  predicate PushedBy(p: nat, a: Step) {
    IsPush(a) && a.p == p
  }

  lemma NotMine(s: State, a: Step, p: nat)
    requires p < |s.pushers| && !PushedBy(p, a)
    ensures |Apply(s, a).pushers| == |s.pushers| && Apply(s, a).pushers[p] == s.pushers[p]
    ensures s.order <= Apply(s, a).order
  {
  }

  lemma {:induction false} ForeignSteps(s: State, steps: seq<Step>, p: nat)
    requires p < |s.pushers| && forall k :: 0 <= k < |steps| ==> !PushedBy(p, steps[k])
    ensures var s' := Runs.Exec(Apply, s, steps);
      |s'.pushers| == |s.pushers| && s'.pushers[p] == s.pushers[p] && s.order <= s'.order
    decreases |steps|
  {
    if steps != [] {
      ForeignSteps(s, steps[..|steps| - 1], p);
      NotMine(Runs.Exec(Apply, s, steps[..|steps| - 1]), steps[|steps| - 1], p);
    }
  }

  /** What pushes leave alone. */
  ghost predicate OnlyPushed(s: State, s': State) {
    s'.popper == s.popper && s'.tail == s.tail && s'.lo == s.lo && s'.popped == s.popped && s'.answer == s.answer
  }

  lemma PushOnlyPushes(s: State, a: Step)
    requires IsPush(a)
    ensures OnlyPushed(s, Apply(s, a))
  {
  }

  lemma {:induction false} PushersOnly(s: State, steps: seq<Step>)
    requires forall k :: 0 <= k < |steps| ==> IsPush(steps[k])
    ensures OnlyPushed(s, Runs.Exec(Apply, s, steps))
    decreases |steps|
  {
    if steps != [] {
      PushersOnly(s, steps[..|steps| - 1]);
      PushOnlyPushes(Runs.Exec(Apply, s, steps[..|steps| - 1]), steps[|steps| - 1]);
    }
  }

  /** The contexts' remote_nxt_ fields are gathered in one map; a missing key stands for null. */
  class ContextMpscQueue {
    var head: Node
    var tail: Node
    var remoteNext: map<Node, Node>
    ghost const pushers: nat
    ghost var run: seq<Step>
    ghost var m: State

    ghost predicate Valid()
      reads this
    {
      && head == m.head && tail == m.tail && remoteNext == m.next && |m.pushers| == pushers
      && Runs.Reached(Apply, Init(pushers), run, m)
    }

    constructor (ghost pushers: nat)
      ensures Valid() && this.pushers == pushers && run == []
    {
      head, tail, remoteNext := DUMMY, DUMMY, map[];
      this.pushers := pushers;
      run, m := [], Init(pushers);
      new;
      Runs.Start(Apply, Init(pushers));
    }

    ghost method Do(a: Step)
      requires Runs.Reached(Apply, Init(pushers), run, m)
      modifies this`run, this`m
      ensures run == old(run) + [a] && m == Apply(old(m), a)
      ensures Runs.Reached(Apply, Init(pushers), run, m)
    {
      run, m := Runs.Then(Apply, Init(pushers), run, m, a);
    }

    /** Anything the other pushers and the popper may do before pusher p runs again. */
    method InterfereWithPush(ghost p: nat)
      requires Valid() && p < pushers
      modifies this
      ensures Valid() && old(run) <= run
      ensures forall k :: |old(run)| <= k < |run| ==> !PushedBy(p, run[k])
    {
    }

    /** Anything the pushers may do before the popper runs again. */
    method InterfereWithPop()
      requires Valid()
      modifies this`head, this`remoteNext, this`run, this`m
      ensures Valid() && old(run) <= run
      ensures forall k :: |old(run)| <= k < |run| ==> IsPush(run[k])
    {
    }

    method PreemptPush(ghost p: nat)
      requires Valid() && p < pushers
      modifies this
      ensures Valid() && old(run) <= run && m.pushers[p] == old(m.pushers[p]) && old(m.order) <= m.order
    {
      InterfereWithPush(p);
      ghost var more := run[|old(run)|..];
      assert run == old(run) + more;
      Runs.Split(Apply, Init(pushers), old(run), more);
      ForeignSteps(old(m), more, p);
    }

    method PreemptPop()
      requires Valid()
      modifies this`head, this`remoteNext, this`run, this`m
      ensures Valid() && old(run) <= run && OnlyPushed(old(m), m)
    {
      InterfereWithPop();
      ghost var more := run[|old(run)|..];
      assert run == old(run) + more;
      Runs.Split(Apply, Init(pushers), old(run), more);
      PushersOnly(old(m), more);
    }

    /** push(ctx) by thread p: ctx enters the exchange order during this call. */
    method Push(ghost p: nat, ctx: Node) returns (ghost k: nat)
      requires Valid() && p < pushers && m.pushers[p].Idle? && Pushable(m, ctx)
      modifies this
      ensures Valid() && old(run) <= run && m.pushers[p].Idle?
      ensures |old(m.order)| <= k < |m.order| && m.order[k] == ctx
    {
      remoteNext := remoteNext - {ctx};
      Do(PushClear(p, ctx));
      PreemptPush(p);
      var prev := head;
      k := |m.order|;
      head := ctx;
      Do(PushSwap(p));
      PreemptPush(p);
      PositionIsLogged(p);
      remoteNext := remoteNext[prev := ctx];
      Do(PushLink(p));
    }

    lemma PositionIsLogged(p: nat)
      requires Valid() && p < pushers && m.pushers[p].Linking?
      ensures m.pushers[p].k < |m.link|
    {
      AlwaysInv(pushers, run);
      assert PusherInv(m, p, m.pushers[p]);
    }

    method ClearDummyLink()
      requires Valid() && m.popper.ClearDummy?
      modifies this`head, this`remoteNext, this`run, this`m
      ensures Valid() && old(run) <= run && m.popper == SwapDummy(old(m.popper).t)
      ensures m.tail == old(m.tail) && m.popped == old(m.popped)
    {
      PreemptPop();
      remoteNext := remoteNext - {DUMMY};
      Do(PopClear);
    }

    method SwapHead() returns (prev: Node)
      requires Valid() && m.popper.SwapDummy?
      modifies this`head, this`remoteNext, this`run, this`m
      ensures Valid() && old(run) <= run && m.popper.LinkDummy? && m.popper.t == old(m.popper).t && m.popper.prev == prev
      ensures m.tail == old(m.tail) && m.popped == old(m.popped)
    {
      PreemptPop();
      prev := head;
      head := DUMMY;
      Do(PopSwap);
    }

    /** The dummy goes through push like any node; here the popper is the pusher. */
    method PushDummy()
      requires Valid() && m.popper.ClearDummy?
      modifies this`head, this`remoteNext, this`run, this`m
      ensures Valid() && old(run) <= run && m.popper == LastLook(old(m.popper).t)
      ensures m.tail == old(m.tail) && m.popped == old(m.popped)
    {
      ClearDummyLink();
      var prev := SwapHead();
      PreemptPop();
      AlwaysInv(pushers, run);
      remoteNext := remoteNext[prev := DUMMY];
      Do(PopLink);
    }

    /** The second load of pop, behind the dummy. */
    method LoadBehindDummy() returns (done: bool, r: Option<Node>)
      requires Valid() && m.popper.AtNext?
      modifies this
      ensures Valid() && old(run) <= run
      ensures done <==> r.Some?
      ensures done ==> m.popper.Away? && m.answer == Got(r.value) && m.popped == old(m.popped) + [r.value]
      ensures !done ==> m.popper == AtHead(m.tail) && m.popped == old(m.popped)
    {
      PreemptPop();
      AlwaysInv(pushers, run);
      var t := tail;
      Do(PopNext);
      if t in remoteNext {
        tail := remoteNext[t];
        return true, Some(t);
      }
      return false, None;
    }

    /** The first two loads of pop: past the dummy, if it is in front. */
    method Front() returns (done: bool, r: Option<Node>)
      requires Valid() && m.popper.Away?
      modifies this
      ensures Valid() && old(run) <= run
      ensures done ==> m.popper.Away? && m.answer == (if r == None then Answer.Null else Got(r.value))
      ensures done && r.Some? ==> m.popped == old(m.popped) + [r.value]
      ensures !done ==> r == None && m.popper == AtHead(m.tail) && m.popped == old(m.popped)
    {
      PreemptPop();
      AlwaysInv(pushers, run);
      var t := tail;
      Do(PopLoad);
      if t == DUMMY {
        if t !in remoteNext {
          return true, None;
        }
        tail := remoteNext[t];
        done, r := LoadBehindDummy();
      } else if t in remoteNext {
        tail := remoteNext[t];
        return true, Some(t);
      } else {
        return false, None;
      }
    }

    /** pop(): the next context in exchange order, or null with the excuse that NullHasExcuse states. */
    method Pop() returns (r: Option<Node>)
      requires Valid() && m.popper.Away?
      modifies this
      ensures Valid() && old(run) <= run && m.popper.Away?
      ensures r.Some? ==> m.answer == Got(r.value) && m.popped == old(m.popped) + [r.value]
      ensures r == None ==> m.answer.Null? && m.seen
    {
      var done: bool;
      done, r := Front();
      if !done {
        PreemptPop();
        var t, last := tail, head;
        Do(PopHead);
        if t == last {
          PushDummy();
          PreemptPop();
          if t in remoteNext {
            tail := remoteNext[t];
            r := Some(t);
          }
          Do(PopLast);
        }
      }
      NullHasExcuse(pushers, run);
    }
  }
}
