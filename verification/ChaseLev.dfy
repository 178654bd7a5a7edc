/** chase_lev_queue: the owner pushes and pops at the bottom, thieves steal at the top,
    and the circular buffer grows. */
module ChaseLev {
  import Lists
  import opened Options
  import opened Ring
  import Runs

  type Ctx = nat

  datatype Owner =
    | Idle
    | Loaded(ctx: Ctx, seen: nat)         // push: loaded top_
    | Roomy(ctx: Ctx, seen: nat)          // push: the buffer has room
    | Written(ctx: Ctx, seen: nat)        // push: item stored, bottom_ not yet
    | Lowered                             // pop: bottom_ decremented
    | Racing(v: Option<Ctx>)              // pop: last element, about to swap top_
    | Restoring(v: Option<Ctx>)           // pop: about to store bottom_ + 1 and return v

  datatype Thief =
    | Away
    | HasTop(t: nat)
    | HasBottom(t: nat)                   // top < bottom was seen
    | HasBuffer(t: nat, a: int)
    | HasItem(t: nat, v: Option<Ctx>)

  /** `buffers` lists every buffer ever installed, the current one last. Pushes are numbered;
      `at` maps an index to the push that last used it, `index` a push to its index.
      `taken` logs the pushes whose entry was returned, `returned` the contexts returned for them,
      `lost` the pushes made below top_, and `missed` counts the owner's failed swaps. */
  datatype State = State(
    top: nat, bottom: int, buffers: seq<seq<Option<Ctx>>>, owner: Owner, thieves: seq<Thief>,
    pushed: seq<Ctx>, index: seq<nat>, at: map<nat, nat>,
    taken: seq<nat>, returned: seq<Option<Ctx>>, lost: set<nat>, missed: nat)

  datatype Step =
    | PushLoad(ctx: Ctx)
    | PushGrow
    | PushPut
    | PushPublish
    | PopLower
    | PopDecide
    | PopSwap
    | PopRestore
    | StealTop(p: nat)
    | StealBottom(p: nat)
    | StealBuffer(p: nat)
    | StealGet(p: nat)
    | StealSwap(p: nat)

  predicate IsSteal(a: Step) {
    a.StealTop? || a.StealBottom? || a.StealBuffer? || a.StealGet? || a.StealSwap?
  }

  const INITIAL_SIZE := 1024

  function Init(n: nat): State {
    State(0, 0, [Nulls(INITIAL_SIZE)], Idle, seq(n, _ => Away), [], [], map[], [], [], {}, 0)
  }

  predicate Enabled(s: State, a: Step) {
    match a
    case PushLoad(_) => s.owner.Idle?
    case PushGrow => s.owner.Loaded?
    case PushPut => s.owner.Roomy? && s.bottom >= 0
    case PushPublish => s.owner.Written? && s.bottom >= 0
    case PopLower => s.owner.Idle?
    case PopDecide => s.owner.Lowered?
    case PopSwap => s.owner.Racing?
    case PopRestore => s.owner.Restoring?
    case StealTop(p) => p < |s.thieves| && s.thieves[p].Away?
    case StealBottom(p) => p < |s.thieves| && s.thieves[p].HasTop?
    case StealBuffer(p) => p < |s.thieves| && s.thieves[p].HasBottom?
    case StealGet(p) => p < |s.thieves| && s.thieves[p].HasBuffer?
    case StealSwap(p) => p < |s.thieves| && s.thieves[p].HasItem?
  }

  function Buffer(s: State): seq<Option<Ctx>> {
    if s.buffers == [] then [] else s.buffers[|s.buffers| - 1]
  }

  /** The entry at index i leaves the deque with value v. */
  function Take(s: State, i: nat, v: Option<Ctx>): State {
    s.(taken := s.taken + [if i in s.at then s.at[i] else 0], returned := s.returned + [v])
  }

  function Publish(s: State): State
    requires Enabled(s, PushPublish)
  {
    s.(bottom := s.bottom + 1, owner := Idle,
       pushed := s.pushed + [s.owner.ctx], index := s.index + [s.bottom], at := s.at[s.bottom := |s.pushed|],
       lost := if s.bottom < s.top then s.lost + {|s.pushed|} else s.lost)
  }

  /** pop after its load of top_: the last entry is raced for, an earlier one is simply taken. */
  function Decide(s: State): State
    requires Enabled(s, PopDecide)
  {
    if s.top < s.bottom then Take(s, s.bottom, Get(Buffer(s), s.bottom)).(owner := Idle)
    else if s.top == s.bottom then s.(owner := Racing(Get(Buffer(s), s.bottom)))
    else s.(owner := Restoring(None))
  }

  /** The owner's swap; after a lost race pop returns null and leaves bottom_ lowered. */
  function OwnerSwap(s: State): State
    requires Enabled(s, PopSwap)
  {
    if s.top == s.bottom then Take(s, s.top, s.owner.v).(top := s.top + 1, owner := Restoring(s.owner.v))
    else s.(owner := Idle, missed := s.missed + 1)
  }

  function ThiefSwap(s: State, p: nat): State
    requires Enabled(s, StealSwap(p))
  {
    var w := s.thieves[p];
    var away := s.(thieves := s.thieves[p := Away]);
    if s.top != w.t then away else Take(away, s.top, w.v).(top := s.top + 1)
  }

  function Apply(s: State, a: Step): State {
    if !Enabled(s, a) then s else
    match a
    case PushLoad(ctx) => s.(owner := Loaded(ctx, s.top))
    case PushGrow =>
      s.(owner := Roomy(s.owner.ctx, s.owner.seen),
         buffers := if s.bottom - s.owner.seen > |Buffer(s)| - 1
                    then s.buffers + [Resized(Buffer(s), s.owner.seen, s.bottom)] else s.buffers)
    case PushPut =>
      s.(owner := Written(s.owner.ctx, s.owner.seen),
         buffers := if s.buffers == [] then [] else
           s.buffers[|s.buffers| - 1 := Put(Buffer(s), s.bottom, Some(s.owner.ctx))])
    case PushPublish => Publish(s)
    case PopLower => s.(bottom := s.bottom - 1, owner := Lowered)
    case PopDecide => Decide(s)
    case PopSwap => OwnerSwap(s)
    case PopRestore => s.(bottom := s.bottom + 1, owner := Idle)
    case StealTop(p) => s.(thieves := s.thieves[p := HasTop(s.top)])
    case StealBottom(p) =>
      s.(thieves := s.thieves[p := if s.thieves[p].t < s.bottom then HasBottom(s.thieves[p].t) else Away])
    case StealBuffer(p) => s.(thieves := s.thieves[p := HasBuffer(s.thieves[p].t, |s.buffers| - 1)])
    case StealGet(p) =>
      var w := s.thieves[p];
      s.(thieves := s.thieves[p := HasItem(w.t, if 0 <= w.a < |s.buffers| then Get(s.buffers[w.a], w.t) else None)])
    case StealSwap(p) => ThiefSwap(s, p)
  }

  /** One past the last entry of the deque: an owner inside pop has lowered bottom_ ahead of its decision. */
  function End(s: State): int {
    if s.owner.Lowered? || s.owner.Racing? || s.owner.Restoring? then s.bottom + 1 else s.bottom
  }

  /** Index i holds a pushed entry that nobody has taken, and `items` has its context. */
  ghost predicate Live(s: State, items: seq<Option<Ctx>>, i: nat) {
    && i in s.at && s.at[i] < |s.pushed| == |s.index| && s.index[s.at[i]] == i
    && s.at[i] !in s.taken && s.at[i] !in s.lost
    && Get(items, i) == Some(s.pushed[s.at[i]])
  }

  ghost predicate WindowInv(s: State) {
    && |s.buffers| > 0
    && (forall a :: 0 <= a < |s.buffers| ==> |s.buffers[a]| > 0)
    && s.top <= End(s) + 1 && 0 <= End(s) && End(s) - s.top <= |Buffer(s)|
    && (forall i: nat :: s.top <= i < End(s) ==> Live(s, Buffer(s), i))
    && (s.missed == 0 ==> s.top <= End(s) && s.lost == {})
  }

  ghost predicate OwnerInv(s: State)
    requires |s.buffers| > 0
  {
    match s.owner
    case Idle => true
    case Loaded(_, t) =>
      t <= s.top && s.bottom - t <= |Buffer(s)| && (s.bottom < s.top <==> s.bottom < t)
    case Roomy(_, t) =>
      t <= s.top && s.bottom - t < |Buffer(s)| && (s.bottom < s.top <==> s.bottom < t)
    case Written(ctx, t) =>
      && t <= s.top && s.bottom - t < |Buffer(s)| && (s.bottom < s.top <==> s.bottom < t)
      && s.bottom >= 0 && Get(Buffer(s), s.bottom) == Some(ctx)
    case Lowered => true
    case Racing(v) =>
      && s.bottom >= 0 && s.bottom <= s.top <= s.bottom + 1 && s.bottom in s.at
      && (if s.top == s.bottom then v == Get(Buffer(s), s.bottom) else s.at[s.bottom] in s.taken)
    case Restoring(_) => s.top >= End(s)
  }

  /** While top_ is what the thief loaded, the entry it is after is still in the deque and,
      in the buffer it loaded, still in place. */
  ghost predicate ThiefInv(s: State, w: Thief) {
    match w
    case Away => true
    case HasTop(t) => t <= s.top
    case HasBottom(t) => t <= s.top && (t == s.top ==> s.top < End(s))
    case HasBuffer(t, a) =>
      t <= s.top && 0 <= a < |s.buffers| && (t == s.top ==> s.top < End(s) && Live(s, s.buffers[a], t))
    case HasItem(t, v) =>
      && t <= s.top
      && (t == s.top ==> s.top < End(s) && t in s.at && s.at[t] < |s.pushed| && v == Some(s.pushed[s.at[t]]))
  }

  /** What was returned: distinct pushes, each with its own context, and none of the lost ones. */
  ghost predicate TakenInv(s: State) {
    && |s.returned| == |s.taken| && Lists.Distinct(s.taken)
    && forall k :: 0 <= k < |s.taken| ==>
      s.taken[k] < |s.pushed| && s.taken[k] !in s.lost && s.returned[k] == Some(s.pushed[s.taken[k]])
  }

  /** Every push is returned, lost, or still in the deque. */
  ghost predicate NothingElse(s: State) {
    && |s.index| == |s.pushed|
    && (forall id :: id in s.lost ==> id < |s.pushed|)
    && forall id: nat :: id < |s.pushed| && id !in s.taken && id !in s.lost ==>
      s.top <= s.index[id] < End(s) && s.index[id] in s.at && s.at[s.index[id]] == id
  }

  ghost predicate Inv(s: State) {
    && WindowInv(s) && OwnerInv(s) && TakenInv(s) && NothingElse(s)
    && forall p :: 0 <= p < |s.thieves| ==> ThiefInv(s, s.thieves[p])
  }

  // ---- the owner's steps

  lemma LoadKeepsInv(s: State, ctx: Ctx)
    requires Inv(s) && s.owner.Idle?
    ensures Inv(Apply(s, PushLoad(ctx)))
  {
    SameDeque(s, Apply(s, PushLoad(ctx)));
  }

  /** A step that leaves the deque, its logs and the other threads alone keeps all but OwnerInv. */
  lemma SameDeque(s: State, s': State)
    requires Inv(s)
    requires s' == s.(owner := s'.owner, bottom := s'.bottom) && End(s') == End(s) && OwnerInv(s')
    ensures Inv(s')
  {
    forall i: nat | s.top <= i < End(s) ensures Live(s', Buffer(s'), i) { assert Live(s, Buffer(s), i); }
    forall p | 0 <= p < |s.thieves| ensures ThiefInv(s', s'.thieves[p]) { assert ThiefInv(s, s.thieves[p]); }
  }

  lemma GrowKeepsInv(s: State)
    requires Inv(s) && s.owner.Loaded?
    ensures Inv(Apply(s, PushGrow))
  {
    var s' := Apply(s, PushGrow);
    forall i: nat | s.top <= i < End(s) ensures Live(s', Buffer(s'), i) {
      assert Live(s, Buffer(s), i);
      if s'.buffers != s.buffers { ResizedKeeps(Buffer(s), s.owner.seen, s.bottom, i); }
    }
    forall p | 0 <= p < |s.thieves| ensures ThiefInv(s', s'.thieves[p]) { assert ThiefInv(s, s.thieves[p]); }
  }

  lemma PutKeepsInv(s: State)
    requires Inv(s) && s.owner.Roomy? && s.bottom >= 0
    ensures Inv(Apply(s, PushPut))
  {
    var s' := Apply(s, PushPut);
    forall i: nat | s.top <= i < End(s) ensures Live(s', Buffer(s'), i) {
      assert Live(s, Buffer(s), i);
      PutSpares(Buffer(s), s.bottom, i, Some(s.owner.ctx));
    }
    if s.top < End(s) { PutSpares(Buffer(s), s.bottom, s.top, Some(s.owner.ctx)); }
    forall p | 0 <= p < |s.thieves| ensures ThiefInv(s', s'.thieves[p]) { assert ThiefInv(s, s.thieves[p]); }
  }

  lemma PublishKeepsInv(s: State)
    requires Inv(s) && s.owner.Written? && s.bottom >= 0
    ensures Inv(Apply(s, PushPublish))
  {
    var s' := Apply(s, PushPublish);
    forall i: nat | s.top <= i < End(s') ensures Live(s', Buffer(s'), i) {
      if i < s.bottom { assert Live(s, Buffer(s), i); }
    }
    forall p | 0 <= p < |s.thieves| ensures ThiefInv(s', s'.thieves[p]) { assert ThiefInv(s, s.thieves[p]); }
  }

  lemma DecideKeepsInv(s: State)
    requires Inv(s) && s.owner.Lowered?
    ensures Inv(Apply(s, PopDecide))
  {
    var s' := Apply(s, PopDecide);
    if s.top < s.bottom {
      assert Live(s, Buffer(s), s.bottom);
      forall i: nat | s.top <= i < End(s') ensures Live(s', Buffer(s'), i) { assert Live(s, Buffer(s), i); }
      forall p | 0 <= p < |s.thieves| ensures ThiefInv(s', s'.thieves[p]) {
        assert ThiefInv(s, s.thieves[p]);
        assert Live(s, Buffer(s), s.top);
      }
    } else {
      if s.top == s.bottom { assert Live(s, Buffer(s), s.bottom); }
      SameDeque(s, s');
    }
  }

  lemma OwnerSwapKeepsInv(s: State)
    requires Inv(s) && s.owner.Racing?
    ensures Inv(Apply(s, PopSwap))
  {
    var s' := Apply(s, PopSwap);
    if s.top == s.bottom { assert Live(s, Buffer(s), s.top); }
    forall p | 0 <= p < |s.thieves| ensures ThiefInv(s', s'.thieves[p]) { assert ThiefInv(s, s.thieves[p]); }
  }

  // ---- the thieves' steps

  lemma SetThief(s: State, p: nat, w: Thief)
    requires Inv(s) && p < |s.thieves| && ThiefInv(s, w)
    ensures Inv(s.(thieves := s.thieves[p := w]))
  {
    var s' := s.(thieves := s.thieves[p := w]);
    forall i: nat | s.top <= i < End(s) ensures Live(s', Buffer(s'), i) { assert Live(s, Buffer(s), i); }
    forall q | 0 <= q < |s'.thieves| ensures ThiefInv(s', s'.thieves[q]) {
      assert q != p ==> ThiefInv(s, s.thieves[q]);
    }
  }

  lemma ThiefSwapKeepsInv(s: State, p: nat)
    requires Inv(s) && Enabled(s, StealSwap(p))
    ensures Inv(Apply(s, StealSwap(p)))
  {
    assert ThiefInv(s, s.thieves[p]);
    var away := s.(thieves := s.thieves[p := Away]);
    SetThief(s, p, Away);
    var s' := Apply(s, StealSwap(p));
    if s'.top != s.top {
      assert Live(s, Buffer(s), s.top);
      forall i: nat | s'.top <= i < End(s') ensures Live(s', Buffer(s'), i) { assert Live(s, Buffer(s), i); }
      forall q | 0 <= q < |s'.thieves| ensures ThiefInv(s', s'.thieves[q]) { assert ThiefInv(away, away.thieves[q]); }
    }
  }

  lemma ThiefKeepsInv(s: State, a: Step)
    requires Inv(s) && Enabled(s, a) && IsSteal(a) && !a.StealSwap?
    ensures Inv(Apply(s, a))
  {
    assert ThiefInv(s, s.thieves[a.p]);
    if s.top < End(s) { assert Live(s, Buffer(s), s.top); }
    SetThief(s, a.p, Apply(s, a).thieves[a.p]);
  }

  lemma StepKeepsInv(s: State, a: Step)
    requires Inv(s)
    ensures Inv(Apply(s, a))
  {
    if Enabled(s, a) {
      match a
      case PushLoad(ctx) => LoadKeepsInv(s, ctx);
      case PushGrow => GrowKeepsInv(s);
      case PushPut => PutKeepsInv(s);
      case PushPublish => PublishKeepsInv(s);
      case PopLower => SameDeque(s, Apply(s, a));
      case PopDecide => DecideKeepsInv(s);
      case PopSwap => OwnerSwapKeepsInv(s);
      case PopRestore => SameDeque(s, Apply(s, a));
      case StealSwap(p) => ThiefSwapKeepsInv(s, p);
      case _ => ThiefKeepsInv(s, a);
    }
  }

  lemma AlwaysInv(n: nat, run: seq<Step>)
    ensures Inv(Runs.Exec(Apply, Init(n), run))
  {
    forall s: State, a: Step | Inv(s) ensures Inv(Apply(s, a)) { StepKeepsInv(s, a); }
    Runs.Invariant(Apply, Inv, Init(n), run);
  }

  // ---- what the queue promises

  /** Every entry returned was pushed, with the context returned for it, and no push is returned twice:
      not by the last-element race, and not by a thief holding an outgrown buffer. */
  lemma ReturnedAtMostOnce(n: nat, run: seq<Step>)
    ensures var s := Runs.Exec(Apply, Init(n), run);
      && |s.returned| == |s.taken| && Lists.Distinct(s.taken)
      && forall k :: 0 <= k < |s.taken| ==> s.taken[k] < |s.pushed| && s.returned[k] == Some(s.pushed[s.taken[k]])
  {
    AlwaysInv(n, run);
  }

  /** Conservation: each push is in exactly one place. It has been returned, or it was made below top_
      and is unreachable for good, or it sits at its index inside the deque. */
  lemma EveryPushAccountedFor(n: nat, run: seq<Step>, id: nat)
    ensures var s := Runs.Exec(Apply, Init(n), run);
      id < |s.pushed| == |s.index| ==>
        var inside := s.top <= s.index[id] < End(s) && s.index[id] in s.at && s.at[s.index[id]] == id;
        && (id in s.taken || id in s.lost || inside)
        && !(id in s.taken && id in s.lost) && !(id in s.taken && inside) && !(id in s.lost && inside)
  {
    AlwaysInv(n, run);
    var s := Runs.Exec(Apply, Init(n), run);
    if id < |s.pushed| && s.top <= s.index[id] < End(s) {
      assert Live(s, Buffer(s), s.index[id]);
    }
  }

  /** A push loses its entry exactly when it started with bottom_ < top_, the state a lost
      last-element race leaves behind. */
  lemma LosesExactlyBelowTop(n: nat, run: seq<Step>)
    ensures var s := Runs.Exec(Apply, Init(n), run);
      s.owner.Written? && s.bottom >= 0 ==>
        (|s.pushed| in Apply(s, PushPublish).lost <==> s.bottom < s.owner.seen)
  {
    AlwaysInv(n, run);
  }

  /** Without a lost last-element race nothing is ever lost. */
  lemma NoMissNoLoss(n: nat, run: seq<Step>)
    ensures var s := Runs.Exec(Apply, Init(n), run); s.missed == 0 ==> s.lost == {}
  {
    AlwaysInv(n, run);
  }

  /** The lost races, less those already paid for. */
  ghost predicate Owed(s: State) {
    |s.lost| + (if End(s) < s.top then 1 else 0) == s.missed
  }

  lemma StepKeepsOwed(s: State, a: Step)
    requires Inv(s) && Owed(s)
    ensures Owed(Apply(s, a))
  {
    if Enabled(s, a) && a.StealSwap? { assert ThiefInv(s, s.thieves[a.p]); }
  }

  /** Each lost race costs exactly one push, the next one: as many pushes are lost as races, but for the
      last race while bottom_ is still below top_. */
  lemma EachMissCostsOnePush(n: nat, run: seq<Step>)
    ensures var s := Runs.Exec(Apply, Init(n), run);
      && |s.lost| + (if End(s) < s.top then 1 else 0) == s.missed
      && (s.owner.Idle? ==> |s.lost| + (if s.bottom < s.top then 1 else 0) == s.missed)
  {
    forall s: State, a: Step | Inv(s) && Owed(s) ensures Inv(Apply(s, a)) && Owed(Apply(s, a)) {
      StepKeepsInv(s, a);
      StepKeepsOwed(s, a);
    }
    AlwaysInv(n, []);
    Runs.Invariant(Apply, s => Inv(s) && Owed(s), Init(n), run);
  }

  function Deque(s: State): seq<Option<Ctx>> {
    seq(if End(s) >= s.top then End(s) - s.top else 0,
        k requires k >= 0 => if s.top + k in s.at && s.at[s.top + k] < |s.pushed| then Some(s.pushed[s.at[s.top + k]]) else None)
  }

  /** The concurrent queue refines a sequential deque: each operation takes effect at one step.
      A push appends at the back (or vanishes, below top_), pop removes the back, steal the front,
      and every other step leaves the deque alone. */
  ghost predicate Refines(s: State, a: Step, s': State) {
    var out := if |s'.returned| == |s.returned| + 1 then s'.returned[|s.returned|..] else [];
    match a
    case PushPublish =>
      Enabled(s, a) ==>
        Deque(s') == if s.bottom < s.top then [] else Deque(s) + [Some(s.owner.ctx)]
    case PopDecide => Deque(s) == Deque(s') + out
    case PopSwap => Deque(s) == Deque(s') + out
    case StealSwap(_) => Deque(s) == out + Deque(s')
    case _ => Deque(s') == Deque(s) && out == []
  }

  lemma EveryStepRefines(n: nat, run: seq<Step>, a: Step)
    ensures var s := Runs.Exec(Apply, Init(n), run);
      Refines(s, a, Apply(s, a)) && s.returned <= Apply(s, a).returned
  {
    AlwaysInv(n, run);
    var s := Runs.Exec(Apply, Init(n), run);
    StepRefines(s, a);
  }

  lemma PublishRefines(s: State)
    requires Inv(s) && Enabled(s, PushPublish)
    ensures Refines(s, PushPublish, Apply(s, PushPublish))
  {
    var s' := Apply(s, PushPublish);
    forall i: nat | s.top <= i < s.bottom ensures i in s.at && s.at[i] < |s.pushed| && i != s.bottom {
      assert Live(s, Buffer(s), i);
    }
    if s.bottom >= s.top {
      assert Deque(s') == Deque(s) + [Some(s.owner.ctx)];
    } else {
      assert Deque(s') == [];
    }
  }

  lemma OwnerTakes(s: State, a: Step)
    requires Inv(s) && Enabled(s, a) && (a.PopDecide? || a.PopSwap?)
    ensures Refines(s, a, Apply(s, a))
  {
    var s' := Apply(s, a);
    if s.top <= s.bottom { assert Live(s, Buffer(s), s.bottom); }
    if s'.taken != s.taken {
      assert s'.returned[|s.returned|..] == [Some(s.pushed[s.at[s.bottom]])];
      assert Deque(s) == Deque(s') + [Some(s.pushed[s.at[s.bottom]])];
    } else {
      assert Deque(s) == Deque(s');
    }
  }

  lemma ThiefTakes(s: State, p: nat)
    requires Inv(s) && Enabled(s, StealSwap(p))
    ensures Refines(s, StealSwap(p), Apply(s, StealSwap(p)))
  {
    var s' := Apply(s, StealSwap(p));
    assert ThiefInv(s, s.thieves[p]);
    if s'.taken != s.taken {
      assert s'.returned[|s.returned|..] == [Some(s.pushed[s.at[s.top]])];
      assert Deque(s) == [Some(s.pushed[s.at[s.top]])] + Deque(s');
    } else {
      assert Deque(s) == Deque(s');
    }
  }

  lemma StepRefines(s: State, a: Step)
    requires Inv(s)
    ensures Refines(s, a, Apply(s, a)) && s.returned <= Apply(s, a).returned
  {
    if Enabled(s, a) {
      match a
      case PushPublish => PublishRefines(s);
      case PopDecide => OwnerTakes(s, a);
      case PopSwap => OwnerTakes(s, a);
      case StealSwap(p) => ThiefTakes(s, p);
      case _ => assert Deque(Apply(s, a)) == Deque(s);
    }
  }

  /** The answers of pop. Its first look finds top_ above bottom_ exactly when the deque is empty; the race
      for the last entry is lost exactly when the deque has become empty, and then that entry has been
      taken. So null means an empty deque. */
  lemma PopAnswers(n: nat, run: seq<Step>)
    ensures var s := Runs.Exec(Apply, Init(n), run);
      && (s.owner.Lowered? ==> (s.top > s.bottom <==> Deque(s) == []))
      && (s.owner.Racing? ==> (s.top != s.bottom <==> Deque(s) == []))
      && (s.owner.Racing? && s.top != s.bottom ==> s.bottom in s.at && s.at[s.bottom] in s.taken)
  {
    AlwaysInv(n, run);
  }

  /** Nothing a thief could have: the deque is empty, or its only entry is what the owner is popping. */
  ghost predicate NothingToSteal(s: State) {
    Deque(s) == [] || (|Deque(s)| == 1 && (s.owner.Lowered? || s.owner.Racing?) && s.top == s.bottom)
  }

  /** The answers of steal: it gives up on the indices only at an instant with nothing to steal, and its swap
      fails exactly when another has taken the entry at its index. */
  lemma StealAnswers(n: nat, run: seq<Step>, p: nat)
    ensures var s := Runs.Exec(Apply, Init(n), run);
      p < |s.thieves| ==> match s.thieves[p]
        case HasTop(t) => t >= s.bottom ==> NothingToSteal(s)
        case HasItem(t, _) => s.top != t <==> t < s.top
        case _ => true
  {
    AlwaysInv(n, run);
    var s := Runs.Exec(Apply, Init(n), run);
    if p < |s.thieves| { assert ThiefInv(s, s.thieves[p]); }
  }

  predicate Acts(p: nat, a: Step) {
    IsSteal(a) && a.p == p
  }

  lemma NotMine(s: State, a: Step, p: nat)
    requires p < |s.thieves| && !Acts(p, a)
    ensures |Apply(s, a).thieves| == |s.thieves| && Apply(s, a).thieves[p] == s.thieves[p]
  {
  }

  /** The logs only ever grow, and top_ moves only past entries that are taken. */
  ghost predicate Grew(s: State, s': State) {
    s.taken <= s'.taken && s.pushed <= s'.pushed && s.top <= s'.top && s'.top - s.top <= |s'.taken| - |s.taken|
  }

  lemma StepGrows(s: State, a: Step)
    ensures Grew(s, Apply(s, a))
  {
  }

  lemma {:induction false} ForeignSteps(s: State, steps: seq<Step>, p: nat)
    requires p < |s.thieves| && forall k :: 0 <= k < |steps| ==> !Acts(p, steps[k])
    ensures var s' := Runs.Exec(Apply, s, steps);
      |s'.thieves| == |s.thieves| && s'.thieves[p] == s.thieves[p] && Grew(s, s')
    decreases |steps|
  {
    if steps != [] {
      ForeignSteps(s, steps[..|steps| - 1], p);
      NotMine(Runs.Exec(Apply, s, steps[..|steps| - 1]), steps[|steps| - 1], p);
      StepGrows(Runs.Exec(Apply, s, steps[..|steps| - 1]), steps[|steps| - 1]);
    }
  }

  /** What thieves leave alone; they move top_ only up to the end of the deque. */
  ghost predicate OnlyStolen(s: State, s': State) {
    && s'.owner == s.owner && s'.bottom == s.bottom && s'.buffers == s.buffers
    && s'.pushed == s.pushed && s'.lost == s.lost && s.top <= s'.top
    && (s.top <= End(s) ==> s'.top <= End(s)) && Grew(s, s')
  }

  lemma StealOnlySteals(s: State, a: Step)
    requires Inv(s) && IsSteal(a)
    ensures OnlyStolen(s, Apply(s, a))
  {
    if Enabled(s, a) && a.StealSwap? { assert ThiefInv(s, s.thieves[a.p]); }
  }

  lemma {:induction false} ThievesOnly(s: State, steps: seq<Step>)
    requires Inv(s) && forall k :: 0 <= k < |steps| ==> IsSteal(steps[k])
    ensures var s' := Runs.Exec(Apply, s, steps); Inv(s') && OnlyStolen(s, s')
    decreases |steps|
  {
    if steps != [] {
      ThievesOnly(s, steps[..|steps| - 1]);
      var t := Runs.Exec(Apply, s, steps[..|steps| - 1]);
      StealOnlySteals(t, steps[|steps| - 1]);
      StepKeepsInv(t, steps[|steps| - 1]);
    }
  }

  /** A push that nobody disturbs and that finds room. */
  lemma PushAlone(n: nat, run: seq<Step>, s: State, ctx: Ctx) returns (run': seq<Step>, s': State)
    requires Runs.Reached(Apply, Init(n), run, s)
    requires s.owner.Idle? && s.bottom >= 0 && s.bottom - s.top < |Buffer(s)| && |s.buffers| == 1
    ensures Runs.Reached(Apply, Init(n), run', s')
    ensures s'.owner.Idle? && s'.bottom == s.bottom + 1 && s'.buffers == [Put(s.buffers[0], s.bottom, Some(ctx))]
    ensures s'.top == s.top && s'.thieves == s.thieves && s'.taken == s.taken && s'.returned == s.returned
    ensures s'.pushed == s.pushed + [ctx] && s'.at == s.at[s.bottom := |s.pushed|]
    ensures s'.lost == if s.bottom < s.top then s.lost + {|s.pushed|} else s.lost
  {
    run', s' := Runs.Then(Apply, Init(n), run, s, PushLoad(ctx));
    run', s' := Runs.Then(Apply, Init(n), run', s', PushGrow);
    run', s' := Runs.Then(Apply, Init(n), run', s', PushPut);
    run', s' := Runs.Then(Apply, Init(n), run', s', PushPublish);
  }

  /** A thief has read the only element and not yet swapped top_. */
  lemma ThiefReads(run: seq<Step>, s: State) returns (run': seq<Step>, s': State)
    requires Runs.Reached(Apply, Init(1), run, s)
    requires s.top == 0 && s.bottom == 1 && s.thieves == [Away] && |s.buffers| == 1
    ensures Runs.Reached(Apply, Init(1), run', s')
    ensures s' == s.(thieves := [HasItem(0, Get(s.buffers[0], 0))])
  {
    run', s' := Runs.Then(Apply, Init(1), run, s, StealTop(0));
    run', s' := Runs.Then(Apply, Init(1), run', s', StealBottom(0));
    run', s' := Runs.Then(Apply, Init(1), run', s', StealBuffer(0));
    run', s' := Runs.Then(Apply, Init(1), run', s', StealGet(0));
    assert s'.thieves == [HasItem(0, Get(s.buffers[0], 0))];
  }

  /** The owner's pop loses the race for it. */
  lemma ThiefWins(run: seq<Step>, s: State) returns (run': seq<Step>, s': State)
    requires Runs.Reached(Apply, Init(1), run, s)
    requires s.top == 0 && s.bottom == 1 && |s.thieves| == 1 && s.thieves[0].HasItem? && s.thieves[0].t == 0
    requires s.owner.Idle? && s.at == map[0 := 0] && s.taken == []
    ensures Runs.Reached(Apply, Init(1), run', s')
    ensures s'.top == 1 && s'.bottom == 0 && s'.owner.Idle? && s'.taken == [0]
    ensures s'.buffers == s.buffers && s'.pushed == s.pushed && s'.lost == s.lost && s'.at == s.at
  {
    run', s' := Runs.Then(Apply, Init(1), run, s, PopLower);
    run', s' := Runs.Then(Apply, Init(1), run', s', PopDecide);
    run', s' := Runs.Then(Apply, Init(1), run', s', StealSwap(0));
    run', s' := Runs.Then(Apply, Init(1), run', s', PopSwap);
  }

  /** A concrete run in which a push is lost: a thief wins the last element, pop returns null with
      bottom_ still lowered, and the next push stores its entry below top_. */
  lemma PushCanBeLost() returns (run: seq<Step>)
    ensures var s := Runs.Exec(Apply, Init(1), run);
      s.owner.Idle? && s.pushed == [10, 20] && s.taken == [0] && s.lost == {1} && s.top == s.bottom == End(s)
  {
    var s := Init(1);
    Runs.Start(Apply, Init(1));
    run, s := PushAlone(1, [], s, 10);
    assert s.thieves == [Away] && s.at == map[0 := 0];
    run, s := ThiefReads(run, s);
    run, s := ThiefWins(run, s);
    run, s := PushAlone(1, run, s, 20);
  }

  predicate AllPowersOfTwo(bs: seq<seq<Option<Ctx>>>) {
    forall k :: 0 <= k < |bs| ==> PowerOfTwo(|bs[k]|)
  }

  lemma InitialSize()
    ensures PowerOfTwo(INITIAL_SIZE)
  {
    assert PowerOfTwo(8);
    assert PowerOfTwo(64);
    assert PowerOfTwo(512);
  }

  /** The deque in the form of the source; between atomic accesses the other threads run freely. */
  class ChaseLevQueue {
    var top: nat
    var bottom: int
    var buffer: array<Option<Ctx>>
    var oldBuffers: seq<array<Option<Ctx>>>
    ghost const thieves: nat
    ghost var run: seq<Step>
    ghost var m: State

    ghost predicate Valid()
      reads this, buffer, oldBuffers
    {
      && Runs.Reached(Apply, Init(thieves), run, m)
      && top == m.top && bottom == m.bottom && |m.thieves| == thieves
      && |m.buffers| == |oldBuffers| + 1 && AllPowersOfTwo(m.buffers)
      && buffer[..] == m.buffers[|oldBuffers|] && buffer !in oldBuffers
      && forall k :: 0 <= k < |oldBuffers| ==> oldBuffers[k][..] == m.buffers[k]
    }

    ghost function Buffers(): seq<array<Option<Ctx>>>
      reads this
    {
      oldBuffers + [buffer]
    }

    constructor (ghost thieves: nat)
      ensures Valid() && fresh(buffer) && run == [] && this.thieves == thieves
    {
      top, bottom := 0, 0;
      buffer := new Option<Ctx>[INITIAL_SIZE](_ => None);
      oldBuffers := [];
      this.thieves := thieves;
      run, m := [], Init(thieves);
      new;
      InitialSize();
      Runs.Start(Apply, Init(thieves));
      assert buffer[..] == Nulls<Ctx>(INITIAL_SIZE);
    }

    ghost method Do(a: Step)
      requires Runs.Reached(Apply, Init(thieves), run, m)
      modifies this`run, this`m
      ensures run == old(run) + [a] && m == Apply(old(m), a)
      ensures Runs.Reached(Apply, Init(thieves), run, m)
    {
      run, m := Runs.Then(Apply, Init(thieves), run, m, a);
    }

    /** Anything the thieves may do before the owner runs again. */
    method InterfereWithOwner()
      requires Valid()
      modifies this`top, this`run, this`m
      ensures Valid() && old(run) <= run
      ensures forall k :: |old(run)| <= k < |run| ==> IsSteal(run[k])
    {
    }

    /** Anything the owner and the other thieves may do before thief p runs again. */
    method InterfereWithThief(ghost p: nat)
      requires Valid() && p < thieves
      modifies this, buffer
      ensures Valid() && old(run) <= run
      ensures forall k :: |old(run)| <= k < |run| ==> !Acts(p, run[k])
      ensures old(Buffers()) <= Buffers() && (buffer == old(buffer) || fresh(buffer))
    {
    }

    method PreemptThief(ghost p: nat)
      requires Valid() && p < thieves
      modifies this, buffer
      ensures Valid() && old(run) <= run && m.thieves[p] == old(m.thieves[p]) && Grew(old(m), m)
      ensures old(Buffers()) <= Buffers() && (buffer == old(buffer) || fresh(buffer))
    {
      InterfereWithThief(p);
      ghost var more := run[|old(run)|..];
      assert run == old(run) + more;
      Runs.Split(Apply, Init(thieves), old(run), more);
      ForeignSteps(old(m), more, p);
    }

    method PreemptOwner()
      requires Valid()
      modifies this`top, this`run, this`m
      ensures Valid() && old(run) <= run
      ensures OnlyStolen(old(m), m)
    {
      AlwaysInv(thieves, run);
      InterfereWithOwner();
      ghost var more := run[|old(run)|..];
      assert run == old(run) + more;
      Runs.Split(Apply, Init(thieves), old(run), more);
      ThievesOnly(old(m), more);
    }

    static method GetItem(a: array<Option<Ctx>>, idx: nat) returns (v: Option<Ctx>)
      requires PowerOfTwo(a.Length)
      ensures v == Get(a[..], idx)
    {
      Mask(idx, a.Length);
      v := a[And(idx, a.Length - 1)];
    }

    static method PutItem(a: array<Option<Ctx>>, idx: nat, v: Option<Ctx>)
      requires PowerOfTwo(a.Length)
      modifies a
      ensures a[..] == Put(old(a[..]), idx, v)
    {
      Mask(idx, a.Length);
      a[And(idx, a.Length - 1)] := v;
    }

    /** An empty buffer of twice the size. */
    static method NewBuffer(a: array<Option<Ctx>>, ghost top: nat, ghost bottom: nat) returns (b: array<Option<Ctx>>)
      requires PowerOfTwo(a.Length) && top <= bottom
      ensures fresh(b) && b.Length == 2 * a.Length && PowerOfTwo(b.Length)
      ensures Copy(a[..], b[..], top, bottom) == Resized(a[..], top, bottom)
    {
      b := new Option<Ctx>[2 * a.Length](_ => None);
      ResizedStart(a[..], b[..], top, bottom);
    }

    static method Grow(a: array<Option<Ctx>>, top: nat, bottom: nat) returns (b: array<Option<Ctx>>)
      requires PowerOfTwo(a.Length) && top <= bottom
      ensures fresh(b) && PowerOfTwo(b.Length) && b[..] == Resized(a[..], top, bottom)
    {
      b := NewBuffer(a, top, bottom);
      var i := top;
      while i != bottom
        invariant top <= i <= bottom && b.Length == 2 * a.Length
        invariant Copy(a[..], b[..], i, bottom) == Resized(a[..], top, bottom)
        decreases bottom - i
      {
        var v := GetItem(a, i);
        PutItem(b, i, v);
        i := i + 1;
      }
    }

    method LoadTop(ctx: Ctx) returns (b: int, t: nat)
      requires Valid() && m.owner.Idle?
      modifies this`top, this`run, this`m
      ensures Valid() && old(run) <= run && m.owner == Loaded(ctx, t)
      ensures m.pushed == old(m.pushed) && m.lost == old(m.lost) && b == m.bottom == old(m.bottom)
      ensures old(m.top) <= t && (old(m.top) <= b ==> t <= b)
    {
      b := bottom;
      PreemptOwner();
      t := top;
      Do(PushLoad(ctx));
    }

    /** grow: the full buffer is kept for the thieves that hold it; a larger copy takes its place. */
    method Outgrow(b: nat, t: nat)
      requires PowerOfTwo(buffer.Length) && t <= b
      modifies this`buffer, this`oldBuffers
      ensures oldBuffers == old(oldBuffers) + [old(buffer)] && fresh(buffer) && PowerOfTwo(buffer.Length)
      ensures buffer[..] == Resized(old(buffer[..]), t, b)
    {
      var bigger := Grow(buffer, t, b);
      oldBuffers := oldBuffers + [buffer];
      buffer := bigger;
    }

    method MakeRoom(b: int, t: nat)
      requires Valid() && m.owner.Loaded? && t == m.owner.seen && b == m.bottom && b >= 0
      modifies this`top, this`buffer, this`oldBuffers, this`run, this`m
      ensures Valid() && old(run) <= run && m.owner == Roomy(old(m).owner.ctx, t)
      ensures m.pushed == old(m.pushed) && m.lost == old(m.lost) && m.bottom == b
      ensures old(Buffers()) <= Buffers() && (buffer == old(buffer) || fresh(buffer))
    {
      PreemptOwner();
      assert PowerOfTwo(|m.buffers[|oldBuffers|]|);
      if b - t > buffer.Length - 1 {
        Outgrow(b, t);
      }
      Do(PushGrow);
    }

    method Store(b: nat, ctx: Ctx)
      requires Valid() && m.owner.Roomy? && m.owner.ctx == ctx && b == m.bottom
      modifies this`top, this`run, this`m, buffer
      ensures Valid() && old(run) <= run && m.owner == Written(ctx, old(m).owner.seen)
      ensures m.pushed == old(m.pushed) && m.lost == old(m.lost) && m.bottom == b
    {
      PreemptOwner();
      assert PowerOfTwo(|m.buffers[|oldBuffers|]|);
      PutItem(buffer, b, Some(ctx));
      Do(PushPut);
    }

    method FinishPush(b: nat)
      requires Valid() && m.owner.Written? && b == m.bottom
      modifies this`top, this`bottom, this`run, this`m
      ensures Valid() && old(run) <= run && m.owner.Idle?
      ensures m.pushed == old(m.pushed) + [old(m).owner.ctx]
      ensures |old(m.pushed)| in m.lost <==> b < old(m).owner.seen
    {
      PreemptOwner();
      LosesExactlyBelowTop(thieves, run);
      bottom := b + 1;
      Do(PushPublish);
    }

    /** push(ctx): the entry is lost exactly when the owner starts with bottom_ below top_. */
    method Push(ctx: Ctx)
      requires Valid() && m.owner.Idle?
      modifies this, buffer
      ensures Valid() && old(run) <= run && m.owner.Idle?
      ensures m.pushed == old(m.pushed) + [ctx]
      ensures |old(m.pushed)| in m.lost <==> old(bottom < top)
      ensures old(Buffers()) <= Buffers() && (buffer == old(buffer) || fresh(buffer))
    {
      IdleBottom(thieves, run);
      var b, t := LoadTop(ctx);
      MakeRoom(b, t);
      Store(b, ctx);
      FinishPush(b);
    }
  
    method Lower() returns (b: int)
      requires Valid() && m.owner.Idle?
      modifies this`top, this`bottom, this`run, this`m
      ensures Valid() && old(run) <= run && m.owner.Lowered? && b == m.bottom == old(bottom) - 1 && Grew(old(m), m)
    {
      PreemptOwner();
      b := bottom - 1;
      bottom := b;
      Do(PopLower);
    }

    /** pop's look at top_: an earlier element is taken on the spot, the last one must be raced for. */
    method Decide(b: int) returns (t: nat, v: Option<Ctx>)
      requires Valid() && m.owner.Lowered? && b == m.bottom
      modifies this`top, this`run, this`m
      ensures Valid() && old(run) <= run && m.bottom == b && Grew(old(m), m)
      ensures m.owner == if t < b then Idle else if t == b then Racing(v) else Restoring(None)
      ensures t < b ==> FreshlyTaken(old(m), m, v)
      ensures t > b ==> v == None
    {
      PreemptOwner();
      DecideTakes(thieves, run);
      t := top;
      v := None;
      if t <= b {
        assert PowerOfTwo(|m.buffers[|oldBuffers|]|);
        v := GetItem(buffer, b);
      }
      Do(PopDecide);
    }

    method Race(b: int, v: Option<Ctx>) returns (won: bool)
      requires Valid() && m.owner == Racing(v) && b == m.bottom
      modifies this`top, this`run, this`m
      ensures Valid() && old(run) <= run && m.bottom == b && Grew(old(m), m)
      ensures m.owner == if won then Restoring(v) else Idle
      ensures won ==> FreshlyTaken(old(m), m, v)
      ensures !won ==> Deque(m) == []
    {
      PreemptOwner();
      SwapTakes(thieves, run);
      PopAnswers(thieves, run);
      won := top == b;
      if won {
        top := top + 1;
      }
      Do(PopSwap);
    }

    method Restore(b: int)
      requires Valid() && m.owner.Restoring? && b == m.bottom
      modifies this`top, this`bottom, this`run, this`m
      ensures Valid() && old(run) <= run && m.owner.Idle? && bottom == b + 1 && Grew(old(m), m)
      ensures Deque(m) == []
    {
      PreemptOwner();
      AlwaysInv(thieves, run);
      bottom := b + 1;
      Do(PopRestore);
    }

    /** pop(): the context of a push that nobody had been given before, or null when the deque is empty. */
    method Pop() returns (r: Option<Ctx>)
      requires Valid() && m.owner.Idle?
      modifies this`top, this`bottom, this`run, this`m
      ensures Valid() && old(run) <= run && m.owner.Idle?
      ensures if r.Some? then FreshlyTaken(old(m), m, r) else Deque(m) == []
    {
      var b := Lower();
      var t: nat;
      t, r := Decide(b);
      if t == b {
        var won := Race(b, r);
        if !won {
          return None;
        }
        Restore(b);
      } else if t > b {
        Restore(b);
      }
    }

    method LoadIndex(ghost p: nat) returns (t: nat)
      requires Valid() && p < thieves && m.thieves[p].Away?
      modifies this, buffer
      ensures Valid() && old(run) <= run && (buffer == old(buffer) || fresh(buffer)) && Grew(old(m), m)
      ensures m.thieves[p] == HasTop(t) && old(m).top <= t == m.top
    {
      PreemptThief(p);
      t := top;
      Do(StealTop(p));
    }

    /** The thief's look at bottom_. */
    method SeesEntry(ghost p: nat, t: nat) returns (found: bool)
      requires Valid() && p < thieves && m.thieves[p] == HasTop(t)
      modifies this, buffer
      ensures Valid() && old(run) <= run && (buffer == old(buffer) || fresh(buffer)) && Grew(old(m), m)
      ensures m.thieves[p] == if found then HasBottom(t) else Away
      ensures !found ==> Runs.Passes(Apply, Init(thieves), run, |old(run)|, NothingToSteal)
    {
      PreemptThief(p);
      found := t < bottom;
      StealAnswers(thieves, run, p);
      if !found { Runs.PassesNow(Apply, Init(thieves), run, m, |old(run)|, StealBottom(p), NothingToSteal); }
      Do(StealBottom(p));
    }

    method LoadBuffer(ghost p: nat, ghost t: nat) returns (a: array<Option<Ctx>>, ghost k: nat)
      requires Valid() && p < thieves && m.thieves[p] == HasBottom(t)
      modifies this, buffer
      ensures Valid() && old(run) <= run && (buffer == old(buffer) || fresh(buffer)) && Grew(old(m), m)
      ensures m.thieves[p] == HasBuffer(t, k) && k < |Buffers()| && a == Buffers()[k]
    {
      PreemptThief(p);
      a, k := buffer, |oldBuffers|;
      Do(StealBuffer(p));
    }

    method ReadItem(ghost p: nat, t: nat) returns (v: Option<Ctx>)
      requires Valid() && p < thieves && m.thieves[p] == HasBottom(t)
      modifies this, buffer
      ensures Valid() && old(run) <= run && (buffer == old(buffer) || fresh(buffer)) && Grew(old(m), m)
      ensures m.thieves[p] == HasItem(t, v)
    {
      var a, k := LoadBuffer(p, t);
      PreemptThief(p);
      assert a == Buffers()[k] && a[..] == m.buffers[k];
      assert PowerOfTwo(|m.buffers[k]|);
      v := GetItem(a, t);
      Do(StealGet(p));
    }

    /** The thief's compare-and-swap of top_. */
    method SwapTop(ghost p: nat, t: nat, ghost v: Option<Ctx>) returns (won: bool)
      requires Valid() && p < thieves && m.thieves[p] == HasItem(t, v)
      modifies this, buffer
      ensures Valid() && old(run) <= run && m.thieves[p].Away? && Grew(old(m), m)
      ensures won ==> FreshlyTaken(old(m), m, v)
      ensures !won ==> t < m.top
    {
      PreemptThief(p);
      StealAnswers(thieves, run, p);
      StealTakes(thieves, run, p);
      won := top == t;
      if won {
        top := t + 1;
      }
      StepGrows(m, StealSwap(p));
      Do(StealSwap(p));
    }

    /** steal() by thief p: the context of a push that nobody had been given before; or null, when at some
        instant there was nothing to steal, or another has meanwhile taken the entry it was after. */
    method Steal(ghost p: nat) returns (r: Option<Ctx>)
      requires Valid() && p < thieves && m.thieves[p].Away?
      modifies this, buffer
      ensures Valid() && old(run) <= run && m.thieves[p].Away?
      ensures r.Some? ==> FreshlyTaken(old(m), m, r)
      ensures r == None ==>
        || Runs.Passes(Apply, Init(thieves), run, |old(run)|, NothingToSteal)
        || (old(m).top < m.top && |old(m).taken| < |m.taken|)
    {
      r := None;
      var t := LoadIndex(p);
      var found := SeesEntry(p, t);
      if found {
        var v := ReadItem(p, t);
        var won := SwapTop(p, t, v);
        if won {
          r := v;
        }
      }
    }
  }

  /** The last push taken in s' carries value v and was not taken in s. */
  ghost predicate FreshlyTaken(s: State, s': State, v: Option<Ctx>) {
    exists k :: |s.taken| <= k < |s'.taken| && s'.taken[k] < |s'.pushed| && v == Some(s'.pushed[s'.taken[k]])
      && s'.taken[k] !in s.taken
  }

  lemma DecideTakes(n: nat, run: seq<Step>)
    ensures var s := Runs.Exec(Apply, Init(n), run);
      s.owner.Lowered? && s.top < s.bottom ==>
        FreshlyTaken(s, Apply(s, PopDecide), Get(Buffer(s), s.bottom))
  {
    AlwaysInv(n, run);
    var s := Runs.Exec(Apply, Init(n), run);
    if s.owner.Lowered? && s.top < s.bottom {
      assert Live(s, Buffer(s), s.bottom);
      assert Apply(s, PopDecide).taken[|s.taken|] == s.at[s.bottom];
    }
  }

  lemma SwapTakes(n: nat, run: seq<Step>)
    ensures var s := Runs.Exec(Apply, Init(n), run);
      s.owner.Racing? && s.top == s.bottom ==> FreshlyTaken(s, Apply(s, PopSwap), s.owner.v)
  {
    AlwaysInv(n, run);
    var s := Runs.Exec(Apply, Init(n), run);
    if s.owner.Racing? && s.top == s.bottom {
      assert Live(s, Buffer(s), s.top);
      assert Apply(s, PopSwap).taken[|s.taken|] == s.at[s.top];
    }
  }

  lemma StealTakes(n: nat, run: seq<Step>, p: nat)
    ensures var s := Runs.Exec(Apply, Init(n), run);
      p < |s.thieves| && s.thieves[p].HasItem? && s.top == s.thieves[p].t ==>
        FreshlyTaken(s, Apply(s, StealSwap(p)), s.thieves[p].v)
  {
    AlwaysInv(n, run);
    var s := Runs.Exec(Apply, Init(n), run);
    if p < |s.thieves| && s.thieves[p].HasItem? && s.top == s.thieves[p].t {
      assert ThiefInv(s, s.thieves[p]);
      assert Live(s, Buffer(s), s.top);
      assert Apply(s, StealSwap(p)).taken[|s.taken|] == s.at[s.top];
    }
  }

  lemma IdleBottom(n: nat, run: seq<Step>)
    ensures var s := Runs.Exec(Apply, Init(n), run); s.owner.Idle? ==> s.bottom >= 0
  {
    AlwaysInv(n, run);
  }
}
