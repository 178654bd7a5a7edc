/** The fiber scheduler of one thread with its round-robin algorithm: hand-over of the processor, sleeping,
    joining, termination, and the lifetime of worker contexts. Only the active context runs, so each step
    is one operation of the active context, up to the switch it causes. */
module Scheduler {
  import opened Options
  import opened Lists
  import Runs

  type Ctx = nat

  const MAIN: Ctx := 0
  const DISPATCHER: Ctx := 1
  const FIRST_WORKER: Ctx := 2

  /** The largest time point, a context's deadline when it does not sleep. */
  const NEVER := 0x7fff_ffff_ffff_ffff

  /** `handle` tells whether the fiber object still refers to the context, `joining` whom it waits for. */
  datatype Context = Context(
    terminated: bool, use: nat, handle: bool, tp: int, waiters: seq<Ctx>, joining: Option<Ctx>)

  /** Contexts are numbered in order of creation. `nullNext` records that get_next_ found no context for
      one that gave up the processor; `destroyed` logs destructions. */
  datatype State = State(
    ctx: seq<Context>, active: Ctx, ready: seq<Ctx>, sleep: seq<Ctx>, terminated: seq<Ctx>, worker: seq<Ctx>,
    shutdown: bool, done: bool, nullNext: bool, destroyed: seq<Ctx>)

  datatype Launch = Post | Dispatched

  datatype Step =
    | Create(policy: Launch)       // fiber construction: start_
    | Yield
    | SleepUntil(tp: int)          // wait_until, alone or from a timed wait
    | Suspend                      // blocked in some wait queue
    | Ready(c: Ctx)                // taken out of that queue by the active context
    | Finish                       // the fiber function returns: set_terminated
    | Join(c: Ctx)
    | JoinReturns                  // the joiner has been resumed
    | Detach(c: Ctx)
    | BeginShutdown                // the scheduler's destructor, on the main context
    | Dispatch(now: int)           // one round of dispatch()'s loop

  function Init(): State {
    State([Context(false, 1, false, NEVER, [], None), Context(false, 1, false, NEVER, [], None)],
          MAIN, [DISPATCHER], [], [], [], false, false, false, [])
  }

  // ---- the parts of a step

  function SetReady(s: State, c: Ctx): State {
    s.(sleep := Remove(s.sleep, c), ready := Remove(s.ready, c) + [c])
  }

  /** get_next_()->resume(): round robin takes the front of the ready queue. */
  function Switch(s: State): State {
    if s.ready == [] then s.(nullNext := true) else s.(active := s.ready[0], ready := s.ready[1..])
  }

  function Tp(s: State, c: Ctx): int {
    if c < |s.ctx| then s.ctx[c].tp else NEVER
  }

  /** The sleep queue is a multiset ordered by deadline: a context goes behind those of its own deadline. */
  function Insert(s: State, q: seq<Ctx>, c: Ctx): seq<Ctx>
    decreases |q|
  {
    if q == [] || Tp(s, q[|q| - 1]) <= Tp(s, c) then q + [c]
    else Insert(s, q[..|q| - 1], c) + [q[|q| - 1]]
  }

  function SleepLink(s: State, c: Ctx, tp: int): State
    requires c < |s.ctx|
  {
    var t := s.(ctx := s.ctx[c := s.ctx[c].(tp := tp)]);
    t.(sleep := Insert(t, s.sleep, c))
  }

  /** intrusive_ptr_release: the last reference destroys the context. */
  function Release(s: State, c: Ctx): State
    requires c < |s.ctx|
  {
    var u := if s.ctx[c].use > 0 then s.ctx[c].use - 1 else 0;
    s.(ctx := s.ctx[c := s.ctx[c].(use := u)], destroyed := if u == 0 then s.destroyed + [c] else s.destroyed)
  }

  /** impl_.reset() of the fiber object. */
  function DropHandle(s: State, c: Ctx): State
    requires c < |s.ctx|
  {
    if s.ctx[c].handle then Release(s.(ctx := s.ctx[c := s.ctx[c].(handle := false)]), c) else s
  }

  function NewContext(s: State): State {
    s.(ctx := s.ctx + [Context(false, 2, true, NEVER, [], None)], worker := s.worker + [|s.ctx|])
  }

  function Flag(s: State, c: Ctx): State
    requires c < |s.ctx|
  {
    s.(ctx := s.ctx[c := s.ctx[c].(terminated := true)])
  }

  function WakeFront(s: State, c: Ctx): State
    requires c < |s.ctx| && s.ctx[c].waiters != []
  {
    SetReady(s.(ctx := s.ctx[c := s.ctx[c].(waiters := s.ctx[c].waiters[1..])]), s.ctx[c].waiters[0])
  }

  /** The loop of set_terminated: every joiner becomes ready. */
  function WakeJoiners(s: State, c: Ctx): State
    requires c < |s.ctx|
    decreases |s.ctx[c].waiters|
  {
    if s.ctx[c].waiters == [] then s else WakeJoiners(WakeFront(s, c), c)
  }

  function LinkJoiner(s: State, a: Ctx, c: Ctx): State
    requires a < |s.ctx| && c < |s.ctx|
  {
    var t := s.(ctx := s.ctx[c := s.ctx[c].(waiters := s.ctx[c].waiters + [a])]);
    t.(ctx := t.ctx[a := t.ctx[a].(joining := Some(c))])
  }

  function SweepOne(s: State): State
    requires s.terminated != [] && s.terminated[0] < |s.ctx|
  {
    var c := s.terminated[0];
    Release(s.(worker := Remove(s.worker, c), terminated := s.terminated[1..]), c)
  }

  /** release_terminated_ */
  function Sweep(s: State): State
    decreases |s.terminated|
  {
    if s.terminated == [] || s.terminated[0] >= |s.ctx| then s else Sweep(SweepOne(s))
  }

  function ExpireOne(s: State): State
    requires s.sleep != [] && s.sleep[0] < |s.ctx|
  {
    var c := s.sleep[0];
    s.(sleep := s.sleep[1..], ctx := s.ctx[c := s.ctx[c].(tp := NEVER)], ready := s.ready + [c])
  }

  /** sleep2ready_ */
  function Expire(s: State, now: int): State
    decreases |s.sleep|
  {
    if s.sleep == [] || s.sleep[0] >= |s.ctx| || s.ctx[s.sleep[0]].tp > now then s else Expire(ExpireOne(s), now)
  }

  function CreateStep(s: State, policy: Launch): State {
    var t := NewContext(s);
    match policy
    case Post => SetReady(t, |s.ctx|)
    case Dispatched => SetReady(t.(active := |s.ctx|), s.active)
  }

  function FinishStep(s: State): State
    requires s.active < |s.ctx|
  {
    var t := WakeJoiners(Flag(s, s.active), s.active);
    Switch(t.(terminated := t.terminated + [s.active]))
  }

  /** fiber::join: errors leave everything alone; a terminated fiber is not waited for. */
  function JoinStep(s: State, c: Ctx): State
    requires s.active < |s.ctx| && c < |s.ctx|
  {
    if c == s.active || !s.ctx[c].handle then s
    else if s.ctx[c].terminated then DropHandle(s, c)
    else Switch(LinkJoiner(s, s.active, c))
  }

  function JoinDone(s: State): State
    requires s.active < |s.ctx|
  {
    s.(ctx := s.ctx[s.active := s.ctx[s.active].(joining := None)])
  }

  /** The worker queue is looked at before the terminated contexts are released. */
  function DispatchStep(s: State, now: int): State {
    if s.shutdown && s.worker == [] then Sweep(s).(active := MAIN, done := true)
    else
      var t := Expire(Sweep(s), now);
      if t.ready == [] then t else SetReady(Switch(t), DISPATCHER)
  }

  predicate User(s: State) {
    !s.done && s.active != DISPATCHER && s.active < |s.ctx| && s.ctx[s.active].joining == None
  }

  /** A context that can sit in a wait queue: nobody readies the dispatcher, a joiner other than by the
      termination it waits for, or main in the scheduler's destructor. */
  predicate CanBeReadied(s: State, c: Ctx) {
    && c < |s.ctx| && c != s.active && c != DISPATCHER && !s.ctx[c].terminated && s.ctx[c].joining == None
    && !(c == MAIN && s.shutdown)
  }

  predicate Enabled(s: State, a: Step) {
    match a
    case Ready(c) => User(s) && CanBeReadied(s, c)
    case Finish => User(s) && s.active >= FIRST_WORKER
    case Join(c) => User(s) && FIRST_WORKER <= c < |s.ctx|
    case Detach(c) => User(s) && FIRST_WORKER <= c < |s.ctx|
    case JoinReturns =>
      !s.done && s.active < |s.ctx| && s.ctx[s.active].joining.Some? && s.ctx[s.active].joining.value < |s.ctx|
    case BeginShutdown => User(s) && s.active == MAIN && !s.shutdown
    case Dispatch(_) => !s.done && s.active == DISPATCHER
    case _ => User(s)
  }

  function Apply(s: State, a: Step): State {
    if !Enabled(s, a) then s else
    match a
    case Create(policy) => CreateStep(s, policy)
    case Yield => SetReady(Switch(s), s.active)
    case SleepUntil(tp) => Switch(SleepLink(s, s.active, tp))
    case Suspend => Switch(s)
    case Ready(c) => SetReady(s, c)
    case Finish => FinishStep(s)
    case Join(c) => JoinStep(s, c)
    case JoinReturns => DropHandle(JoinDone(s), s.ctx[s.active].joining.value)
    case Detach(c) => DropHandle(s, c)
    case BeginShutdown => Switch(s.(shutdown := true))
    case Dispatch(now) => DispatchStep(s, now)
  }

  // ---- the invariant

  predicate Placed(s: State, c: Ctx) {
    c == s.active || c in s.ready || c in s.sleep || c in s.terminated
  }

  /** `dying` says that the active context is between its last instruction and its terminated_link. */
  ghost predicate PlaceInv(s: State, c: Ctx, dying: bool) {
    && (Placed(s, c) ==> c < |s.ctx|)
    && (c in s.ready ==> c != s.active && c !in s.sleep && !s.ctx[c].terminated)
    && (c in s.sleep ==> c != s.active && c != DISPATCHER && !s.ctx[c].terminated)
    && (c in s.terminated ==> c != s.active && c >= FIRST_WORKER && s.ctx[c].terminated)
    && (c == s.active ==> (s.ctx[c].terminated <==> dying))
  }

  ghost predicate LifeInv(s: State, c: Ctx, dying: bool)
    requires c < |s.ctx|
  {
    && (s.ctx[c].terminated ==> c >= FIRST_WORKER)
    && (c in s.worker <==> c >= FIRST_WORKER && (!s.ctx[c].terminated || c in s.terminated || (dying && c == s.active)))
    && (c >= FIRST_WORKER ==> s.ctx[c].use == (if c in s.worker then 1 else 0) + (if s.ctx[c].handle then 1 else 0))
    && (c in s.destroyed <==> c >= FIRST_WORKER && s.ctx[c].use == 0)
  }

  /** Whoever waits in a join queue is suspended there; and whoever is past it finds its fiber terminated. */
  ghost predicate JoinInv(s: State, c: Ctx)
    requires c < |s.ctx|
  {
    && Distinct(s.ctx[c].waiters)
    && (forall a :: a in s.ctx[c].waiters ==> a < |s.ctx| && s.ctx[a].joining == Some(c) && !Placed(s, a) && !s.ctx[a].terminated)
    && (s.ctx[c].joining.Some? ==> var d := s.ctx[c].joining.value;
          && FIRST_WORKER <= d < |s.ctx| && c != DISPATCHER && !s.ctx[c].terminated
          && (if Placed(s, c) then s.ctx[d].terminated else c in s.ctx[d].waiters))
  }

  ghost predicate Sorted(s: State) {
    forall i, j :: 0 <= i < j < |s.sleep| ==> Tp(s, s.sleep[i]) <= Tp(s, s.sleep[j])
  }

  ghost predicate Core(s: State, dying: bool) {
    && |s.ctx| >= 2 && s.active < |s.ctx| && !s.nullNext
    && Distinct(s.ready) && Distinct(s.sleep) && Distinct(s.terminated) && Distinct(s.destroyed)
    && (forall c: Ctx :: PlaceInv(s, c, dying))
    && (forall c: Ctx :: c < |s.ctx| ==> LifeInv(s, c, dying) && JoinInv(s, c))
    && (forall c :: c in s.worker || c in s.destroyed ==> c < |s.ctx|)
    && Sorted(s)
    && (s.shutdown && !s.done ==> !Placed(s, MAIN) && s.ctx[MAIN].joining == None)
  }

  /** The dispatcher is never lost: it runs or is ready, until it leaves its loop for good. */
  ghost predicate Hand(s: State) {
    && (!s.done ==> s.active == DISPATCHER || DISPATCHER in s.ready)
    && (s.done ==> s.shutdown && s.active == MAIN && s.ready == [] && s.sleep == [] && s.terminated == [] && s.worker == [])
    && (forall c: Ctx :: c < |s.ctx| && s.ctx[c].terminated ==> s.ctx[c].waiters == [])
  }

  ghost predicate Inv(s: State) {
    Core(s, false) && Hand(s)
  }
  // ---- each part keeps the core

  lemma SwitchKeeps(s: State)
    requires Core(s, false) && s.ready != [] && s.ctx[s.active].joining == None
    ensures Core(Switch(s), false) && !Placed(Switch(s), s.active)
    ensures forall c: Ctx :: c != s.active ==> (Placed(Switch(s), c) <==> Placed(s, c))
  {
    Behind(s.ready);
    assert PlaceInv(s, s.active, false);
    assert PlaceInv(s, s.ready[0], false);
    var s' := Switch(s);
    assert !Placed(s', s.active);
    forall c: Ctx ensures PlaceInv(s', c, false) { assert PlaceInv(s, c, false); }
    forall c: Ctx | c < |s'.ctx| ensures LifeInv(s', c, false) && JoinInv(s', c) {
      assert LifeInv(s, c, false) && JoinInv(s, c);
    }
  }

  lemma SetReadyMembers(s: State, c: Ctx)
    requires Distinct(s.ready) && Distinct(s.sleep)
    ensures var s' := SetReady(s, c);
      && Distinct(s'.sleep) && (c !in Remove(s.ready, c) && Distinct(Remove(s.ready, c)))
      && forall d: Ctx :: (d in s'.ready <==> d in s.ready || d == c) && (d in s'.sleep <==> d in s.sleep && d != c)
  {
    RemoveMembers(s.ready, c);
    RemoveMembers(s.sleep, c);
    RemoveDistinct(s.ready, c);
    RemoveDistinct(s.sleep, c);
  }

  lemma {:induction false} RemoveSorted(s: State, q: seq<Ctx>, c: Ctx)
    requires forall i, j :: 0 <= i < j < |q| ==> Tp(s, q[i]) <= Tp(s, q[j])
    ensures forall i, j :: 0 <= i < j < |Remove(q, c)| ==> Tp(s, Remove(q, c)[i]) <= Tp(s, Remove(q, c)[j])
  {
    if q != [] {
      RemoveSorted(s, q[1..], c);
      RemoveMembers(q[1..], c);
      var r := Remove(q[1..], c);
      forall j | 0 <= j < |r| ensures Tp(s, q[0]) <= Tp(s, r[j]) { assert r[j] in r; }
    }
  }

  /** A context readied while it waits, sleeps or is ready already. A joiner only once its fiber is gone. */
  lemma SetReadyKeeps(s: State, c: Ctx, dying: bool)
    requires Core(s, dying) && c < |s.ctx| && c != s.active && !s.ctx[c].terminated
    requires forall d: Ctx :: d < |s.ctx| ==> c !in s.ctx[d].waiters
    requires s.ctx[c].joining.Some? && s.ctx[c].joining.value < |s.ctx| ==> s.ctx[s.ctx[c].joining.value].terminated
    requires c == MAIN ==> !s.shutdown || s.done
    ensures Core(SetReady(s, c), dying)
  {
    SetReadyMembers(s, c);
    RemoveSorted(s, s.sleep, c);
    var s' := SetReady(s, c);
    assert PlaceInv(s, c, dying);
    assert forall d: Ctx :: Placed(s', d) <==> Placed(s, d) || d == c;
    forall d: Ctx ensures PlaceInv(s', d, dying) { assert PlaceInv(s, d, dying); }
    forall d: Ctx | d < |s'.ctx| ensures LifeInv(s', d, dying) && JoinInv(s', d) {
      assert LifeInv(s, d, dying) && JoinInv(s, d);
    }
  }

  lemma {:induction false} InsertMembers(s: State, q: seq<Ctx>, c: Ctx)
    requires Distinct(q) && c !in q
    requires forall i, j :: 0 <= i < j < |q| ==> Tp(s, q[i]) <= Tp(s, q[j])
    ensures var r := Insert(s, q, c);
      && Distinct(r) && (forall d: Ctx :: d in r <==> d in q || d == c)
      && (forall i, j :: 0 <= i < j < |r| ==> Tp(s, r[i]) <= Tp(s, r[j]))
    decreases |q|
  {
    if q != [] && Tp(s, q[|q| - 1]) > Tp(s, c) {
      var p := q[..|q| - 1];
      assert q == p + [q[|q| - 1]];
      InsertMembers(s, p, c);
      var r := Insert(s, p, c);
      forall j | 0 <= j < |r| ensures Tp(s, r[j]) <= Tp(s, q[|q| - 1]) && r[j] != q[|q| - 1] { assert r[j] in r; }
    } else if q != [] {
      forall i | 0 <= i < |q| ensures Tp(s, q[i]) <= Tp(s, c) { assert Tp(s, q[i]) <= Tp(s, q[|q| - 1]); }
    }
  }

  lemma SleepKeeps(s: State, c: Ctx, tp: int)
    requires Core(s, false) && c < |s.ctx| && c != DISPATCHER && !Placed(s, c) && !s.ctx[c].terminated && s.ctx[c].joining == None
    requires forall d: Ctx :: d < |s.ctx| ==> c !in s.ctx[d].waiters
    requires c == MAIN ==> !s.shutdown
    ensures Core(SleepLink(s, c, tp), false)
  {
    var t := s.(ctx := s.ctx[c := s.ctx[c].(tp := tp)]);
    assert forall d: Ctx :: d != c ==> Tp(t, d) == Tp(s, d);
    InsertMembers(t, s.sleep, c);
    var s' := SleepLink(s, c, tp);
    assert forall d: Ctx :: Placed(s', d) <==> Placed(s, d) || d == c;
    forall d: Ctx ensures PlaceInv(s', d, false) { assert PlaceInv(s, d, false); }
    forall d: Ctx | d < |s'.ctx| ensures LifeInv(s', d, false) && JoinInv(s', d) { SleeperKeeps(s, s', c, d); }
  }

  lemma SleeperKeeps(s: State, s': State, c: Ctx, d: Ctx)
    requires c < |s.ctx| && d < |s.ctx| && LifeInv(s, d, false) && JoinInv(s, d) && s.ctx[c].joining == None
    requires forall e: Ctx :: e < |s.ctx| ==> c !in s.ctx[e].waiters
    requires |s'.ctx| == |s.ctx| && s' == s.(ctx := s.ctx[c := s.ctx[c].(tp := s'.ctx[c].tp)], sleep := s'.sleep)
    requires forall e: Ctx :: Placed(s', e) <==> Placed(s, e) || e == c
    ensures LifeInv(s', d, false) && JoinInv(s', d)
  {
  }

  /** A new worker is referred to by the scheduler and by its fiber object. */
  lemma NewKeeps(s: State)
    requires Core(s, false)
    ensures Core(NewContext(s), false) && !Placed(NewContext(s), |s.ctx|)
    ensures forall d: Ctx :: d <= |s.ctx| ==> |s.ctx| !in NewContext(s).ctx[d].waiters
  {
    var s' := NewContext(s);
    assert PlaceInv(s, |s.ctx|, false);
    forall d: Ctx ensures PlaceInv(s', d, false) { assert PlaceInv(s, d, false); }
    forall d: Ctx | d < |s'.ctx| ensures LifeInv(s', d, false) && JoinInv(s', d) {
      assert d < |s.ctx| ==> LifeInv(s, d, false) && JoinInv(s, d);
    }
    forall d: Ctx | d <= |s.ctx| ensures |s.ctx| !in s'.ctx[d].waiters { assert d < |s.ctx| ==> JoinInv(s, d); }
  }

  /** A launch with policy dispatch: the new context runs, the creator is suspended for the moment. */
  lemma LaunchKeeps(s: State, c: Ctx)
    requires Core(s, false) && c < |s.ctx| && c >= FIRST_WORKER && !Placed(s, c) && !s.ctx[c].terminated
    requires s.ctx[c].joining == None && s.ctx[s.active].joining == None
    requires forall d: Ctx :: d < |s.ctx| ==> c !in s.ctx[d].waiters
    ensures Core(s.(active := c), false) && !Placed(s.(active := c), s.active)
  {
    assert PlaceInv(s, s.active, false);
    var s' := s.(active := c);
    forall d: Ctx ensures PlaceInv(s', d, false) { assert PlaceInv(s, d, false); }
    forall d: Ctx | d < |s'.ctx| ensures LifeInv(s', d, false) && JoinInv(s', d) {
      assert LifeInv(s, d, false) && JoinInv(s, d);
    }
  }

  lemma NotWaiting(s: State, c: Ctx)
    requires Core(s, false) && c < |s.ctx| && (Placed(s, c) || s.ctx[c].joining == None)
    ensures forall d: Ctx :: d < |s.ctx| ==> c !in s.ctx[d].waiters
  {
    forall d: Ctx | d < |s.ctx| ensures c !in s.ctx[d].waiters { assert JoinInv(s, d); }
  }

  lemma ReleaseHandleKeeps(s: State, c: Ctx)
    requires Core(s, false) && FIRST_WORKER <= c < |s.ctx|
    ensures Core(DropHandle(s, c), false)
    ensures DropHandle(s, c).ctx[c].terminated == s.ctx[c].terminated
  {
    var s' := DropHandle(s, c);
    assert LifeInv(s, c, false);
    assert forall d: Ctx :: Placed(s', d) <==> Placed(s, d);
    forall d: Ctx ensures PlaceInv(s', d, false) { assert PlaceInv(s, d, false); }
    forall d: Ctx | d < |s'.ctx| ensures LifeInv(s', d, false) && JoinInv(s', d) {
      assert LifeInv(s, d, false) && JoinInv(s, d);
    }
    assert forall d: Ctx :: Tp(s', d) == Tp(s, d);
  }

  lemma JoinDoneKeeps(s: State)
    requires Core(s, false)
    ensures Core(JoinDone(s), false)
  {
    var s' := JoinDone(s);
    assert forall d: Ctx :: Placed(s', d) <==> Placed(s, d);
    forall d: Ctx ensures PlaceInv(s', d, false) { assert PlaceInv(s, d, false); }
    forall d: Ctx | d < |s'.ctx| ensures LifeInv(s', d, false) && JoinInv(s', d) {
      assert LifeInv(s, d, false) && JoinInv(s, d);
    }
    assert forall d: Ctx :: Tp(s', d) == Tp(s, d);
  }

  lemma LinkJoinerKeeps(s: State, a: Ctx, c: Ctx)
    requires Core(s, false) && a < |s.ctx| && FIRST_WORKER <= c < |s.ctx| && a != c && a != DISPATCHER
    requires a == MAIN ==> !s.shutdown
    requires !Placed(s, a) && s.ctx[a].joining == None && !s.ctx[a].terminated && !s.ctx[c].terminated
    ensures Core(LinkJoiner(s, a, c), false)
  {
    NotWaiting(s, a);
    var s' := LinkJoiner(s, a, c);
    assert forall d: Ctx :: Placed(s', d) <==> Placed(s, d);
    forall d: Ctx ensures PlaceInv(s', d, false) { assert PlaceInv(s, d, false); }
    forall d: Ctx | d < |s'.ctx| ensures LifeInv(s', d, false) && JoinInv(s', d) { LinkedJoiner(s, a, c, d); }
    assert forall d: Ctx :: Tp(s', d) == Tp(s, d);
  }

  lemma LinkedJoiner(s: State, a: Ctx, c: Ctx, d: Ctx)
    requires a < |s.ctx| && FIRST_WORKER <= c < |s.ctx| && a != c && a != DISPATCHER && d < |s.ctx|
    requires !Placed(s, a) && s.ctx[a].joining == None && !s.ctx[a].terminated && !s.ctx[c].terminated
    requires LifeInv(s, d, false) && JoinInv(s, d) && forall e: Ctx :: e < |s.ctx| ==> a !in s.ctx[e].waiters
    ensures LifeInv(LinkJoiner(s, a, c), d, false) && JoinInv(LinkJoiner(s, a, c), d)
  {
  }

  // ---- termination

  lemma FlagKeeps(s: State)
    requires Core(s, false) && FIRST_WORKER <= s.active < |s.ctx| && s.ctx[s.active].joining == None
    ensures Core(Flag(s, s.active), true)
  {
    var s' := Flag(s, s.active);
    assert PlaceInv(s, s.active, false);
    assert forall d: Ctx :: Placed(s', d) <==> Placed(s, d);
    forall d: Ctx ensures PlaceInv(s', d, true) { assert PlaceInv(s, d, false); }
    forall d: Ctx | d < |s'.ctx| ensures LifeInv(s', d, true) && JoinInv(s', d) {
      assert LifeInv(s, d, false) && JoinInv(s, d);
      assert LifeInv(s, s.active, false) && JoinInv(s, s.active);
    }
    assert forall d: Ctx :: Tp(s', d) == Tp(s, d);
  }

  lemma WakeFrontPlaces(s: State, c: Ctx)
    requires Core(s, true) && c == s.active && s.ctx[c].waiters != []
    ensures var s' := WakeFront(s, c); var w := s.ctx[c].waiters[0];
      && Distinct(s'.ready) && Distinct(s'.sleep) && Sorted(s') && w < |s.ctx| && !Placed(s, w)
      && s' == s.(ctx := s.ctx[c := s.ctx[c].(waiters := s.ctx[c].waiters[1..])], ready := s'.ready, sleep := s'.sleep)
      && (forall d: Ctx :: Placed(s', d) <==> Placed(s, d) || d == w)
      && forall d: Ctx :: PlaceInv(s', d, true)
  {
    var w := s.ctx[c].waiters[0];
    assert JoinInv(s, c) && PlaceInv(s, c, true);
    Behind(s.ctx[c].waiters);
    var t := s.(ctx := s.ctx[c := s.ctx[c].(waiters := s.ctx[c].waiters[1..])]);
    SetReadyMembers(t, w);
    RemoveSorted(t, t.sleep, w);
    var s' := SetReady(t, w);
    assert forall d: Ctx :: Tp(s', d) == Tp(s, d) == Tp(t, d);
    forall d: Ctx ensures PlaceInv(s', d, true) { assert PlaceInv(s, d, true); }
  }

  lemma WakeFrontKeeps(s: State, c: Ctx)
    requires Core(s, true) && c == s.active && s.ctx[c].waiters != []
    ensures Core(WakeFront(s, c), true) && WakeFront(s, c).active == c
  {
    WakeFrontPlaces(s, c);
    assert JoinInv(s, c);
    Behind(s.ctx[c].waiters);
    var w := s.ctx[c].waiters[0];
    assert w in s.ctx[c].waiters && JoinInv(s, w) && s.ctx[w].joining == Some(c) && s.ctx[c].terminated by {
      assert PlaceInv(s, c, true);
    }
    var s' := WakeFront(s, c);
    forall d: Ctx | d < |s'.ctx| ensures LifeInv(s', d, true) && JoinInv(s', d) {
      assert LifeInv(s, d, true) && JoinInv(s, d);
    }
  }

  /** The loop only appends joiners to the ready queue and empties the join queue. */
  ghost predicate OnlyWoke(s: State, s': State, c: Ctx)
    requires c < |s.ctx|
  {
    && |s'.ctx| == |s.ctx| && s.ready <= s'.ready && s'.active == s.active
    && s'.terminated == s.terminated && s'.worker == s.worker && s'.shutdown == s.shutdown && s'.done == s.done
    && (forall d: Ctx :: d < |s.ctx| ==> s'.ctx[d].terminated == s.ctx[d].terminated && s'.ctx[d].joining == s.ctx[d].joining)
    && (forall d: Ctx :: d < |s.ctx| && d != c ==> s'.ctx[d].waiters == s.ctx[d].waiters)
  }

  lemma {:induction false} WakeJoinersKeeps(s: State, c: Ctx)
    requires Core(s, true) && c == s.active
    ensures var s' := WakeJoiners(s, c); Core(s', true) && OnlyWoke(s, s', c) && s'.ctx[c].waiters == []
    decreases |s.ctx[c].waiters|
  {
    if s.ctx[c].waiters != [] {
      WakeFrontKeeps(s, c);
      WakeFrontOnly(s, c);
      WakeJoinersKeeps(WakeFront(s, c), c);
    }
  }

  lemma WakeFrontOnly(s: State, c: Ctx)
    requires Core(s, true) && c == s.active && s.ctx[c].waiters != []
    ensures OnlyWoke(s, WakeFront(s, c), c)
  {
    assert JoinInv(s, c);
    Front(s.ctx[c].waiters);
    RemoveAbsent(s.ready, s.ctx[c].waiters[0]);
  }

  /** terminated_link and the switch away: the context never runs again. */
  lemma LeaveKeeps(s: State)
    requires Core(s, true) && s.ready != []
    ensures Core(Switch(s.(terminated := s.terminated + [s.active])), false)
  {
    Behind(s.ready);
    assert PlaceInv(s, s.active, true) && PlaceInv(s, s.ready[0], true) && LifeInv(s, s.active, true);
    var s' := Switch(s.(terminated := s.terminated + [s.active]));
    assert forall d: Ctx :: Placed(s', d) <==> Placed(s, d);
    forall d: Ctx ensures PlaceInv(s', d, false) { assert PlaceInv(s, d, true); }
    forall d: Ctx | d < |s'.ctx| ensures LifeInv(s', d, false) && JoinInv(s', d) {
      assert LifeInv(s, d, true) && JoinInv(s, d);
    }
  }

  // ---- the dispatcher's sweeps

  lemma SweepOneKeeps(s: State)
    requires Core(s, false) && s.terminated != []
    ensures s.terminated[0] < |s.ctx| && Core(SweepOne(s), false)
  {
    var c := s.terminated[0];
    Behind(s.terminated);
    RemoveMembers(s.worker, c);
    assert PlaceInv(s, c, false) && LifeInv(s, c, false);
    var s' := SweepOne(s);
    assert forall d: Ctx :: Placed(s', d) <==> Placed(s, d) && d != c;
    forall d: Ctx ensures PlaceInv(s', d, false) { assert PlaceInv(s, d, false); }
    forall d: Ctx | d < |s'.ctx| ensures LifeInv(s', d, false) && JoinInv(s', d) {
      assert LifeInv(s, d, false) && JoinInv(s, d);
    }
    assert forall d: Ctx :: Tp(s', d) == Tp(s, d);
  }

  ghost predicate OnlySwept(s: State, s': State) {
    && s'.ready == s.ready && s'.active == s.active && s'.sleep == s.sleep && |s'.ctx| == |s.ctx|
    && s'.shutdown == s.shutdown && s'.done == s.done
    && (forall d: Ctx :: d in s'.worker ==> d in s.worker)
    && (forall d: Ctx :: d < |s.ctx| ==>
          s'.ctx[d] == s.ctx[d].(use := s'.ctx[d].use))
  }

  lemma {:induction false} SweepKeeps(s: State)
    requires Core(s, false)
    ensures var s' := Sweep(s); Core(s', false) && s'.terminated == [] && OnlySwept(s, s')
    decreases |s.terminated|
  {
    if s.terminated != [] {
      SweepOneKeeps(s);
      RemoveMembers(s.worker, s.terminated[0]);
      SweepKeeps(SweepOne(s));
    }
  }

  /** A context stays where it is, but for the one that moves from the sleep queue to the ready queue. */
  lemma ExpireOnePlaces(s: State)
    requires Core(s, false) && s.sleep != []
    ensures s.sleep[0] < |s.ctx| && forall d: Ctx ::
      PlaceInv(ExpireOne(s), d, false) && (Placed(ExpireOne(s), d) <==> Placed(s, d))
  {
    Behind(s.sleep);
    assert PlaceInv(s, s.sleep[0], false);
    forall d: Ctx ensures PlaceInv(ExpireOne(s), d, false) { assert PlaceInv(s, d, false); }
  }

  lemma ExpireOneKeeps(s: State)
    requires Core(s, false) && s.sleep != []
    ensures s.sleep[0] < |s.ctx| && Core(ExpireOne(s), false)
  {
    ExpireOnePlaces(s);
    Behind(s.sleep);
    assert PlaceInv(s, s.sleep[0], false);
    var s' := ExpireOne(s);
    assert forall d: Ctx :: d != s.sleep[0] ==> Tp(s', d) == Tp(s, d);
    forall d: Ctx | d < |s'.ctx| ensures LifeInv(s', d, false) && JoinInv(s', d) {
      assert LifeInv(s, d, false) && JoinInv(s, d);
    }
  }

  /** Exactly the contexts whose deadline has come leave the sleep queue, and they become ready. */
  ghost predicate Expired(s: State, s': State, now: int) {
    && s.ready <= s'.ready && s'.active == s.active && |s'.ctx| == |s.ctx|
    && s'.terminated == s.terminated && s'.worker == s.worker && s'.shutdown == s.shutdown && s'.done == s.done
    && (forall c: Ctx :: c in s.sleep ==> if Tp(s, c) <= now then c in s'.ready && c !in s'.sleep else c in s'.sleep)
    && (forall c: Ctx :: c in s'.sleep ==> c in s.sleep && Tp(s', c) == Tp(s, c) > now)
    && (forall c: Ctx :: c < |s.ctx| ==> s'.ctx[c] == s.ctx[c].(tp := s'.ctx[c].tp))
  }

  lemma {:induction false} ExpireKeeps(s: State, now: int)
    requires Core(s, false)
    ensures Core(Expire(s, now), false) && Expired(s, Expire(s, now), now)
    decreases |s.sleep|
  {
    if s.sleep != [] {
      ExpireOneKeeps(s);
      Behind(s.sleep);
      if s.ctx[s.sleep[0]].tp <= now {
        ExpireKeeps(ExpireOne(s), now);
        ExpiredFront(s, Expire(s, now), now);
      } else {
        NoneExpired(s, now);
      }
    }
  }

  lemma NoneExpired(s: State, now: int)
    requires Core(s, false) && s.sleep != [] && Tp(s, s.sleep[0]) > now
    ensures forall c: Ctx :: c in s.sleep ==> Tp(s, c) > now
  {
    forall c: Ctx | c in s.sleep ensures Tp(s, c) > now {
      var j :| 0 <= j < |s.sleep| && s.sleep[j] == c;
      assert j > 0 ==> Tp(s, s.sleep[0]) <= Tp(s, s.sleep[j]);
    }
  }

  lemma ExpiredFront(s: State, s': State, now: int)
    requires Core(s, false) && s.sleep != [] && s.sleep[0] < |s.ctx| && Tp(s, s.sleep[0]) <= now
    requires Expired(ExpireOne(s), s', now)
    ensures Expired(s, s', now)
  {
    var t := ExpireOne(s);
    Behind(s.sleep);
    assert s.sleep[0] in t.ready;
    assert t.ready <= s'.ready;
    assert forall c :: c in t.ready ==> c in s'.ready;
  }

  // ---- every step

  /** A context that gives up the processor always finds one that takes it: the dispatcher is ready. */
  lemma SomebodyIsReady(s: State)
    requires Inv(s) && !s.done && s.active != DISPATCHER
    ensures s.ready != [] && DISPATCHER in s.ready
  {
  }

  lemma SwitchKeepsInv(s: State)
    requires Inv(s) && User(s)
    ensures Inv(Switch(s)) && !Placed(Switch(s), s.active) && s.ready != [] && !s.ctx[s.active].terminated
  {
    SwitchKeeps(s);
    Behind(s.ready);
    assert PlaceInv(s, s.active, false);
  }

  lemma SetReadyKeepsInv(s: State, c: Ctx)
    requires Inv(s) && !s.done && c < |s.ctx| && c != s.active && !s.ctx[c].terminated && s.ctx[c].joining == None
    requires c == MAIN ==> !s.shutdown
    ensures Inv(SetReady(s, c))
  {
    NotWaiting(s, c);
    SetReadyKeeps(s, c, false);
    RemoveMembers(s.ready, c);
  }

  lemma CreateKeepsInv(s: State, policy: Launch)
    requires Inv(s) && User(s)
    ensures Inv(CreateStep(s, policy))
  {
    NewKeeps(s);
    var t := NewContext(s);
    var c := |s.ctx|;
    assert PlaceInv(s, s.active, false);
    if policy == Post {
      SetReadyKeepsInv(t, c);
    } else {
      LaunchKeeps(t, c);
      SetReadyKeepsInv(t.(active := c), s.active);
    }
  }

  lemma YieldKeepsInv(s: State)
    requires Inv(s) && User(s)
    ensures Inv(SetReady(Switch(s), s.active))
  {
    SwitchKeepsInv(s);
    SetReadyKeepsInv(Switch(s), s.active);
  }

  lemma SleepKeepsInv(s: State, tp: int)
    requires Inv(s) && User(s)
    ensures Inv(Switch(SleepLink(s, s.active, tp)))
  {
    SwitchKeepsInv(s);
    NotWaiting(s, s.active);
    NotWaiting(Switch(s), s.active);
    SleepKeeps(Switch(s), s.active, tp);
    assert s.active == MAIN ==> !s.shutdown;
    SleepLater(s, tp);
  }

  /** Linking into the sleep queue and leaving the processor do not touch each other. */
  lemma SleepLater(s: State, tp: int)
    requires s.active < |s.ctx| && s.ready != []
    ensures Switch(SleepLink(s, s.active, tp)) == SleepLink(Switch(s), s.active, tp)
  {
    var t := s.(ctx := s.ctx[s.active := s.ctx[s.active].(tp := tp)]);
    SameInsert(t, Switch(t), s.sleep, s.active);
  }

  lemma {:induction false} SameInsert(s: State, t: State, q: seq<Ctx>, c: Ctx)
    requires s.ctx == t.ctx
    ensures Insert(s, q, c) == Insert(t, q, c)
    decreases |q|
  {
    if q != [] { SameInsert(s, t, q[..|q| - 1], c); }
  }

  lemma FinishKeepsInv(s: State)
    requires Inv(s) && Enabled(s, Finish)
    ensures Inv(FinishStep(s))
  {
    FlagKeeps(s);
    WakeJoinersKeeps(Flag(s, s.active), s.active);
    var t := WakeJoiners(Flag(s, s.active), s.active);
    assert s.ready <= t.ready;
    assert DISPATCHER in t.ready;
    LeaveKeeps(t);
    Behind(t.ready);
  }

  lemma JoinKeepsInv(s: State, c: Ctx)
    requires Inv(s) && Enabled(s, Join(c))
    ensures Inv(JoinStep(s, c))
  {
    assert PlaceInv(s, s.active, false);
    if c != s.active && s.ctx[c].handle {
      if s.ctx[c].terminated {
        DropHandleKeepsInv(s, c);
      } else {
        SwitchKeepsInv(s);
        LinkJoinerKeeps(Switch(s), s.active, c);
        assert Switch(LinkJoiner(s, s.active, c)) == LinkJoiner(Switch(s), s.active, c);
      }
    }
  }

  lemma DropHandleKeepsInv(s: State, c: Ctx)
    requires Inv(s) && FIRST_WORKER <= c < |s.ctx|
    ensures Inv(DropHandle(s, c))
  {
    ReleaseHandleKeeps(s, c);
  }

  lemma JoinReturnsKeepsInv(s: State)
    requires Inv(s) && Enabled(s, JoinReturns)
    ensures Inv(Apply(s, JoinReturns))
  {
    assert JoinInv(s, s.active);
    JoinDoneKeeps(s);
    DropHandleKeepsInv(JoinDone(s), s.ctx[s.active].joining.value);
  }

  lemma ShutdownKeepsInv(s: State)
    requires Inv(s) && Enabled(s, BeginShutdown)
    ensures Inv(Switch(s.(shutdown := true)))
  {
    SwitchKeepsInv(s);
    var t := Switch(s);
    var s' := t.(shutdown := true);
    assert s' == Switch(s.(shutdown := true));
    forall d: Ctx ensures PlaceInv(s', d, false) { assert PlaceInv(t, d, false); }
    forall d: Ctx | d < |s'.ctx| ensures LifeInv(s', d, false) && JoinInv(s', d) {
      assert LifeInv(t, d, false) && JoinInv(t, d);
    }
    assert forall d: Ctx :: Tp(s', d) == Tp(t, d);
  }

  /** The loop is left with nothing to do for anybody: sleepers and terminated contexts are workers. */
  lemma NothingLeft(s: State)
    requires Inv(s) && s.active == DISPATCHER && !s.done && s.shutdown && s.worker == []
    ensures s.terminated == [] && s.sleep == [] && s.ready == []
  {
    Front(s.terminated);
    Front(s.sleep);
    Front(s.ready);
    if s.terminated != [] { OnlyWorkers(s, s.terminated[0]); }
    if s.sleep != [] { OnlyWorkers(s, s.sleep[0]); }
    if s.ready != [] { OnlyWorkers(s, s.ready[0]); }
  }

  lemma OnlyWorkers(s: State, c: Ctx)
    requires Inv(s) && s.active == DISPATCHER && !s.done && s.shutdown && (c in s.sleep || c in s.ready || c in s.terminated)
    ensures c in s.worker
  {
    assert PlaceInv(s, c, false) && LifeInv(s, c, false);
  }

  lemma LeaveLoopKeepsInv(s: State)
    requires Inv(s) && s.active == DISPATCHER && !s.done && s.shutdown && s.worker == []
    ensures Sweep(s) == s && Inv(s.(active := MAIN, done := true))
  {
    NothingLeft(s);
    var s' := s.(active := MAIN, done := true);
    assert PlaceInv(s, DISPATCHER, false) && LifeInv(s, MAIN, false);
    forall d: Ctx ensures PlaceInv(s', d, false) { assert PlaceInv(s, d, false); }
    forall d: Ctx | d < |s'.ctx| ensures LifeInv(s', d, false) && JoinInv(s', d) {
      assert LifeInv(s, d, false) && JoinInv(s, d);
    }
  }

  /** A round that goes on: the terminated are released, the expired readied, the front resumed. */
  lemma RoundKeepsInv(s: State, now: int)
    requires Inv(s) && s.active == DISPATCHER && !s.done && !(s.shutdown && s.worker == [])
    ensures Inv(DispatchStep(s, now))
  {
    SweepKeeps(s);
    ExpireKeeps(Sweep(s), now);
    var t := Expire(Sweep(s), now);
    assert Hand(t);
    if t.ready != [] {
      assert JoinInv(t, DISPATCHER);
      SwitchKeeps(t);
      Behind(t.ready);
      assert PlaceInv(t, t.ready[0], false) && LifeInv(t, DISPATCHER, false);
      NotWaiting(Switch(t), DISPATCHER);
      SetReadyKeeps(Switch(t), DISPATCHER, false);
    }
  }

  lemma StepKeepsInv(s: State, a: Step)
    requires Inv(s)
    ensures Inv(Apply(s, a))
  {
    if Enabled(s, a) {
      match a
      case Create(policy) => CreateKeepsInv(s, policy);
      case Yield => YieldKeepsInv(s);
      case SleepUntil(tp) => SleepKeepsInv(s, tp);
      case Suspend => SwitchKeepsInv(s);
      case Ready(c) => SetReadyKeepsInv(s, c);
      case Finish => FinishKeepsInv(s);
      case Join(c) => JoinKeepsInv(s, c);
      case JoinReturns => JoinReturnsKeepsInv(s);
      case Detach(c) => DropHandleKeepsInv(s, c);
      case BeginShutdown => ShutdownKeepsInv(s);
      case Dispatch(now) =>
        if s.shutdown && s.worker == [] { LeaveLoopKeepsInv(s); } else { RoundKeepsInv(s, now); }
    }
  }

  lemma AlwaysInv(run: seq<Step>)
    ensures Inv(Runs.Exec(Apply, Init(), run))
  {
    assert forall c: Ctx :: PlaceInv(Init(), c, false);
    assert forall c: Ctx :: c < 2 ==> LifeInv(Init(), c, false) && JoinInv(Init(), c);
    forall s: State, a: Step | Inv(s) ensures Inv(Apply(s, a)) { StepKeepsInv(s, a); }
    Runs.Invariant(Apply, Inv, Init(), run);
  }

  // ---- what the scheduler promises

  /** At every switch point the dispatcher runs or is ready until it has left its loop; the queues are
      free of duplicates, disjoint, and without the active context; sleepers are in deadline order; and
      get_next_ has always found a context. */
  lemma HandOver(run: seq<Step>)
    ensures var s := Runs.Exec(Apply, Init(), run);
      && (!s.done ==> s.active == DISPATCHER || DISPATCHER in s.ready) && !s.nullNext
      && Distinct(s.ready) && Distinct(s.sleep) && Distinct(s.terminated) && Sorted(s)
      && forall c: Ctx ::
           && (c in s.ready ==> c !in s.sleep && c !in s.terminated && c != s.active)
           && (c in s.sleep ==> c !in s.terminated && c != s.active)
           && (c in s.terminated ==> c != s.active)
  {
    AlwaysInv(run);
    var s := Runs.Exec(Apply, Init(), run);
    forall c: Ctx ensures
      && (c in s.ready ==> c !in s.sleep && c !in s.terminated && c != s.active)
      && (c in s.sleep ==> c !in s.terminated && c != s.active)
      && (c in s.terminated ==> c != s.active)
    {
      assert PlaceInv(s, c, false);
    }
  }

  /** A worker context is destroyed at most once, and exactly when it has terminated, has been swept by
      release_terminated_, and its fiber object has let go of it. */
  lemma DestroyedExactlyOnce(run: seq<Step>, c: Ctx)
    ensures var s := Runs.Exec(Apply, Init(), run);
      && Distinct(s.destroyed)
      && (c in s.destroyed <==>
            FIRST_WORKER <= c < |s.ctx| && s.ctx[c].terminated && c !in s.terminated && c !in s.worker && !s.ctx[c].handle)
  {
    AlwaysInv(run);
    var s := Runs.Exec(Apply, Init(), run);
    if c < |s.ctx| { assert LifeInv(s, c, false) && PlaceInv(s, c, false); }
  }

  /** Nothing is destroyed while anybody may still touch it. */
  lemma DestroyedIsUnreachable(run: seq<Step>, c: Ctx)
    ensures var s := Runs.Exec(Apply, Init(), run);
      c in s.destroyed ==> c < |s.ctx| && !Placed(s, c) && !s.ctx[c].handle && s.ctx[c].waiters == []
  {
    AlwaysInv(run);
    var s := Runs.Exec(Apply, Init(), run);
    if c in s.destroyed { assert LifeInv(s, c, false) && PlaceInv(s, c, false); }
  }

  /** The dispatcher leaves its loop only with worker, terminated and sleep queues empty; by then every
      fiber has terminated, and those whose objects let go have been destroyed. */
  lemma ShutdownDrains(run: seq<Step>, c: Ctx)
    ensures var s := Runs.Exec(Apply, Init(), run);
      s.done ==>
        && s.worker == [] && s.terminated == [] && s.sleep == [] && s.ready == [] && s.active == MAIN
        && (FIRST_WORKER <= c < |s.ctx| ==> s.ctx[c].terminated && (c in s.destroyed <==> !s.ctx[c].handle))
  {
    AlwaysInv(run);
    var s := Runs.Exec(Apply, Init(), run);
    if c < |s.ctx| { assert LifeInv(s, c, false); }
  }

  /** join comes back only after its fiber has terminated. */
  lemma JoinWaitsForTermination(run: seq<Step>)
    ensures var s := Runs.Exec(Apply, Init(), run);
      Enabled(s, JoinReturns) ==> s.ctx[s.ctx[s.active].joining.value].terminated
  {
    AlwaysInv(run);
    var s := Runs.Exec(Apply, Init(), run);
    if Enabled(s, JoinReturns) { assert JoinInv(s, s.active); }
  }

  /** A round of the dispatcher readies exactly the sleepers whose deadline has come; the front of what
      is then ready runs next, with the dispatcher at the back. */
  lemma RoundReadiesExpired(run: seq<Step>, now: int, c: Ctx)
    ensures var s := Runs.Exec(Apply, Init(), run); var s' := Apply(s, Dispatch(now));
      Enabled(s, Dispatch(now)) && !(s.shutdown && s.worker == []) && c in s.sleep ==>
        if Tp(s, c) <= now then c !in s'.sleep && (c in s'.ready || c == s'.active) else c in s'.sleep
  {
    AlwaysInv(run);
    var s := Runs.Exec(Apply, Init(), run);
    if Enabled(s, Dispatch(now)) && !(s.shutdown && s.worker == []) && c in s.sleep { RoundReadies(s, now, c); }
  }

  lemma RoundReadies(s: State, now: int, c: Ctx)
    requires Inv(s) && Enabled(s, Dispatch(now)) && !(s.shutdown && s.worker == []) && c in s.sleep
    ensures var s' := DispatchStep(s, now);
      if Tp(s, c) <= now then c !in s'.sleep && (c in s'.ready || c == s'.active) else c in s'.sleep
  {
    SweepKeeps(s);
    ExpireKeeps(Sweep(s), now);
    var t := Expire(Sweep(s), now);
    assert PlaceInv(s, c, false) && Tp(Sweep(s), c) == Tp(s, c);
    if t.ready != [] {
      Behind(t.ready);
      RemoveMembers(t.sleep, DISPATCHER);
      RemoveMembers(t.ready[1..], DISPATCHER);
      assert t.ready[0] == DISPATCHER ==> PlaceInv(t, DISPATCHER, false);
    }
  }

  // ---- bounded waiting

  /** Whether a step takes the front of the ready queue. */
  predicate Picks(s: State, a: Step) {
    Enabled(s, a) && match a
      case Yield => true
      case SleepUntil(_) => true
      case Suspend => true
      case Finish => true
      case Join(c) => c != s.active && s.ctx[c].handle && !s.ctx[c].terminated
      case BeginShutdown => true
      case Dispatch(now) => !(s.shutdown && s.worker == []) && Expire(Sweep(s), now).ready != []
      case _ => false
  }

  function PicksIn(s: State, run: seq<Step>): nat {
    if run == [] then 0
    else PicksIn(s, run[..|run| - 1]) + if Picks(Runs.Exec(Apply, s, run[..|run| - 1]), run[|run| - 1]) then 1 else 0
  }

  /** c is ready with at most k contexts before it. */
  ghost predicate Within(s: State, c: Ctx, k: int) {
    exists j :: 0 <= j < |s.ready| && j <= k && s.ready[j] == c
  }

  lemma SwitchAdvances(s: State, c: Ctx, k: nat)
    requires Within(s, c, k)
    ensures Switch(s).active == c || (k > 0 && Within(Switch(s), c, k - 1))
  {
    var j :| 0 <= j < |s.ready| && j <= k && s.ready[j] == c;
    if j > 0 { assert Switch(s).ready[j - 1] == c; }
  }

  lemma OthersKeepPlace(s: State, c: Ctx, d: Ctx, k: nat)
    requires Within(s, c, k) && d != c
    ensures Within(SetReady(s, d), c, k)
  {
    var j :| 0 <= j < |s.ready| && j <= k && s.ready[j] == c;
    var j' := RemoveKeepsPlace(s.ready, d, j);
    assert SetReady(s, d).ready[j'] == c;
  }

  lemma PrefixKeepsPlace(s: State, t: State, c: Ctx, k: nat)
    requires Within(s, c, k) && s.ready <= t.ready
    ensures Within(t, c, k)
  {
    var j :| 0 <= j < |s.ready| && j <= k && s.ready[j] == c;
    assert t.ready[j] == c;
  }

  lemma RoundAdvances(s: State, now: int, c: Ctx, k: nat)
    requires Inv(s) && s.active == DISPATCHER && !s.done && !(s.shutdown && s.worker == []) && Within(s, c, k)
    ensures var s' := DispatchStep(s, now); s'.active == c || (k > 0 && Within(s', c, k - 1))
    ensures Picks(s, Dispatch(now))
  {
    SweepKeeps(s);
    ExpireKeeps(Sweep(s), now);
    var t := Expire(Sweep(s), now);
    PrefixKeepsPlace(s, t, c, k);
    SwitchAdvances(t, c, k);
    assert PlaceInv(s, c, false);
    if Switch(t).active != c { OthersKeepPlace(Switch(t), c, DISPATCHER, k - 1); }
  }

  lemma FinishAdvances(s: State, c: Ctx, k: nat)
    requires Inv(s) && Enabled(s, Finish) && Within(s, c, k)
    ensures var s' := FinishStep(s); s'.active == c || (k > 0 && Within(s', c, k - 1))
  {
    FlagKeeps(s);
    WakeJoinersKeeps(Flag(s, s.active), s.active);
    var t := WakeJoiners(Flag(s, s.active), s.active);
    PrefixKeepsPlace(s, t, c, k);
    var u := t.(terminated := t.terminated + [s.active]);
    PrefixKeepsPlace(t, u, c, k);
    SwitchAdvances(u, c, k);
  }

  /** A step either runs c, or brings it a place forward if it picks, and never sets it back. */
  lemma StepAdvances(s: State, a: Step, c: Ctx, k: nat)
    requires Inv(s) && Within(s, c, k) && a != Ready(c)
    ensures var s' := Apply(s, a);
      s'.active == c || (if Picks(s, a) then k > 0 && Within(s', c, k - 1) else Within(s', c, k))
  {
    if Enabled(s, a) {
      assert PlaceInv(s, c, false);
      match a
      case Create(policy) => CreateAdvances(s, policy, c, k);
      case Yield =>
        SwitchAdvances(s, c, k);
        if Switch(s).active != c { OthersKeepPlace(Switch(s), c, s.active, k - 1); }
      case SleepUntil(tp) =>
        PrefixKeepsPlace(s, SleepLink(s, s.active, tp), c, k);
        SwitchAdvances(SleepLink(s, s.active, tp), c, k);
      case Suspend => SwitchAdvances(s, c, k);
      case Ready(d) => OthersKeepPlace(s, c, d, k);
      case Finish => FinishAdvances(s, c, k);
      case Join(d) => JoinAdvances(s, d, c, k);
      case JoinReturns => PrefixKeepsPlace(s, Apply(s, a), c, k);
      case Detach(d) => PrefixKeepsPlace(s, Apply(s, a), c, k);
      case BeginShutdown =>
        PrefixKeepsPlace(s, s.(shutdown := true), c, k);
        SwitchAdvances(s.(shutdown := true), c, k);
      case Dispatch(now) =>
        if s.shutdown && s.worker == [] { NothingLeft(s); } else { RoundAdvances(s, now, c, k); }
    }
  }

  lemma CreateAdvances(s: State, policy: Launch, c: Ctx, k: nat)
    requires Inv(s) && User(s) && Within(s, c, k)
    ensures Within(CreateStep(s, policy), c, k)
  {
    assert PlaceInv(s, c, false);
    var t := NewContext(s);
    PrefixKeepsPlace(s, t, c, k);
    if policy == Post {
      OthersKeepPlace(t, c, |s.ctx|, k);
    } else {
      PrefixKeepsPlace(t, t.(active := |s.ctx|), c, k);
      OthersKeepPlace(t.(active := |s.ctx|), c, s.active, k);
    }
  }

  lemma JoinAdvances(s: State, d: Ctx, c: Ctx, k: nat)
    requires Inv(s) && Enabled(s, Join(d)) && Within(s, c, k)
    ensures var s' := JoinStep(s, d);
      s'.active == c || (if Picks(s, Join(d)) then k > 0 && Within(s', c, k - 1) else Within(s', c, k))
  {
    if Picks(s, Join(d)) {
      PrefixKeepsPlace(s, LinkJoiner(s, s.active, d), c, k);
      SwitchAdvances(LinkJoiner(s, s.active, d), c, k);
    } else {
      PrefixKeepsPlace(s, JoinStep(s, d), c, k);
    }
  }

  /** c was the active context at some point of the run. */
  ghost predicate RunsIn(s: State, run: seq<Step>, c: Ctx) {
    exists i :: 0 <= i <= |run| && Runs.Exec(Apply, s, run[..i]).active == c
  }

  lemma RunsInLonger(s: State, run: seq<Step>, a: Step, c: Ctx)
    ensures RunsIn(s, run, c) ==> RunsIn(s, run + [a], c)
    ensures Apply(Runs.Exec(Apply, s, run), a).active == c ==> RunsIn(s, run + [a], c)
  {
    var longer := run + [a];
    if i :| 0 <= i <= |run| && Runs.Exec(Apply, s, run[..i]).active == c {
      assert longer[..i] == run[..i];
    }
    assert longer[..|longer|] == longer && longer[..|run|] == run;
  }

  /** c has run, or has come a place forward with every pick. */
  ghost predicate RunsOrAdvances(s: State, run: seq<Step>, c: Ctx, k: nat) {
    RunsIn(s, run, c) || (PicksIn(s, run) <= k && Within(Runs.Exec(Apply, s, run), c, k - PicksIn(s, run)))
  }

  lemma OneMoreStep(s: State, run: seq<Step>, a: Step, c: Ctx, k: nat)
    requires RunsOrAdvances(s, run, c, k) && Inv(Runs.Exec(Apply, s, run)) && a != Ready(c)
    ensures RunsOrAdvances(s, run + [a], c, k)
  {
    RunsInLonger(s, run, a, c);
    if !RunsIn(s, run, c) {
      assert (run + [a])[..|run|] == run;
      StepAdvances(Runs.Exec(Apply, s, run), a, c, k - PicksIn(s, run));
    }
  }

  lemma {:induction false} InvAlong(s: State, run: seq<Step>)
    requires Inv(s)
    ensures Inv(Runs.Exec(Apply, s, run))
    decreases |run|
  {
    if run != [] {
      InvAlong(s, run[..|run| - 1]);
      StepKeepsInv(Runs.Exec(Apply, s, run[..|run| - 1]), run[|run| - 1]);
    }
  }

  lemma {:induction false} AdvancesAlong(s: State, more: seq<Step>, c: Ctx, k: nat)
    requires Inv(s) && Within(s, c, k) && Ready(c) !in more
    ensures RunsOrAdvances(s, more, c, k)
    decreases |more|
  {
    if more != [] {
      var front := more[..|more| - 1];
      assert more == front + [more[|more| - 1]];
      AdvancesAlong(s, front, c, k);
      InvAlong(s, front);
      OneMoreStep(s, front, more[|more| - 1], c, k);
    }
  }

  /** Round robin: a context ready behind k others runs by the (k + 1)-th pick, unless it is readied
      again in between. Until then every pick brings it one place forward. */
  lemma BoundedWaiting(run: seq<Step>, more: seq<Step>, c: Ctx, k: nat)
    requires Within(Runs.Exec(Apply, Init(), run), c, k) && Ready(c) !in more
    ensures RunsOrAdvances(Runs.Exec(Apply, Init(), run), more, c, k)
  {
    AlwaysInv(run);
    AdvancesAlong(Runs.Exec(Apply, Init(), run), more, c, k);
  }

  /** So k + 1 picks are enough, for the dispatcher as for any other context. */
  lemma RunsWithinBound(run: seq<Step>, more: seq<Step>, c: Ctx, k: nat)
    requires Within(Runs.Exec(Apply, Init(), run), c, k) && Ready(c) !in more
    requires PicksIn(Runs.Exec(Apply, Init(), run), more) > k
    ensures RunsIn(Runs.Exec(Apply, Init(), run), more, c)
  {
    BoundedWaiting(run, more, c, k);
  }
  // ---- expired sleepers

  predicate Awake(s: State, c: Ctx) {
    c in s.ready || c == s.active
  }

  /** c is ready or runs at some point of the run. */
  ghost predicate WakesIn(s: State, run: seq<Step>, c: Ctx) {
    exists i :: 0 <= i <= |run| && Awake(Runs.Exec(Apply, s, run[..i]), c)
  }

  lemma WakesInLonger(s: State, run: seq<Step>, a: Step, c: Ctx)
    ensures WakesIn(s, run, c) ==> WakesIn(s, run + [a], c)
    ensures Awake(Apply(Runs.Exec(Apply, s, run), a), c) ==> WakesIn(s, run + [a], c)
  {
    var longer := run + [a];
    if i :| 0 <= i <= |run| && Awake(Runs.Exec(Apply, s, run[..i]), c) {
      assert longer[..i] == run[..i];
    }
    assert longer[..|longer|] == longer && longer[..|run|] == run;
  }

  /** Asleep with the same deadline, or ready or running. */
  ghost predicate SleepsOn(s: State, s': State, c: Ctx) {
    Tp(s', c) == Tp(s, c) && (c in s'.sleep || Awake(s', c))
  }

  /** Steps of other contexts leave a sleeper's deadline alone; and it leaves the sleep queue only for the
      ready queue. */
  lemma SleeperOrAwake(s: State, a: Step, c: Ctx)
    requires Inv(s) && c in s.sleep && !a.Dispatch?
    ensures SleepsOn(s, Apply(s, a), c)
  {
    assert PlaceInv(s, c, false);
    if Enabled(s, a) {
      match a
      case Create(_) => CreatedSleeper(s, a.policy, c);
      case Yield => SetReadyMembers(Switch(s), s.active);
      case SleepUntil(tp) =>
        NotWaiting(s, s.active);
        SleptSleeper(s, tp, c);
      case Ready(d) => SetReadyMembers(s, d);
      case Finish =>
        FlagKeeps(s);
        WakingKeepsSleepers(Flag(s, s.active), c);
      case _ => OtherStepsLeaveSleepers(s, a, c);
    }
  }

  lemma OtherStepsLeaveSleepers(s: State, a: Step, c: Ctx)
    requires Inv(s) && Enabled(s, a) && c in s.sleep
    requires !a.Dispatch? && !a.Create? && !a.Yield? && !a.SleepUntil? && !a.Ready? && !a.Finish?
    ensures SleepsOn(s, Apply(s, a), c)
  {
    assert PlaceInv(s, c, false);
  }

  lemma CreatedSleeper(s: State, policy: Launch, c: Ctx)
    requires Inv(s) && User(s) && c in s.sleep
    ensures var s' := CreateStep(s, policy); Tp(s', c) == Tp(s, c) && (c in s'.sleep || Awake(s', c))
  {
    assert PlaceInv(s, c, false);
    SetReadyMembers(NewContext(s), |s.ctx|);
    SetReadyMembers(NewContext(s).(active := |s.ctx|), s.active);
  }

  lemma SleptSleeper(s: State, tp: int, c: Ctx)
    requires Inv(s) && User(s) && c in s.sleep
    ensures var s' := Switch(SleepLink(s, s.active, tp)); Tp(s', c) == Tp(s, c) && c in s'.sleep
  {
    assert PlaceInv(s, c, false) && PlaceInv(s, s.active, false);
    var t := s.(ctx := s.ctx[s.active := s.ctx[s.active].(tp := tp)]);
    assert forall d: Ctx :: d in s.sleep ==> Tp(t, d) == Tp(s, d);
    InsertMembers(t, s.sleep, s.active);
  }

  lemma {:induction false} WakingKeepsSleepers(s: State, c: Ctx)
    requires Core(s, true) && c in s.sleep
    ensures var s' := WakeJoiners(s, s.active); Tp(s', c) == Tp(s, c) && c in s'.sleep
    decreases |s.ctx[s.active].waiters|
  {
    if s.ctx[s.active].waiters != [] {
      WakeFrontKeeps(s, s.active);
      WakeFrontPlaces(s, s.active);
      var w := s.ctx[s.active].waiters[0];
      RemoveMembers(s.sleep, w);
      WakingKeepsSleepers(WakeFront(s, s.active), c);
    }
  }

  /** The dispatcher's own step wakes every expired sleeper. */
  lemma DispatcherWakes(s: State, now: int, c: Ctx)
    requires Inv(s) && Enabled(s, Dispatch(now)) && c in s.sleep && Tp(s, c) <= now
    ensures Awake(Apply(s, Dispatch(now)), c)
  {
    if s.shutdown && s.worker == [] { NothingLeft(s); } else { RoundReadies(s, now, c); }
  }

  /** c still sleeps, expired at time `due`, and the dispatcher runs or has come a place forward with
      every pick. */
  ghost predicate DispatcherNears(s: State, c: Ctx, due: int, k: nat, picks: nat) {
    && c in s.sleep && Tp(s, c) <= due
    && ((s.active == DISPATCHER && picks <= k + 1) || (picks <= k && Within(s, DISPATCHER, k - picks)))
  }

  lemma NearsByOneStep(s: State, a: Step, c: Ctx, due: int, k: nat, picks: nat)
    requires Inv(s) && DispatcherNears(s, c, due, k, picks) && (a.Dispatch? ==> a.now >= due)
    ensures var s' := Apply(s, a);
      Awake(s', c) || DispatcherNears(s', c, due, k, picks + if Picks(s, a) then 1 else 0)
  {
    if Enabled(s, a) {
      if a.Dispatch? {
        DispatcherWakes(s, a.now, c);
      } else {
        SleeperOrAwake(s, a, c);
        if s.active != DISPATCHER { StepAdvances(s, a, DISPATCHER, k - picks); } else { OnlyDispatches(s, a); }
      }
    }
  }

  /** While the dispatcher is active no other step can be taken. */
  lemma OnlyDispatches(s: State, a: Step)
    requires Inv(s) && s.active == DISPATCHER
    ensures Enabled(s, a) ==> a.Dispatch?
  {
    assert JoinInv(s, DISPATCHER);
  }

  lemma {:induction false} NearsAlong(s: State, more: seq<Step>, c: Ctx, due: int, k: nat)
    requires Inv(s) && DispatcherNears(s, c, due, k, 0)
    requires forall j :: 0 <= j < |more| && more[j].Dispatch? ==> more[j].now >= due
    ensures WakesIn(s, more, c) || DispatcherNears(Runs.Exec(Apply, s, more), c, due, k, PicksIn(s, more))
    decreases |more|
  {
    if more != [] {
      var front, a := more[..|more| - 1], more[|more| - 1];
      assert more == front + [a];
      NearsAlong(s, front, c, due, k);
      WakesInLonger(s, front, a, c);
      if !WakesIn(s, front, c) {
        InvAlong(s, front);
        NearsByOneStep(Runs.Exec(Apply, s, front), a, c, due, k, PicksIn(s, front));
      }
    }
  }

  /** A sleeper whose deadline has come is readied within a bound given by the ready queue: with the
      dispatcher active, or ready behind at most k others, it has become ready by the time k + 2 picks have
      been made, if the dispatcher's clock shows the deadline whenever it looks. */
  lemma ExpiredWakesWithinBound(run: seq<Step>, more: seq<Step>, c: Ctx, due: int, k: nat)
    requires var s := Runs.Exec(Apply, Init(), run);
      && c in s.sleep && Tp(s, c) <= due && (s.active == DISPATCHER || Within(s, DISPATCHER, k))
      && PicksIn(s, more) > k + 1
    requires forall j :: 0 <= j < |more| && more[j].Dispatch? ==> more[j].now >= due
    ensures WakesIn(Runs.Exec(Apply, Init(), run), more, c)
  {
    AlwaysInv(run);
    NearsAlong(Runs.Exec(Apply, Init(), run), more, c, due, k);
  }

  /** In every reachable state some k serves: the dispatcher is never farther back than the queue is long. */
  lemma DispatcherIsNear(run: seq<Step>)
    ensures var s := Runs.Exec(Apply, Init(), run);
      s.done || s.active == DISPATCHER || Within(s, DISPATCHER, |s.ready| - 1)
  {
    AlwaysInv(run);
    ReadyIsNear(Runs.Exec(Apply, Init(), run), DISPATCHER);
  }

  lemma ReadyIsNear(s: State, c: Ctx)
    ensures c in s.ready ==> Within(s, c, |s.ready| - 1)
  {
  }

  // ---- what each operation does, written out

  /** A context's own place is in no queue, so taking it out of one changes nothing. */
  lemma ActiveIsUnlinked(s: State)
    requires Core(s, false)
    ensures Remove(s.sleep, s.active) == s.sleep && Remove(s.ready, s.active) == s.ready
  {
    assert PlaceInv(s, s.active, false);
    RemoveAbsent(s.sleep, s.active);
    RemoveAbsent(s.ready, s.active);
  }

  /** yield: the front runs, the caller goes behind all others. */
  lemma YieldEffect(s: State)
    requires Inv(s) && User(s)
    ensures s.ready != [] && Apply(s, Yield) == s.(active := s.ready[0], ready := s.ready[1..] + [s.active])
  {
    SomebodyIsReady(s);
    Behind(s.ready);
    assert PlaceInv(s, s.active, false);
    RemoveAbsent(s.sleep, s.active);
    RemoveAbsent(s.ready[1..], s.active);
  }

  /** c stands in q' behind every sleeper of q that is due no later than tp, and before the others. */
  ghost predicate Inserted(s: State, q: seq<Ctx>, c: Ctx, tp: int, q': seq<Ctx>) {
    exists i: nat :: Fits(s, q, i, tp) && q' == q[..i] + [c] + q[i..]
  }

  /** The place of a context with deadline tp among q. */
  ghost predicate Fits(s: State, q: seq<Ctx>, i: nat, tp: int) {
    && i <= |q| && (forall j :: 0 <= j < i ==> Tp(s, q[j]) <= tp) && (forall j :: i <= j < |q| ==> Tp(s, q[j]) > tp)
  }

  lemma {:induction false} InsertWhere(s: State, q: seq<Ctx>, c: Ctx) returns (i: nat)
    requires forall j, k :: 0 <= j < k < |q| ==> Tp(s, q[j]) <= Tp(s, q[k])
    ensures Fits(s, q, i, Tp(s, c)) && Insert(s, q, c) == q[..i] + [c] + q[i..]
    decreases |q|
  {
    i := |q|;
    if q != [] && Tp(s, q[|q| - 1]) > Tp(s, c) {
      i := InsertWhere(s, q[..|q| - 1], c);
      InsertBefore(s, q, c, i);
    } else {
      if q != [] { forall j | 0 <= j < |q| ensures Tp(s, q[j]) <= Tp(s, c) { assert Tp(s, q[j]) <= Tp(s, q[|q| - 1]); } }
      assert q[..i] == q && q[i..] == [];
    }
  }

  lemma InsertBefore(s: State, q: seq<Ctx>, c: Ctx, i: nat)
    requires q != [] && Tp(s, q[|q| - 1]) > Tp(s, c) && i < |q|
    requires Insert(s, q[..|q| - 1], c) == q[..|q| - 1][..i] + [c] + q[..|q| - 1][i..]
    ensures Insert(s, q, c) == q[..i] + [c] + q[i..]
  {
    assert q[i..] == q[..|q| - 1][i..] + [q[|q| - 1]];
  }

  /** wait_until(tp): the caller sleeps until tp, exactly, and the front runs. */
  lemma SleepEffect(s: State, tp: int)
    requires Inv(s) && User(s)
    ensures var s' := Apply(s, SleepUntil(tp)); var a := s.active;
      && s.ready != [] && a !in s.sleep && Inserted(s, s.sleep, a, tp, s'.sleep) && a in s'.sleep
      && s' == s.(active := s.ready[0], ready := s.ready[1..], sleep := s'.sleep, ctx := s.ctx[a := s.ctx[a].(tp := tp)])
  {
    SomebodyIsReady(s);
    LinkEffect(s, tp);
  }

  lemma LinkEffect(s: State, tp: int)
    requires Core(s, false)
    ensures var a := s.active; var t := SleepLink(s, a, tp);
      && a !in s.sleep && Inserted(s, s.sleep, a, tp, t.sleep) && a in t.sleep
      && t == s.(sleep := t.sleep, ctx := s.ctx[a := s.ctx[a].(tp := tp)])
  {
    assert PlaceInv(s, s.active, false);
    var t := s.(ctx := s.ctx[s.active := s.ctx[s.active].(tp := tp)]);
    forall j | 0 <= j < |s.sleep| ensures Tp(t, s.sleep[j]) == Tp(s, s.sleep[j]) { assert s.sleep[j] in s.sleep; }
    var i := InsertWhere(t, s.sleep, s.active);
    assert Fits(s, s.sleep, i, tp);
    assert (s.sleep[..i] + [s.active] + s.sleep[i..])[i] == s.active;
  }

  /** A context that is readied leaves the sleep queue and goes behind all that are ready. */
  lemma CreateEffect(s: State, policy: Launch)
    requires Inv(s) && User(s)
    ensures var c := |s.ctx|; var t := s.(ctx := s.ctx + [Context(false, 2, true, NEVER, [], None)], worker := s.worker + [c]);
      Apply(s, Create(policy)) ==
        if policy == Post then t.(ready := s.ready + [c]) else t.(active := c, ready := s.ready + [s.active])
  {
    ActiveIsUnlinked(s);
    assert PlaceInv(s, |s.ctx|, false);
    RemoveAbsent(s.sleep, |s.ctx|);
    RemoveAbsent(s.ready, |s.ctx|);
  }

  function Woken(s: State, c: Ctx): State
    requires c < |s.ctx|
  {
    s.(ctx := s.ctx[c := s.ctx[c].(waiters := [])], ready := s.ready + s.ctx[c].waiters)
  }

  lemma WakeFrontEffect(s: State, c: Ctx)
    requires Core(s, true) && c == s.active && s.ctx[c].waiters != []
    ensures WakeFront(s, c) ==
      s.(ctx := s.ctx[c := s.ctx[c].(waiters := s.ctx[c].waiters[1..])], ready := s.ready + [s.ctx[c].waiters[0]])
  {
    var w := s.ctx[c].waiters;
    assert JoinInv(s, c) && w[0] in w;
    RemoveAbsent(s.sleep, w[0]);
    RemoveAbsent(s.ready, w[0]);
  }

  lemma WokenMore(s: State, t: State, c: Ctx)
    requires c < |s.ctx| && s.ctx[c].waiters != []
    requires t == s.(ctx := s.ctx[c := s.ctx[c].(waiters := s.ctx[c].waiters[1..])], ready := s.ready + [s.ctx[c].waiters[0]])
    ensures Woken(t, c) == Woken(s, c)
  {
    var w := s.ctx[c].waiters;
    assert w == [w[0]] + w[1..];
    assert t.ctx[c := t.ctx[c].(waiters := [])] == s.ctx[c := s.ctx[c].(waiters := [])];
  }

  lemma {:induction false} WakeJoinersEffect(s: State, c: Ctx)
    requires Core(s, true) && c == s.active
    ensures WakeJoiners(s, c) == Woken(s, c)
    decreases |s.ctx[c].waiters|
  {
    if s.ctx[c].waiters == [] {
      assert s.ctx[c := s.ctx[c].(waiters := [])] == s.ctx;
    } else {
      WakeFrontKeeps(s, c);
      WakeFrontEffect(s, c);
      WokenMore(s, WakeFront(s, c), c);
      WakeJoinersEffect(WakeFront(s, c), c);
    }
  }

  /** set_terminated: the joiners become ready in the order they came, the context is left for the sweep. */
  lemma FinishEffect(s: State)
    requires Inv(s) && Enabled(s, Finish)
    ensures var a := s.active; var w := s.ctx[a].waiters;
      && s.ready != []
      && Apply(s, Finish) ==
           s.(ctx := s.ctx[a := s.ctx[a].(terminated := true, waiters := [])], active := s.ready[0],
              ready := s.ready[1..] + w, terminated := s.terminated + [a])
  {
    SomebodyIsReady(s);
    FlagKeeps(s);
    WakeJoinersEffect(Flag(s, s.active), s.active);
    var a := s.active;
    var t := Flag(s, a);
    assert t.ctx[a := t.ctx[a].(waiters := [])] == s.ctx[a := s.ctx[a].(terminated := true, waiters := [])];
    assert (s.ready + s.ctx[a].waiters)[1..] == s.ready[1..] + s.ctx[a].waiters;
  }

  /** The fiber object lets go of its context, which goes with its last reference. */
  function LetGo(s: State, c: Ctx): State
    requires c < |s.ctx| && s.ctx[c].use >= 1
  {
    s.(ctx := s.ctx[c := s.ctx[c].(handle := false, use := s.ctx[c].use - 1)],
       destroyed := if s.ctx[c].use == 1 then s.destroyed + [c] else s.destroyed)
  }

  lemma DropEffect(s: State, c: Ctx)
    requires Core(s, false) && FIRST_WORKER <= c < |s.ctx|
    ensures s.ctx[c].handle ==> s.ctx[c].use >= 1 && DropHandle(s, c) == LetGo(s, c)
    ensures !s.ctx[c].handle ==> DropHandle(s, c) == s
  {
    assert LifeInv(s, c, false);
    if s.ctx[c].handle {
      assert DropHandle(s, c).ctx == LetGo(s, c).ctx;
    }
  }

  /** Those of q whose fiber objects have let go of them. */
  function Abandoned(s: State, q: seq<Ctx>): seq<Ctx> {
    if q == [] then []
    else (if q[0] < |s.ctx| && !s.ctx[q[0]].handle then [q[0]] else []) + Abandoned(s, q[1..])
  }

  lemma {:induction false} SameAbandoned(s: State, t: State, q: seq<Ctx>)
    requires |s.ctx| == |t.ctx| && forall d: Ctx :: d < |s.ctx| ==> s.ctx[d].handle == t.ctx[d].handle
    ensures Abandoned(s, q) == Abandoned(t, q)
  {
    if q != [] { SameAbandoned(s, t, q[1..]); }
  }

  /** release_terminated_: one reference less for each terminated context, and those without a fiber object
      are destroyed, in order. */
  ghost predicate Swept(s: State, s': State) {
    && s' == s.(ctx := s'.ctx, worker := s'.worker, terminated := [], destroyed := s.destroyed + Abandoned(s, s.terminated))
    && (forall d: Ctx :: d in s'.worker <==> d in s.worker && d !in s.terminated)
    && |s'.ctx| == |s.ctx|
    && forall d: Ctx :: d < |s.ctx| ==>
      s'.ctx[d] == if d in s.terminated && s.ctx[d].use >= 1 then s.ctx[d].(use := s.ctx[d].use - 1) else s.ctx[d]
  }

  lemma SweepOneEffect(s: State)
    requires Core(s, false) && s.terminated != []
    ensures s.terminated[0] < |s.ctx|
    ensures var c := s.terminated[0]; var t := SweepOne(s);
      && s.ctx[c].use >= 1 && c !in s.terminated[1..]
      && t == s.(ctx := s.ctx[c := s.ctx[c].(use := s.ctx[c].use - 1)], worker := t.worker, terminated := s.terminated[1..],
                 destroyed := if s.ctx[c].handle then s.destroyed else s.destroyed + [c])
      && forall d: Ctx :: d in t.worker <==> d in s.worker && d != c
  {
    var c := s.terminated[0];
    Behind(s.terminated);
    RemoveMembers(s.worker, c);
    assert PlaceInv(s, c, false) && LifeInv(s, c, false);
  }

  lemma SweptMore(s: State, t: State, s': State)
    requires s.terminated != [] && s.terminated[0] < |s.ctx| && s.ctx[s.terminated[0]].use >= 1
    requires var c := s.terminated[0];
      && c !in s.terminated[1..]
      && t == s.(ctx := s.ctx[c := s.ctx[c].(use := s.ctx[c].use - 1)], worker := t.worker, terminated := s.terminated[1..],
                 destroyed := if s.ctx[c].handle then s.destroyed else s.destroyed + [c])
      && forall d: Ctx :: d in t.worker <==> d in s.worker && d != c
    requires Swept(t, s')
    ensures Swept(s, s')
  {
    var c := s.terminated[0];
    SameAbandoned(s, t, s.terminated[1..]);
    assert forall d: Ctx :: d in s.terminated <==> d == c || d in s.terminated[1..];
    assert s.destroyed + Abandoned(s, s.terminated) == t.destroyed + Abandoned(t, t.terminated);
  }

  lemma {:induction false} SweepEffect(s: State)
    requires Core(s, false)
    ensures Swept(s, Sweep(s))
    decreases |s.terminated|
  {
    if s.terminated != [] {
      SweepOneKeeps(s);
      SweepOneEffect(s);
      SweepEffect(SweepOne(s));
      SweptMore(s, SweepOne(s), Sweep(SweepOne(s)));
    }
  }

  /** The first k sleepers are those due by now; they become ready in the order of their deadlines. */
  ghost predicate Readied(s: State, s': State, now: int, k: nat) {
    && Fits(s, s.sleep, k, now) && |s'.ctx| == |s.ctx|
    && s' == s.(sleep := s.sleep[k..], ready := s.ready + s.sleep[..k], ctx := s'.ctx)
    && forall d: Ctx :: d < |s.ctx| ==> s'.ctx[d] == if d in s.sleep[..k] then s.ctx[d].(tp := NEVER) else s.ctx[d]
  }

  lemma FitsMore(s: State, t: State, now: int, k: nat)
    requires s.sleep != [] && Distinct(s.sleep) && s.sleep[0] < |s.ctx| && s.ctx[s.sleep[0]].tp <= now
    requires t == ExpireOne(s) && Fits(t, t.sleep, k, now)
    ensures Fits(s, s.sleep, k + 1, now)
  {
    Behind(s.sleep);
    forall j | 0 < j < |s.sleep| ensures Tp(s, s.sleep[j]) == Tp(t, t.sleep[j - 1]) {
      assert s.sleep[j] == t.sleep[j - 1] && t.sleep[j - 1] in t.sleep;
    }
  }

  lemma ReadiedMore(s: State, s': State, now: int, k: nat)
    requires s.sleep != [] && Distinct(s.sleep) && s.sleep[0] < |s.ctx| && s.ctx[s.sleep[0]].tp <= now
    requires Readied(ExpireOne(s), s', now, k)
    ensures Readied(s, s', now, k + 1)
  {
    var c, t := s.sleep[0], ExpireOne(s);
    FitsMore(s, t, now, k);
    Behind(s.sleep);
    assert s.sleep[..k + 1] == [c] + t.sleep[..k] && s.sleep[k + 1..] == t.sleep[k..];
    assert s.ready + s.sleep[..k + 1] == t.ready + t.sleep[..k];
  }

  lemma NoneIsDue(s: State, now: int)
    requires Sorted(s) && (s.sleep != [] ==> Tp(s, s.sleep[0]) > now)
    ensures Readied(s, s, now, 0)
  {
    assert forall j :: 0 < j < |s.sleep| ==> Tp(s, s.sleep[0]) <= Tp(s, s.sleep[j]);
    assert s.sleep[0..] == s.sleep && s.ready + s.sleep[..0] == s.ready;
  }

  lemma {:induction false} ExpireEffect(s: State, now: int) returns (k: nat)
    requires Core(s, false)
    ensures Readied(s, Expire(s, now), now, k)
    decreases |s.sleep|
  {
    if s.sleep != [] { ExpireOneKeeps(s); }
    if s.sleep != [] && s.ctx[s.sleep[0]].tp <= now {
      k := ExpireEffect(ExpireOne(s), now);
      ReadiedMore(s, Expire(ExpireOne(s), now), now, k);
      k := k + 1;
    } else {
      NoneIsDue(s, now);
      k := 0;
    }
  }

  /** A round of the dispatcher that goes on: the terminated are released, the sleepers due are readied
      behind those that were ready, the front runs and the dispatcher goes behind all others. */
  ghost predicate RoundDone(s: State, s': State, now: int) {
    exists t, u, k: nat :: Swept(s, t) && Readied(t, u, now, k) && Resumed(u, s')
  }

  predicate Resumed(u: State, s': State) {
    if u.ready == [] then s' == u else s' == u.(active := u.ready[0], ready := u.ready[1..] + [DISPATCHER])
  }

  lemma RoundEffect(s: State, now: int)
    requires Inv(s) && s.active == DISPATCHER && !s.done && !(s.shutdown && s.worker == [])
    ensures RoundDone(s, DispatchStep(s, now), now)
  {
    SweepKeeps(s);
    SweepEffect(s);
    var t := Sweep(s);
    ExpireKeeps(t, now);
    var k := ExpireEffect(t, now);
    var u := Expire(t, now);
    if u.ready != [] {
      ActiveIsUnlinked(u);
      Behind(u.ready);
      assert PlaceInv(u, DISPATCHER, false);
      RemoveAbsent(u.ready[1..], DISPATCHER);
    }
    assert Resumed(u, DispatchStep(s, now));
  }

  // ---- a sleep, from the deadline it is given

  /** wait_until(tp) puts the caller to sleep until tp, whatever the others sleep for. */
  lemma SleepsUntilItsDeadline(run: seq<Step>, tp: int)
    ensures var s := Runs.Exec(Apply, Init(), run); var s' := Apply(s, SleepUntil(tp));
      Enabled(s, SleepUntil(tp)) ==>
        s.active in s'.sleep && Tp(s', s.active) == tp && forall c: Ctx :: c in s.sleep ==> c in s'.sleep && Tp(s', c) == Tp(s, c)
  {
    AlwaysInv(run);
    var s := Runs.Exec(Apply, Init(), run);
    if Enabled(s, SleepUntil(tp)) {
      SleepEffect(s, tp);
      forall c: Ctx | c in s.sleep ensures c in Apply(s, SleepUntil(tp)).sleep && Tp(Apply(s, SleepUntil(tp)), c) == Tp(s, c) {
        NotWaiting(s, s.active);
        SleptSleeper(s, tp, c);
      }
    }
  }

  /** Asleep until tp, or out of the sleep queue. */
  predicate StillDue(s: State, c: Ctx, tp: int) { c in s.sleep && Tp(s, c) == tp }

  lemma RoundKeepsDeadline(s: State, now: int, c: Ctx)
    requires Inv(s) && Enabled(s, Dispatch(now)) && c in s.sleep
    ensures var s' := Apply(s, Dispatch(now)); Awake(s', c) || StillDue(s', c, Tp(s, c))
    ensures now < Tp(s, c) ==> StillDue(Apply(s, Dispatch(now)), c, Tp(s, c))
  {
    if s.shutdown && s.worker == [] {
      NothingLeft(s);
    } else {
      RoundReadies(s, now, c);
      SweepKeeps(s);
      ExpireKeeps(Sweep(s), now);
      assert Tp(Sweep(s), c) == Tp(s, c);
    }
  }

  /** No step but a dispatcher's round after the deadline, or a wake-up of c by another context, ends it. */
  lemma StepKeepsDeadline(s: State, a: Step, c: Ctx, tp: int)
    requires Inv(s) && StillDue(s, c, tp)
    ensures Awake(Apply(s, a), c) || StillDue(Apply(s, a), c, tp)
    ensures a != Ready(c) && (a.Dispatch? ==> a.now < tp) ==> StillDue(Apply(s, a), c, tp)
  {
    if Enabled(s, a) {
      if a.Dispatch? { RoundKeepsDeadline(s, a.now, c); } else { SleeperOrAwake(s, a, c); if a != Ready(c) { StaysAsleep(s, a, c); } }
    }
  }

  lemma StaysAsleep(s: State, a: Step, c: Ctx)
    requires Inv(s) && Enabled(s, a) && c in s.sleep && !a.Dispatch? && a != Ready(c)
    ensures c in Apply(s, a).sleep
  {
    assert PlaceInv(s, c, false);
    match a
    case Create(policy) => CreateEffect(s, policy);
    case Yield => YieldEffect(s);
    case SleepUntil(tp) =>
      NotWaiting(s, s.active);
      SleptSleeper(s, tp, c);
    case Ready(d) => SetReadyMembers(s, d);
    case Finish => FinishEffect(s);
    case _ =>
  }

  /** Not before: while the dispatcher's clock shows earlier times and nobody wakes it, the caller sleeps. */
  lemma {:induction false} NotBeforeDeadline(s: State, more: seq<Step>, c: Ctx, tp: int)
    requires Inv(s) && StillDue(s, c, tp) && Ready(c) !in more
    requires forall j :: 0 <= j < |more| && more[j].Dispatch? ==> more[j].now < tp
    ensures StillDue(Runs.Exec(Apply, s, more), c, tp)
    decreases |more|
  {
    if more != [] {
      NotBeforeDeadline(s, more[..|more| - 1], c, tp);
      InvAlong(s, more[..|more| - 1]);
      StepKeepsDeadline(Runs.Exec(Apply, s, more[..|more| - 1]), more[|more| - 1], c, tp);
    }
  }

  lemma {:induction false} DueAlong(s: State, more: seq<Step>, c: Ctx, tp: int)
    requires Inv(s) && StillDue(s, c, tp)
    ensures WakesIn(s, more, c) || StillDue(Runs.Exec(Apply, s, more), c, tp)
    decreases |more|
  {
    if more != [] {
      var front, a := more[..|more| - 1], more[|more| - 1];
      assert more == front + [a];
      DueAlong(s, front, c, tp);
      WakesInLonger(s, front, a, c);
      InvAlong(s, front);
      if !WakesIn(s, front, c) { StepKeepsDeadline(Runs.Exec(Apply, s, front), a, c, tp); }
    }
  }

  lemma WakesLater(s: State, first: seq<Step>, rest: seq<Step>, c: Ctx)
    ensures WakesIn(s, first, c) ==> WakesIn(s, first + rest, c)
    ensures WakesIn(Runs.Exec(Apply, s, first), rest, c) ==> WakesIn(s, first + rest, c)
  {
    if i :| 0 <= i <= |first| && Awake(Runs.Exec(Apply, s, first[..i]), c) {
      assert (first + rest)[..i] == first[..i];
    }
    if i :| 0 <= i <= |rest| && Awake(Runs.Exec(Apply, Runs.Exec(Apply, s, first), rest[..i]), c) {
      Runs.Split(Apply, s, first, rest[..i]);
      assert (first + rest)[..|first| + i] == first + rest[..i];
    }
  }

  /** From the call: whatever happens in `before`, a context that called wait_until(tp) has become ready
      within k + 2 picks of any point from which the dispatcher's clock shows tp or later, if the
      dispatcher is then active or ready behind at most k others. */
  lemma WokenWithinBound(run: seq<Step>, tp: int, before: seq<Step>, more: seq<Step>, k: nat)
    requires Enabled(Runs.Exec(Apply, Init(), run), SleepUntil(tp))
    requires var s := Runs.Exec(Apply, Init(), run + [SleepUntil(tp)] + before);
      (s.active == DISPATCHER || Within(s, DISPATCHER, k)) && PicksIn(s, more) > k + 1
    requires forall j :: 0 <= j < |more| && more[j].Dispatch? ==> more[j].now >= tp
    ensures var s := Runs.Exec(Apply, Init(), run);
      WakesIn(Apply(s, SleepUntil(tp)), before + more, s.active)
  {
    var s := Runs.Exec(Apply, Init(), run);
    var c, t := s.active, Apply(s, SleepUntil(tp));
    var slept := run + [SleepUntil(tp)];
    assert slept[..|slept| - 1] == run;
    assert Runs.Exec(Apply, Init(), slept) == t;
    SleepsUntilItsDeadline(run, tp);
    AlwaysInv(slept);
    DueAlong(t, before, c, tp);
    WakesLater(t, before, more, c);
    Runs.Split(Apply, Init(), slept, before);
    if !WakesIn(t, before, c) { ExpiredWakesWithinBound(slept + before, more, c, tp, k); }
  }

  /** And not before, unless it is woken by another context. */
  lemma SleepsAtLeast(run: seq<Step>, tp: int, more: seq<Step>)
    requires Enabled(Runs.Exec(Apply, Init(), run), SleepUntil(tp))
    requires Ready(Runs.Exec(Apply, Init(), run).active) !in more
    requires forall j :: 0 <= j < |more| && more[j].Dispatch? ==> more[j].now < tp
    ensures var s := Runs.Exec(Apply, Init(), run);
      StillDue(Runs.Exec(Apply, Apply(s, SleepUntil(tp)), more), s.active, tp)
  {
    AlwaysInv(run);
    SleepsUntilItsDeadline(run, tp);
    var s := Runs.Exec(Apply, Init(), run);
    StepKeepsInv(s, SleepUntil(tp));
    NotBeforeDeadline(Apply(s, SleepUntil(tp)), more, s.active, tp);
  }

  // ---- the scheduler in the form of the source

  datatype JoinAnswer = Deadlock | NotJoinable | Joined | Waits

  /** The queues and contexts of one thread. The intrusive hooks are membership in the queues; unlinking
      a hook is Remove. */
  class FiberScheduler {
    var contexts: seq<Context>
    var active: Ctx
    var readyQueue: seq<Ctx>          // round_robin's rqueue_
    var sleepQueue: seq<Ctx>
    var terminatedQueue: seq<Ctx>
    var workerQueue: seq<Ctx>
    var shutdown: bool
    ghost var done: bool
    ghost var destroyed: seq<Ctx>
    ghost var run: seq<Step>
    ghost var m: State

    ghost function View(): State
      reads this
    {
      State(contexts, active, readyQueue, sleepQueue, terminatedQueue, workerQueue, shutdown, done, false, destroyed)
    }

    ghost predicate Valid()
      reads this
    {
      View() == m && Runs.Reached(Apply, Init(), run, m)
    }

    constructor ()
      ensures Valid() && run == []
    {
      contexts := [Context(false, 1, false, NEVER, [], None), Context(false, 1, false, NEVER, [], None)];
      active, readyQueue := MAIN, [DISPATCHER];
      sleepQueue, terminatedQueue, workerQueue := [], [], [];
      shutdown, done, destroyed := false, false, [];
      run, m := [], Init();
      new;
      Runs.Start(Apply, Init());
    }

    ghost method Do(a: Step)
      requires Runs.Reached(Apply, Init(), run, m)
      modifies this`run, this`m
      ensures run == old(run) + [a] && m == Apply(old(m), a)
      ensures Runs.Reached(Apply, Init(), run, m)
    {
      run, m := Runs.Then(Apply, Init(), run, m, a);
    }

    method Awakened(c: Ctx)
      modifies this`readyQueue
      ensures readyQueue == old(readyQueue) + [c]
    {
      readyQueue := readyQueue + [c];
    }

    method PickNext() returns (victim: Option<Ctx>)
      modifies this`readyQueue
      ensures victim == if old(readyQueue) == [] then None else Some(old(readyQueue)[0])
      ensures readyQueue == if old(readyQueue) == [] then [] else old(readyQueue)[1..]
    {
      victim := None;
      if readyQueue != [] {
        victim := Some(readyQueue[0]);
        readyQueue := readyQueue[1..];
      }
    }

    method MakeReady(c: Ctx)
      modifies this`readyQueue, this`sleepQueue
      ensures View() == SetReady(old(View()), c)
    {
      if c in sleepQueue {
        sleepQueue := Remove(sleepQueue, c);
      } else {
        RemoveAbsent(sleepQueue, c);
      }
      readyQueue := Remove(readyQueue, c);
      Awakened(c);
    }

    /** get_next_()->resume(), where there is a next context. */
    method ResumeNext()
      requires readyQueue != []
      modifies this`readyQueue, this`active
      ensures View() == Switch(old(View()))
    {
      var next := PickNext();
      active := next.value;
    }

    /** sleep_link: the ordered insertion puts a context behind every deadline that is not later. */
    method LinkSleeper(c: Ctx, tp: int)
      requires c < |contexts| && AllBelow(sleepQueue, |contexts|)
      modifies this`contexts, this`sleepQueue
      ensures View() == SleepLink(old(View()), c, tp)
    {
      contexts := contexts[c := contexts[c].(tp := tp)];
      ghost var t := View();
      var i := |sleepQueue|;
      WholeQueue(t, sleepQueue, c);
      while i > 0 && contexts[sleepQueue[i - 1]].tp > contexts[c].tp
        invariant 0 <= i <= |sleepQueue| && contexts == t.ctx && sleepQueue == t.sleep
        invariant Insert(t, sleepQueue, c) == Insert(t, sleepQueue[..i], c) + sleepQueue[i..]
      {
        InsertPasses(t, sleepQueue, c, i);
        i := i - 1;
      }
      InsertStops(t, sleepQueue, c, i);
      sleepQueue := sleepQueue[..i] + [c] + sleepQueue[i..];
    }

    /** intrusive_ptr_release */
    method ReleaseReference(c: Ctx)
      requires c < |contexts|
      modifies this`contexts, this`destroyed
      ensures View() == Release(old(View()), c)
    {
      var u := if contexts[c].use > 0 then contexts[c].use - 1 else 0;
      contexts := contexts[c := contexts[c].(use := u)];
      if u == 0 {
        destroyed := destroyed + [c];
      }
    }

    method ResetHandle(c: Ctx)
      requires c < |contexts|
      modifies this`contexts, this`destroyed
      ensures View() == DropHandle(old(View()), c)
    {
      if contexts[c].handle {
        contexts := contexts[c := contexts[c].(handle := false)];
        ReleaseReference(c);
      }
    }

    method ReleaseTerminated()
      requires AllBelow(terminatedQueue, |contexts|)
      modifies this`contexts, this`destroyed, this`workerQueue, this`terminatedQueue
      ensures View() == Sweep(old(View()))
    {
      while terminatedQueue != []
        invariant Sweep(View()) == Sweep(old(View()))
        invariant AllBelow(terminatedQueue, |contexts|)
        decreases |terminatedQueue|
      {
        var c := terminatedQueue[0];
        workerQueue := Remove(workerQueue, c);
        terminatedQueue := terminatedQueue[1..];
        ReleaseReference(c);
      }
    }

    method Sleep2Ready(now: int)
      requires AllBelow(sleepQueue, |contexts|)
      modifies this`contexts, this`sleepQueue, this`readyQueue
      ensures View() == Expire(old(View()), now)
    {
      while sleepQueue != []
        invariant Expire(View(), now) == Expire(old(View()), now)
        invariant AllBelow(sleepQueue, |contexts|)
        decreases |sleepQueue|
      {
        var c := sleepQueue[0];
        if contexts[c].tp > now {
          break;
        }
        sleepQueue := sleepQueue[1..];
        contexts := contexts[c := contexts[c].(tp := NEVER)];
        Awakened(c);
      }
    }

    lemma Facts()
      requires Valid()
      ensures Inv(m)
    {
      AlwaysInv(run);
    }

    /** fiber's construction: attached to this scheduler, and readied or run at once. */
    method Start(policy: Launch) returns (c: Ctx)
      requires Valid() && User(m)
      modifies this
      ensures Valid() && run == old(run) + [Create(policy)]
      ensures c == |old(contexts)|
      ensures View() == old(View()).(
        ctx := old(contexts) + [Context(false, 2, true, NEVER, [], None)], worker := old(workerQueue) + [c],
        active := if policy == Post then old(active) else c,
        ready := old(readyQueue) + [if policy == Post then c else old(active)])
    {
      Facts();
      CreateEffect(m, policy);
      Do(Create(policy));
      c := |contexts|;
      contexts := contexts + [Context(false, 2, true, NEVER, [], None)];
      workerQueue := workerQueue + [c];
      match policy
      case Post =>
        MakeReady(c);
      case Dispatched =>
        var prev := active;
        active := c;
        MakeReady(prev);
    }

    method YieldActive()
      requires Valid() && User(m)
      modifies this
      ensures Valid() && run == old(run) + [Yield]
      ensures old(readyQueue) != []
      ensures View() == old(View()).(active := old(readyQueue)[0], ready := old(readyQueue)[1..] + [old(active)])
    {
      Facts();
      YieldEffect(m);
      SomebodyIsReady(m);
      Do(Yield);
      var prev := active;
      ResumeNext();
      MakeReady(prev);
    }

    method WaitUntil(tp: int)
      requires Valid() && User(m)
      modifies this
      ensures Valid() && run == old(run) + [SleepUntil(tp)]
      ensures old(readyQueue) != [] && old(active) < |old(contexts)|
      ensures View() == old(View()).(
        active := old(readyQueue)[0], ready := old(readyQueue)[1..], sleep := sleepQueue,
        ctx := old(contexts)[old(active) := old(contexts)[old(active)].(tp := tp)])
      ensures Inserted(old(View()), old(sleepQueue), old(active), tp, sleepQueue)
    {
      Facts();
      QueuedExist(m);
      SleepEffect(m, tp);
      Do(SleepUntil(tp));
      LinkSleeper(active, tp);
      ResumeNext();
    }

    method SuspendActive()
      requires Valid() && User(m)
      modifies this
      ensures Valid() && run == old(run) + [Suspend]
      ensures old(readyQueue) != [] && !Placed(m, old(active))
      ensures View() == old(View()).(active := old(readyQueue)[0], ready := old(readyQueue)[1..])
    {
      Facts();
      SwitchKeeps(m);
      SomebodyIsReady(m);
      Do(Suspend);
      ResumeNext();
    }

    method WakeUp(c: Ctx)
      requires Valid() && User(m) && CanBeReadied(m, c)
      modifies this
      ensures Valid() && run == old(run) + [Ready(c)] && c in readyQueue && c !in sleepQueue
      ensures View() == old(View()).(sleep := Remove(old(sleepQueue), c), ready := Remove(old(readyQueue), c) + [c])
    {
      Facts();
      RemoveMembers(sleepQueue, c);
      Do(Ready(c));
      MakeReady(c);
    }

    /** The wake-all loop of set_terminated. */
    method ReadyJoiners(self: Ctx)
      requires self < |contexts|
      modifies this`contexts, this`readyQueue, this`sleepQueue
      ensures View() == WakeJoiners(old(View()), self)
    {
      while contexts[self].waiters != []
        invariant self < |contexts| && WakeJoiners(View(), self) == WakeJoiners(old(View()), self)
        decreases |contexts[self].waiters|
      {
        var w := contexts[self].waiters[0];
        contexts := contexts[self := contexts[self].(waiters := contexts[self].waiters[1..])];
        MakeReady(w);
      }
    }

    /** set_terminated of the context and then of the scheduler. */
    method Terminate()
      requires Valid() && User(m) && active >= FIRST_WORKER
      modifies this
      ensures Valid() && run == old(run) + [Finish]
      ensures old(readyQueue) != []
      ensures View() == old(View()).(
        ctx := old(contexts)[old(active) := old(contexts)[old(active)].(terminated := true, waiters := [])],
        active := old(readyQueue)[0], ready := old(readyQueue)[1..] + old(contexts)[old(active)].waiters,
        terminated := old(terminatedQueue) + [old(active)])
    {
      Facts();
      FinishEffect(m);
      FlagKeeps(m);
      WakeJoinersKeeps(Flag(m, m.active), m.active);
      Do(Finish);
      var self := active;
      contexts := contexts[self := contexts[self].(terminated := true)];
      ReadyJoiners(self);
      terminatedQueue := terminatedQueue + [self];
      ResumeNext();
    }

    /** fiber::join: Waits means that the caller was suspended; JoinReturn continues it. */
    method JoinFiber(c: Ctx) returns (r: JoinAnswer)
      requires Valid() && User(m) && FIRST_WORKER <= c < |contexts|
      modifies this
      ensures Valid() && run == old(run) + [Join(c)]
      ensures r == if c == old(active) then Deadlock else if !old(contexts)[c].handle then NotJoinable
                   else if old(contexts)[c].terminated then Joined else Waits
      ensures r == Deadlock || r == NotJoinable ==> View() == old(View())
      ensures r == Joined ==> old(contexts)[c].use >= 1 && View() == LetGo(old(View()), c)
      ensures r == Waits ==> old(readyQueue) != [] && View() == old(View()).(
        ctx := old(contexts)[c := old(contexts)[c].(waiters := old(contexts)[c].waiters + [old(active)])]
                            [old(active) := old(contexts)[old(active)].(joining := Some(c))],
        active := old(readyQueue)[0], ready := old(readyQueue)[1..])
    {
      Facts();
      SomebodyIsReady(m);
      DropEffect(m, c);
      Do(Join(c));
      if c == active {
        return Deadlock;
      }
      if !contexts[c].handle {
        return NotJoinable;
      }
      if contexts[c].terminated {
        ResetHandle(c);
        return Joined;
      }
      contexts := contexts[c := contexts[c].(waiters := contexts[c].waiters + [active])];
      contexts := contexts[active := contexts[active].(joining := Some(c))];
      ResumeNext();
      return Waits;
    }

    /** The rest of join, resumed: the fiber has terminated, its handle is given up. */
    method JoinReturn(c: Ctx)
      requires Valid() && Enabled(m, JoinReturns) && contexts[active].joining == Some(c)
      modifies this
      ensures Valid() && run == old(run) + [JoinReturns]
      ensures c < |contexts| && contexts[c].terminated && !contexts[c].handle
      ensures var t := old(View()).(ctx := old(contexts)[old(active) := old(contexts)[old(active)].(joining := None)]);
        if old(contexts)[c].handle then t.ctx[c].use >= 1 && View() == LetGo(t, c) else View() == t
    {
      Facts();
      JoinDoneKeeps(m);
      assert JoinInv(m, m.active);
      DropEffect(JoinDone(m), c);
      JoinWaitsForTermination(run);
      Do(JoinReturns);
      contexts := contexts[active := contexts[active].(joining := None)];
      ResetHandle(c);
    }

    method DetachFiber(c: Ctx) returns (ok: bool)
      requires Valid() && User(m) && FIRST_WORKER <= c < |contexts|
      modifies this
      ensures Valid() && run == old(run) + [Detach(c)]
      ensures ok <==> old(contexts)[c].handle
      ensures ok ==> old(contexts)[c].use >= 1 && View() == LetGo(old(View()), c)
      ensures !ok ==> View() == old(View())
    {
      Facts();
      DropEffect(m, c);
      Do(Detach(c));
      ok := contexts[c].handle;
      if ok {
        ResetHandle(c);
      }
    }

    /** The scheduler's destructor, up to the switch away from main. */
    method Shutdown()
      requires Valid() && User(m) && active == MAIN && !shutdown
      modifies this
      ensures Valid() && run == old(run) + [BeginShutdown] && old(readyQueue) != []
      ensures View() == old(View()).(shutdown := true, active := old(readyQueue)[0], ready := old(readyQueue)[1..])
    {
      Facts();
      SomebodyIsReady(m);
      Do(BeginShutdown);
      shutdown := true;
      ResumeNext();
    }

    /** The next ready context is resumed, the dispatcher behind all others; or the deadline to wait for. */
    method NextOrSleep() returns (deadline: Option<int>)
      requires AllBelow(sleepQueue, |contexts|)
      modifies this`active, this`readyQueue, this`sleepQueue
      ensures View() == if old(readyQueue) == [] then old(View()) else SetReady(Switch(old(View())), DISPATCHER)
      ensures deadline.Some? <==> old(readyQueue) == []
      ensures deadline.Some? ==> deadline.value == if sleepQueue == [] then NEVER else Tp(View(), sleepQueue[0])
    {
      var next := PickNext();
      if next.Some? {
        active := next.value;
        MakeReady(DISPATCHER);
        return None;
      }
      var suspendTime := NEVER;
      if sleepQueue != [] {
        suspendTime := contexts[sleepQueue[0]].tp;
      }
      return Some(suspendTime);
    }

    /** The end of dispatch: main runs again. */
    method LeaveLoop(ghost now: int)
      requires Valid() && active == DISPATCHER && !done && shutdown && workerQueue == []
      modifies this
      ensures Valid() && run == old(run) + [Dispatch(now)]
      ensures terminatedQueue == [] && sleepQueue == [] && readyQueue == []
      ensures View() == old(View()).(active := MAIN, done := true)
    {
      Facts();
      RoundFacts(m, now);
      Do(Dispatch(now));
      ReleaseTerminated();
      active, done := MAIN, true;
    }

    /** A round that goes on: a switch, or the deadline to wait for. */
    method KeepDispatching(now: int) returns (deadline: Option<int>)
      requires Valid() && active == DISPATCHER && !done && !(shutdown && workerQueue == [])
      modifies this
      ensures Valid() && run == old(run) + [Dispatch(now)]
      ensures deadline.Some? ==> active == DISPATCHER && readyQueue == []
      ensures deadline.Some? ==> forall c :: c in sleepQueue ==> now < deadline.value <= Tp(m, c)
      ensures deadline.Some? ==> deadline.value == if sleepQueue == [] then NEVER else Tp(m, sleepQueue[0])
      ensures deadline == None ==> readyQueue != [] && readyQueue[|readyQueue| - 1] == DISPATCHER
      ensures m == DispatchStep(old(m), now)
    {
      Facts();
      RoundFacts(m, now);
      Do(Dispatch(now));
      ReleaseTerminated();
      Sleep2Ready(now);
      deadline := NextOrSleep();
    }

    /** One round of dispatch: left for good, a switch to the next ready context, or, with nothing ready,
        a wait for at most the earliest deadline. */
    method DispatchRound(now: int) returns (left: bool, deadline: Option<int>)
      requires Valid() && active == DISPATCHER && !done
      modifies this
      ensures Valid() && run == old(run) + [Dispatch(now)]
      ensures left <==> old(shutdown) && old(workerQueue) == []
      ensures left ==> terminatedQueue == [] && sleepQueue == [] && readyQueue == [] && deadline == None
      ensures if left then View() == old(View()).(active := MAIN, done := true) else RoundDone(old(View()), View(), now)
      ensures deadline.Some? ==> !left && active == DISPATCHER && readyQueue == []
      ensures deadline.Some? ==> forall c :: c in sleepQueue ==> now < deadline.value <= Tp(m, c)
      ensures deadline.Some? ==> deadline.value == if sleepQueue == [] then NEVER else Tp(m, sleepQueue[0])
      ensures !left && deadline == None ==> readyQueue != [] && readyQueue[|readyQueue| - 1] == DISPATCHER
    {
      var noWorker := workerQueue == [];
      if shutdown && noWorker {
        LeaveLoop(now);
        return true, None;
      }
      ghost var before := m;
      Facts();
      deadline := KeepDispatching(now);
      RoundEffect(before, now);
      left := false;
    }
  }

  predicate AllBelow(q: seq<Ctx>, n: nat) {
    forall k :: 0 <= k < |q| ==> q[k] < n
  }

  lemma QueuedExist(s: State)
    requires Core(s, false)
    ensures AllBelow(s.terminated, |s.ctx|) && AllBelow(s.sleep, |s.ctx|)
  {
    forall k | 0 <= k < |s.terminated| ensures s.terminated[k] < |s.ctx| { assert PlaceInv(s, s.terminated[k], false); }
    forall k | 0 <= k < |s.sleep| ensures s.sleep[k] < |s.ctx| { assert PlaceInv(s, s.sleep[k], false); }
  }

  /** An insertion passes a later deadline. */
  lemma InsertPasses(s: State, q: seq<Ctx>, c: Ctx, i: nat)
    requires 0 < i <= |q| && Tp(s, q[i - 1]) > Tp(s, c)
    ensures Insert(s, q[..i], c) + q[i..] == Insert(s, q[..i - 1], c) + q[i - 1..]
  {
    assert q[..i][..i - 1] == q[..i - 1];
    assert Insert(s, q[..i], c) == Insert(s, q[..i - 1], c) + [q[i - 1]];
    assert q[i - 1..] == [q[i - 1]] + q[i..];
    assert (Insert(s, q[..i - 1], c) + [q[i - 1]]) + q[i..] == Insert(s, q[..i - 1], c) + ([q[i - 1]] + q[i..]);
  }

  lemma WholeQueue(s: State, q: seq<Ctx>, c: Ctx)
    ensures Insert(s, q, c) == Insert(s, q[..|q|], c) + q[|q|..]
  {
    assert q[..|q|] == q && q[|q|..] == [];
  }

  lemma InsertStops(s: State, q: seq<Ctx>, c: Ctx, i: nat)
    requires i <= |q| && (i == 0 || Tp(s, q[i - 1]) <= Tp(s, c))
    ensures Insert(s, q[..i], c) == q[..i] + [c]
  {
  }

  /** What a round computes with, for the object that computes it. */
  lemma RoundFacts(s: State, now: int)
    requires Inv(s) && s.active == DISPATCHER && !s.done
    ensures AllBelow(s.terminated, |s.ctx|) && AllBelow(Sweep(s).sleep, |Sweep(s).ctx|)
    ensures var u := Expire(Sweep(s), now);
      && AllBelow(u.sleep, |u.ctx|) && u.active == DISPATCHER
      && forall c :: c in u.sleep ==> now < Tp(u, u.sleep[0]) <= Tp(u, c)
    ensures s.shutdown && s.worker == [] ==> Sweep(s) == s && s.terminated == [] && s.sleep == [] && s.ready == []
  {
    SweepKeeps(s);
    ExpireKeeps(Sweep(s), now);
    QueuedExist(s);
    QueuedExist(Sweep(s));
    var u := Expire(Sweep(s), now);
    QueuedExist(u);
    EarliestFirst(u, now);
    if s.shutdown && s.worker == [] { NothingLeft(s); }
  }

  lemma EarliestFirst(u: State, now: int)
    requires Core(u, false) && forall c :: c in u.sleep ==> Tp(u, c) > now
    ensures forall c :: c in u.sleep ==> now < Tp(u, u.sleep[0]) <= Tp(u, c)
  {
    forall c | c in u.sleep ensures now < Tp(u, u.sleep[0]) <= Tp(u, c) {
      var j :| 0 <= j < |u.sleep| && u.sleep[j] == c;
      assert j > 0 ==> Tp(u, u.sleep[0]) <= Tp(u, u.sleep[j]);
      assert u.sleep[0] in u.sleep;
    }
  }
}
