/** context_spmc_queue: one pusher, any number of poppers, a ring array that grows. */
module SpmcQueue {
  import opened Options
  import opened Ring
  import Runs

  type Ctx = nat

  datatype Pusher =
    | PushIdle
    | Loaded(ctx: Ctx, seen: nat)    // loaded top_ and array_
    | Roomy(ctx: Ctx, seen: nat)     // the current array has room
    | Written(ctx: Ctx, seen: nat)   // slot written, bottom_ not stored yet

  datatype Popper =
    | PopIdle
    | HasTop(t: nat)
    | HasBottom(t: nat)                    // top < bottom was seen
    | HasArray(t: nat, a: int)             // which array was loaded
    | HasValue(t: nat, v: Option<Ctx>)     // what its slot held

  /** `arrays` lists every array ever installed, the current one last. */
  datatype State = State(
    top: nat, bottom: nat, arrays: seq<seq<Option<Ctx>>>, pinned: set<Ctx>,
    pusher: Pusher, poppers: seq<Popper>,
    pushed: seq<Ctx>, popped: seq<Ctx>)

  datatype Step =
    | PushLoad(ctx: Ctx)
    | PushResize
    | PushPut
    | PushPublish
    | PopTop(p: nat)
    | PopBottom(p: nat)
    | PopArray(p: nat)
    | PopRead(p: nat)
    | PopCas(p: nat)

  predicate IsPush(a: Step) {
    a.PushLoad? || a.PushResize? || a.PushPut? || a.PushPublish?
  }

  const INITIAL_SIZE := 1024

  function Init(n: nat, pinned: set<Ctx>): State {
    State(0, 0, [seq(INITIAL_SIZE, _ => None)], pinned, PushIdle, seq(n, _ => PopIdle), [], [])
  }

  predicate Enabled(s: State, a: Step) {
    match a
    case PushLoad(_) => s.pusher.PushIdle?
    case PushResize => s.pusher.Loaded?
    case PushPut => s.pusher.Roomy?
    case PushPublish => s.pusher.Written?
    case PopTop(p) => p < |s.poppers| && s.poppers[p].PopIdle?
    case PopBottom(p) => p < |s.poppers| && s.poppers[p].HasTop?
    case PopArray(p) => p < |s.poppers| && s.poppers[p].HasBottom?
    case PopRead(p) => p < |s.poppers| && s.poppers[p].HasArray?
    case PopCas(p) => p < |s.poppers| && s.poppers[p].HasValue?
  }

  function Current(s: State): seq<Option<Ctx>> {
    if s.arrays == [] then [] else s.arrays[|s.arrays| - 1]
  }

  predicate Full(s: State)
    requires s.pusher.Loaded?
  {
    |Current(s)| - 1 < s.bottom - s.pusher.seen
  }

  function Apply(s: State, a: Step): State {
    if !Enabled(s, a) then s else
    match a
    case PushLoad(ctx) => s.(pusher := Loaded(ctx, s.top))
    case PushResize =>
      s.(arrays := if Full(s) then s.arrays + [Resized(Current(s), s.pusher.seen, s.bottom)] else s.arrays,
         pusher := Roomy(s.pusher.ctx, s.pusher.seen))
    case PushPut =>
      s.(arrays := if s.arrays == [] then [] else
           s.arrays[|s.arrays| - 1 := Put(Current(s), s.bottom, Some(s.pusher.ctx))],
         pusher := Written(s.pusher.ctx, s.pusher.seen))
    case PushPublish =>
      s.(bottom := s.bottom + 1, pushed := s.pushed + [s.pusher.ctx], pusher := PushIdle)
    case PopTop(p) => s.(poppers := s.poppers[p := HasTop(s.top)])
    case PopBottom(p) =>
      s.(poppers := s.poppers[p := if s.poppers[p].t < s.bottom then HasBottom(s.poppers[p].t) else PopIdle])
    case PopArray(p) => s.(poppers := s.poppers[p := HasArray(s.poppers[p].t, |s.arrays| - 1)])
    case PopRead(p) =>
      var w := s.poppers[p];
      s.(poppers := s.poppers[p := HasValue(w.t, if 0 <= w.a < |s.arrays| then Get(s.arrays[w.a], w.t) else None)])
    case PopCas(p) => Cas(s, p)
  }

  /** A pinned (or unreadable) context makes the pop give up; otherwise top_ is compared and swapped. */
  function Cas(s: State, p: nat): State
    requires Enabled(s, PopCas(p))
  {
    var w := s.poppers[p];
    var idle := s.(poppers := s.poppers[p := PopIdle]);
    if w.v == None || w.v.value in s.pinned || s.top != w.t then idle
    else idle.(top := s.top + 1, popped := s.popped + [w.v.value])
  }

  /** The entries from..bottom of the push log are where an array should hold them. */
  ghost predicate Holds(items: seq<Option<Ctx>>, pushed: seq<Ctx>, from: nat) {
    && |items| > 0
    && forall i: nat :: from <= i < |pushed| ==> items[Slot(i, |items|)] == Some(pushed[i])
  }

  ghost predicate PusherInv(s: State)
    requires |s.arrays| > 0
  {
    match s.pusher
    case PushIdle => true
    case Loaded(_, t) => t <= s.top && s.bottom - t <= |Current(s)| && Holds(Current(s), s.pushed, t)
    case Roomy(_, t) => t <= s.top && s.bottom - t < |Current(s)|
    case Written(ctx, t) =>
      && t <= s.top && s.bottom - t < |Current(s)|
      && Get(Current(s), s.bottom) == Some(ctx)
  }

  /** A popper whose top is still current has read, or will read, the entry it is about to take. */
  ghost predicate PopperInv(s: State, w: Popper) {
    match w
    case PopIdle => true
    case HasTop(t) => t <= s.top
    case HasBottom(t) => t <= s.top && t < s.bottom
    case HasArray(t, a) =>
      && t <= s.top && t < s.bottom && t < |s.pushed| && 0 <= a < |s.arrays|
      && (t == s.top ==> Get(s.arrays[a], t) == Some(s.pushed[t]))
    case HasValue(t, v) =>
      && t <= s.top && t < s.bottom && t < |s.pushed|
      && (t == s.top ==> v == Some(s.pushed[t]))
  }

  ghost predicate Inv(s: State) {
    && s.top <= s.bottom == |s.pushed|
    && s.popped == s.pushed[..s.top]
    && |s.arrays| > 0
    && (forall a :: 0 <= a < |s.arrays| ==> |s.arrays[a]| > 0)
    && s.bottom - s.top <= |Current(s)|
    && Holds(Current(s), s.pushed, s.top)
    && PusherInv(s)
    && forall p :: 0 <= p < |s.poppers| ==> PopperInv(s, s.poppers[p])
  }

  lemma ResizeKeeps(s: State)
    requires Inv(s) && s.pusher.Loaded? && Full(s)
    ensures Holds(Resized(Current(s), s.pusher.seen, s.bottom), s.pushed, s.pusher.seen)
  {
    var src := Current(s);
    forall i: nat | s.pusher.seen <= i < |s.pushed|
      ensures Resized(src, s.pusher.seen, s.bottom)[Slot(i, 2 * |src|)] == Some(s.pushed[i])
    {
      ResizedKeeps(src, s.pusher.seen, s.bottom, i);
    }
  }

  lemma PutKeeps(s: State)
    requires Inv(s) && s.pusher.Roomy?
    ensures var cur := Put(Current(s), s.bottom, Some(s.pusher.ctx));
      Holds(cur, s.pushed, s.top) && Get(cur, s.bottom) == Some(s.pusher.ctx)
  {
    forall i: nat | s.top <= i < s.bottom
      ensures Slot(i, |Current(s)|) != Slot(s.bottom, |Current(s)|)
    {
      Distinct(i, s.bottom, |Current(s)|);
    }
  }

  lemma PushKeepsInv(s: State, a: Step)
    requires Inv(s) && Enabled(s, a) && (a.PushLoad? || a.PushPublish?)
    ensures Inv(Apply(s, a))
  {
    var s' := Apply(s, a);
    assert s'.arrays == s.arrays && s'.poppers == s.poppers && s'.top == s.top;
    forall p | 0 <= p < |s.poppers| ensures PopperInv(s', s.poppers[p]) {
      assert PopperInv(s, s.poppers[p]);
    }
  }

  lemma GrowKeepsInv(s: State)
    requires Inv(s) && s.pusher.Loaded?
    ensures Inv(Apply(s, PushResize))
  {
    var s' := Apply(s, PushResize);
    if Full(s) { ResizeKeeps(s); }
    forall p | 0 <= p < |s.poppers| ensures PopperInv(s', s.poppers[p]) {
      assert PopperInv(s, s.poppers[p]);
    }
  }

  lemma PutKeepsInv(s: State)
    requires Inv(s) && s.pusher.Roomy?
    ensures Inv(Apply(s, PushPut))
  {
    var s' := Apply(s, PushPut);
    PutKeeps(s);
    forall p | 0 <= p < |s.poppers| ensures PopperInv(s', s.poppers[p]) {
      assert PopperInv(s, s.poppers[p]);
    }
  }

  lemma SetPopper(s: State, p: nat, w: Popper)
    requires Inv(s) && p < |s.poppers| && PopperInv(s, w)
    ensures Inv(s.(poppers := s.poppers[p := w]))
  {
    var s' := s.(poppers := s.poppers[p := w]);
    forall q | 0 <= q < |s'.poppers| ensures PopperInv(s', s'.poppers[q]) {
      assert PopperInv(s, s.poppers[q]);
    }
  }

  lemma WinKeepsInv(s: State, p: nat)
    requires Inv(s) && Enabled(s, PopCas(p))
    ensures Inv(Apply(s, PopCas(p)))
  {
    var s' := Apply(s, PopCas(p));
    assert PopperInv(s, s.poppers[p]);
    SetPopper(s, p, PopIdle);
    var idle := s.(poppers := s.poppers[p := PopIdle]);
    forall q | 0 <= q < |s'.poppers| ensures PopperInv(s', s'.poppers[q]) {
      assert PopperInv(idle, idle.poppers[q]);
    }
  }

  lemma StepKeepsInv(s: State, a: Step)
    requires Inv(s)
    ensures Inv(Apply(s, a))
  {
    if Enabled(s, a) {
      match a
      case PushResize => GrowKeepsInv(s);
      case PushPut => PutKeepsInv(s);
      case PushLoad(_) => PushKeepsInv(s, a);
      case PushPublish => PushKeepsInv(s, a);
      case PopCas(p) => WinKeepsInv(s, p);
      case PopTop(p) => SetPopper(s, p, Apply(s, a).poppers[p]);
      case PopBottom(p) => assert PopperInv(s, s.poppers[p]); SetPopper(s, p, Apply(s, a).poppers[p]);
      case PopArray(p) => assert PopperInv(s, s.poppers[p]); SetPopper(s, p, Apply(s, a).poppers[p]);
      case PopRead(p) => assert PopperInv(s, s.poppers[p]); SetPopper(s, p, Apply(s, a).poppers[p]);
    }
  }

  lemma AlwaysInv(n: nat, pinned: set<Ctx>, run: seq<Step>)
    ensures Inv(Runs.Exec(Apply, Init(n, pinned), run))
  {
    forall s: State, a: Step | Inv(s) ensures Inv(Apply(s, a)) { StepKeepsInv(s, a); }
    Runs.Invariant(Apply, Inv, Init(n, pinned), run);
  }

  lemma NonEmptyArrays(n: nat, pinned: set<Ctx>, run: seq<Step>)
    ensures var s := Runs.Exec(Apply, Init(n, pinned), run);
      forall a :: 0 <= a < |s.arrays| ==> |s.arrays[a]| > 0
  {
    AlwaysInv(n, pinned, run);
  }

  /** The k-th successful compare-and-swap of top_ returned exactly the k-th pushed context:
      nothing is lost, duplicated or reordered, however many poppers held outgrown arrays. */
  lemma PopsAreFifo(n: nat, pinned: set<Ctx>, run: seq<Step>)
    ensures var s := Runs.Exec(Apply, Init(n, pinned), run);
      && |s.popped| == s.top && s.popped <= s.pushed
      && forall i: nat :: s.top <= i < |s.pushed| ==> Get(Current(s), i) == Some(s.pushed[i])
  {
    AlwaysInv(n, pinned, run);
  }

  /** A popper that loaded its array before it was outgrown still reads the entry it is about to take,
      as long as top_ has not moved, whatever the others did in between. */
  lemma OutgrownArrayStaysGood(n: nat, pinned: set<Ctx>, run: seq<Step>, more: seq<Step>, p: nat)
    requires var w := Runs.Exec(Apply, Init(n, pinned), run); p < |w.poppers| && w.poppers[p].HasArray?
    requires forall k :: 0 <= k < |more| ==> !Acts(p, more[k])
    ensures var w := Runs.Exec(Apply, Init(n, pinned), run).poppers[p];
      var s := Runs.Exec(Apply, Init(n, pinned), run + more);
      s.top == w.t ==> 0 <= w.a < |s.arrays| && w.t < |s.pushed| && Get(s.arrays[w.a], w.t) == Some(s.pushed[w.t])
  {
    var w := Runs.Exec(Apply, Init(n, pinned), run);
    Runs.Split(Apply, Init(n, pinned), run, more);
    ForeignSteps(w, more, p);
    AlwaysInv(n, pinned, run + more);
    var s := Runs.Exec(Apply, Init(n, pinned), run + more);
    assert PopperInv(s, s.poppers[p]);
  }

  /** What a pop about to decide can conclude, in every reachable state: it finds the queue empty only
      when it is; and a failed swap means the entry at its index has already been taken by another pop. */
  lemma PopAnswers(n: nat, pinned: set<Ctx>, run: seq<Step>, p: nat)
    requires p < |Runs.Exec(Apply, Init(n, pinned), run).poppers|
    ensures var s := Runs.Exec(Apply, Init(n, pinned), run); var w := s.poppers[p];
      && (w.HasTop? && w.t >= s.bottom ==> s.top == s.bottom)
      && (w.HasValue? && s.top != w.t ==> w.t < |s.popped| && w.t < |s.pushed| && s.popped[w.t] == s.pushed[w.t])
      && (w.HasValue? && s.top == w.t ==> w.t < |s.pushed| && w.v == Some(s.pushed[w.t]))
  {
    AlwaysInv(n, pinned, run);
    var s := Runs.Exec(Apply, Init(n, pinned), run);
    assert PopperInv(s, s.poppers[p]);
  }

  predicate IsEmpty(s: State) { s.top == s.bottom }

  predicate Acts(p: nat, a: Step) {
    !IsPush(a) && a.p == p
  }

  lemma {:induction false} ForeignSteps(s: State, steps: seq<Step>, p: nat)
    requires p < |s.poppers| && forall k :: 0 <= k < |steps| ==> !Acts(p, steps[k])
    ensures var s' := Runs.Exec(Apply, s, steps);
      |s'.poppers| == |s.poppers| && s'.poppers[p] == s.poppers[p] && s.top <= s'.top
    decreases |steps|
  {
    if steps != [] {
      ForeignSteps(s, steps[..|steps| - 1], p);
      assert !Acts(p, steps[|steps| - 1]);
    }
  }

  lemma {:induction false} PoppersOnly(s: State, steps: seq<Step>)
    requires forall k :: 0 <= k < |steps| ==> !IsPush(steps[k])
    ensures var s' := Runs.Exec(Apply, s, steps);
      s'.pusher == s.pusher && s'.bottom == s.bottom && s'.arrays == s.arrays && s'.pushed == s.pushed
      && s.top <= s'.top
    decreases |steps|
  {
    if steps != [] {
      PoppersOnly(s, steps[..|steps| - 1]);
      assert !IsPush(steps[|steps| - 1]);
    }
  }

  /** The queue in the form of the source; between atomic accesses the other threads run freely. */
  class ContextSpmcQueue {
    var top: nat
    var bottom: nat
    var current: array<Option<Ctx>>
    var oldArrays: seq<array<Option<Ctx>>>
    ghost const poppers: nat
    const pinned: set<Ctx>     // contexts that must not leave their thread
    ghost var run: seq<Step>
    ghost var m: State

    ghost predicate Valid()
      reads this, current, oldArrays
    {
      && Runs.Reached(Apply, Init(poppers, pinned), run, m)
      && top == m.top && bottom == m.bottom && m.pinned == pinned && |m.poppers| == poppers
      && |m.arrays| == |oldArrays| + 1
      && current[..] == m.arrays[|oldArrays|] && current !in oldArrays
      && forall k :: 0 <= k < |oldArrays| ==> oldArrays[k][..] == m.arrays[k]
    }

    constructor (ghost poppers: nat, pinned: set<Ctx>)
      ensures Valid() && fresh(current) && run == []
      ensures this.poppers == poppers && this.pinned == pinned
    {
      top, bottom := 0, 0;
      current := new Option<Ctx>[INITIAL_SIZE](_ => None);
      oldArrays := [];
      this.poppers, this.pinned := poppers, pinned;
      run, m := [], Init(poppers, pinned);
      new;
      Runs.Start(Apply, Init(poppers, pinned));
    }

    ghost method Do(a: Step)
      requires Runs.Reached(Apply, Init(poppers, pinned), run, m)
      modifies this`run, this`m
      ensures run == old(run) + [a] && m == Apply(old(m), a)
      ensures Runs.Reached(Apply, Init(poppers, pinned), run, m)
    {
      run, m := Runs.Then(Apply, Init(poppers, pinned), run, m, a);
    }

    /** Anything the poppers may do before the pusher runs again. */
    method InterfereWithPush()
      requires Valid()
      modifies this`top, this`run, this`m
      ensures Valid() && old(run) <= run
      ensures forall k :: |old(run)| <= k < |run| ==> !IsPush(run[k])
    {
    }

    /** Anything the pusher and the other poppers may do before popper p runs again. */
    method InterfereWithPop(ghost p: nat)
      requires Valid() && p < poppers
      modifies this, current
      ensures Valid() && old(run) <= run
      ensures forall k :: |old(run)| <= k < |run| ==> !Acts(p, run[k])
      ensures old(Arrays()) <= Arrays()
      ensures current == old(current) || fresh(current)
    {
    }

    ghost function Arrays(): seq<array<Option<Ctx>>>
      reads this
    {
      oldArrays + [current]
    }

    method PreemptPop(ghost p: nat)
      requires Valid() && p < poppers
      modifies this, current
      ensures Valid() && old(run) <= run && m.poppers[p] == old(m.poppers[p])
      ensures old(Arrays()) <= Arrays()
      ensures current == old(current) || fresh(current)
      ensures old(m).top <= m.top
    {
      InterfereWithPop(p);
      ghost var more := run[|old(run)|..];
      assert run == old(run) + more;
      Runs.Split(Apply, Init(poppers, pinned), old(run), more);
      ForeignSteps(old(m), more, p);
    }

    method PreemptPush()
      requires Valid()
      modifies this`top, this`run, this`m
      ensures Valid() && old(run) <= run
      ensures m.pusher == old(m.pusher) && m.arrays == old(m.arrays) && m.bottom == old(m.bottom)
      ensures m.pushed == old(m.pushed)
    {
      InterfereWithPush();
      ghost var more := run[|old(run)|..];
      assert run == old(run) + more;
      Runs.Split(Apply, Init(poppers, pinned), old(run), more);
      PoppersOnly(old(m), more);
    }

    /** array::push and array::pop */
    static method PutItem(a: array<Option<Ctx>>, i: nat, v: Option<Ctx>)
      requires a.Length > 0
      modifies a
      ensures a[..] == Put(old(a[..]), i, v)
    {
      Remainder(i, a.Length);
      a[i % a.Length] := v;
    }

    static method GetItem(a: array<Option<Ctx>>, i: nat) returns (v: Option<Ctx>)
      requires a.Length > 0
      ensures v == Get(a[..], i)
    {
      Remainder(i, a.Length);
      v := a[i % a.Length];
    }

    static method Resize(a: array<Option<Ctx>>, bottom: nat, top: nat) returns (tmp: array<Option<Ctx>>)
      requires a.Length > 0
      requires top <= bottom
      ensures fresh(tmp) && tmp[..] == Resized(a[..], top, bottom)
    {
      tmp := new Option<Ctx>[2 * a.Length](_ => None);
      ResizedStart(a[..], tmp[..], top, bottom);
      var i := top;
      while i != bottom
        invariant top <= i <= bottom && tmp.Length == 2 * a.Length
        invariant Copy(a[..], tmp[..], i, bottom) == Resized(a[..], top, bottom)
        decreases bottom - i
      {
        var v := GetItem(a, i);
        PutItem(tmp, i, v);
        i := i + 1;
      }
    }

    /** The full array is kept for the poppers that hold it; a larger copy takes its place. */
    method Outgrow(b: nat, t: nat)
      requires current.Length > 0 && t <= b
      modifies this`current, this`oldArrays
      ensures oldArrays == old(oldArrays) + [old(current)] && fresh(current)
      ensures current[..] == Resized(old(current[..]), t, b)
    {
      var tmp := Resize(current, b, t);
      oldArrays := oldArrays + [current];
      current := tmp;
    }

    method LoadIndices(ctx: Ctx) returns (b: nat, t: nat)
      requires Valid() && m.pusher.PushIdle?
      modifies this`top, this`run, this`m
      ensures Valid() && old(run) <= run && m.pusher == Loaded(ctx, t)
      ensures m.pushed == old(m.pushed) && b == m.bottom
    {
      PreemptPush();
      b, t := bottom, top;
      Do(PushLoad(ctx));
    }

    /** A full array is replaced by one of twice the size. */
    method MakeRoom(b: nat, t: nat)
      requires Valid() && m.pusher.Loaded? && t == m.pusher.seen && b == m.bottom
      modifies this`top, this`current, this`oldArrays, this`run, this`m
      ensures Valid() && old(run) <= run && m.pusher == Roomy(old(m).pusher.ctx, t)
      ensures m.pushed == old(m.pushed) && m.bottom == b
      ensures old(Arrays()) <= Arrays() && (current == old(current) || fresh(current))
    {
      PreemptPush();
      AlwaysInv(poppers, pinned, run);
      if current.Length - 1 < b - t {
        Outgrow(b, t);
      }
      Do(PushResize);
    }

    method Store(b: nat, ctx: Ctx)
      requires Valid() && m.pusher.Roomy? && m.pusher.ctx == ctx && b == m.bottom
      modifies this`top, this`run, this`m, current
      ensures Valid() && old(run) <= run && m.pusher.Written? && m.pusher.ctx == ctx
      ensures m.pushed == old(m.pushed) && m.bottom == b
    {
      PreemptPush();
      AlwaysInv(poppers, pinned, run);
      Remainder(b, current.Length);
      ghost var before := current[..];
      current[b % current.Length] := Some(ctx);
      assert current[..] == Put(before, b, Some(ctx));
      Do(PushPut);
    }

    /** push(ctx) */
    method Push(ctx: Ctx)
      requires Valid() && m.pusher.PushIdle?
      modifies this, current
      ensures Valid() && old(run) <= run && m.pusher.PushIdle?
      ensures m.pushed == old(m.pushed) + [ctx]
      ensures old(Arrays()) <= Arrays() && (current == old(current) || fresh(current))
    {
      var b, t := LoadIndices(ctx);
      MakeRoom(b, t);
      Store(b, ctx);
      PreemptPush();
      bottom := b + 1;
      Do(PushPublish);
    }

    method LoadTop(ghost p: nat) returns (t: nat)
      requires Valid() && p < poppers && m.poppers[p].PopIdle?
      modifies this, current
      ensures Valid() && old(run) <= run && (current == old(current) || fresh(current))
      ensures m.poppers[p] == HasTop(t) && old(m).top <= t == m.top
    {
      PreemptPop(p);
      t := top;
      Do(PopTop(p));
    }

    /** The look at bottom_: finding nothing means that the queue is empty. */
    method SeesEntry(ghost p: nat, t: nat) returns (found: bool)
      requires Valid() && p < poppers && m.poppers[p] == HasTop(t)
      modifies this, current
      ensures Valid() && old(run) <= run && (current == old(current) || fresh(current))
      ensures m.poppers[p] == (if found then HasBottom(t) else PopIdle) && old(m).top <= m.top
      ensures !found ==> Runs.Passes(Apply, Init(poppers, pinned), run, |old(run)|, IsEmpty)
    {
      PreemptPop(p);
      found := t < bottom;
      if !found {
        PopAnswers(poppers, pinned, run, p);
        Runs.PassesNow(Apply, Init(poppers, pinned), run, m, |old(run)|, PopBottom(p), IsEmpty);
      }
      Do(PopBottom(p));
    }

    method LoadArray(ghost p: nat, ghost t: nat) returns (a: array<Option<Ctx>>, ghost k: nat)
      requires Valid() && p < poppers && m.poppers[p] == HasBottom(t)
      modifies this, current
      ensures Valid() && old(run) <= run && (current == old(current) || fresh(current))
      ensures old(m).top <= m.top && m.poppers[p] == HasArray(t, k) && k < |Arrays()| && a == Arrays()[k]
    {
      PreemptPop(p);
      a, k := current, |oldArrays|;
      Do(PopArray(p));
    }

    method ReadEntry(ghost p: nat, t: nat) returns (v: Option<Ctx>)
      requires Valid() && p < poppers && m.poppers[p] == HasBottom(t)
      modifies this, current
      ensures Valid() && old(run) <= run && (current == old(current) || fresh(current))
      ensures old(m).top <= m.top && m.poppers[p] == HasValue(t, v)
    {
      var a, k := LoadArray(p, t);
      PreemptPop(p);
      assert a == Arrays()[k] && a[..] == m.arrays[k];
      NonEmptyArrays(poppers, pinned, run);
      assert m == Runs.Exec(Apply, Init(poppers, pinned), run);
      assert |a[..]| > 0;
      Remainder(t, a.Length);
      v := a[t % a.Length];
      Do(PopRead(p));
    }

    lemma WinTakesNext(p: nat)
      requires Valid() && p < poppers && m.poppers[p].HasValue?
      ensures m.poppers[p].t <= m.top
      ensures m.poppers[p].t == m.top ==> m.top < |m.pushed| && m.poppers[p].v == Some(m.pushed[m.top])
    {
      AlwaysInv(poppers, pinned, run);
      assert PopperInv(m, m.poppers[p]);
    }

    /** The look at the entry and the compare-and-swap of top_. */
    method SwapTop(ghost p: nat, t: nat, v: Option<Ctx>) returns (won: bool)
      requires Valid() && p < poppers && m.poppers[p] == HasValue(t, v)
      modifies this, current
      ensures Valid() && old(run) <= run && m.poppers[p].PopIdle? && old(m).top <= m.top
      ensures won ==> m.top == t + 1 <= |m.pushed| && v == Some(m.pushed[t]) && m.pushed[t] !in pinned
      ensures !won ==> t < m.top || (t == m.top < |m.pushed| && m.pushed[t] in pinned)
    {
      PreemptPop(p);
      WinTakesNext(p);
      won := v != None && v.value !in pinned && top == t;
      if won {
        top := t + 1;
      }
      Do(PopCas(p));
    }

    /** pop() by popper p: the very entry its swap of top_ took off the push log; or null, when the queue was
        empty at some instant, another pop has taken an entry meanwhile, or the front context is pinned. */
    method Pop(ghost p: nat) returns (r: Option<Ctx>)
      requires Valid() && p < poppers && m.poppers[p].PopIdle?
      modifies this, current
      ensures Valid() && old(run) <= run && m.poppers[p].PopIdle?
      ensures r.Some? ==>
        old(m).top < m.top <= |m.pushed| && r.value == m.pushed[m.top - 1] && r.value !in pinned
      ensures r == None ==>
        || Runs.Passes(Apply, Init(poppers, pinned), run, |old(run)|, IsEmpty)
        || old(m).top < m.top
        || (m.top < |m.pushed| && m.pushed[m.top] in pinned)
    {
      r := None;
      var t := LoadTop(p);
      var found := SeesEntry(p, t);
      if found {
        var v := ReadEntry(p, t);
        var won := SwapTop(p, t, v);
        if won {
          r := v;
        }
      }
    }
  }
}
