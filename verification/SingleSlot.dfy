/** The ring of buffered_channel with one slot, which its constructor accepts. A push leaves its slot at
    idx + 1 and a pop at idx + capacity, so with one slot "published" and "free again" look alike. */
module SingleSlot {
  import opened Options
  import opened Ring
  import opened RingChannel
  import Runs

  /** Between operations that do not overlap the slot shows the producer's index and holds the last value. */
  ghost predicate Single(s: State) {
    && s.cap == |s.cycle| == |s.store| == 1 && s.cycle[0] == s.prod == |s.pushLog| == |s.phase| && s.cons <= s.prod
    && (forall t :: 0 <= t < |s.pc| ==> s.pc[t].Idle?)
    && (s.cons < s.prod ==> s.store[0] == Some(s.pushLog[s.prod - 1]))
    && (forall i: nat :: i < s.cons ==> i in s.got && s.got[i] == Some(s.pushLog[i]))
  }

  lemma SingleStart(n: nat)
    ensures Single(Init(1, n))
  {
  }

  /** The slot never looks full. */
  lemma NeverFull(s: State)
    requires Single(s)
    ensures !IsFull(s) && (IsEmpty(s) <==> Queue(s) == [])
  {
  }

  /** An idle thread finds the slot at the producer's index. */
  predicate Open(s: State, t: nat) {
    && s.cap == |s.cycle| == |s.store| == 1 && s.cycle[0] == s.prod == |s.pushLog| == |s.phase|
    && t < |s.pc| && s.pc[t].Idle?
  }

  lemma Claim(n: nat, run: seq<Step>, s: State, t: nat, v: Value) returns (run': seq<Step>, s': State)
    requires Runs.Reached(Apply, Init(1, n), run, s) && Open(s, t)
    ensures Runs.Reached(Apply, Init(1, n), run', s')
    ensures s' == s.(pc := s.pc[t := PushStore(v, s.prod)], prod := s.prod + 1, pushLog := s.pushLog + [v],
                     phase := s.phase + [Writing(t)])
  {
    run', s' := Runs.Then(Apply, Init(1, n), run, s, PushBegin(t, v));
    run', s' := Runs.Then(Apply, Init(1, n), run', s', PushLoadIndex(t));
    run', s' := Runs.Then(Apply, Init(1, n), run', s', PushLoadCycle(t));
    run', s' := Runs.Then(Apply, Init(1, n), run', s', PushClaim(t, false));
    assert s'.pc == s.pc[t := PushStore(v, s.prod)];
  }

  /** Then its push succeeds, over whatever is stored. */
  lemma PushOver(n: nat, run: seq<Step>, s: State, t: nat, v: Value) returns (run': seq<Step>, s': State)
    requires Runs.Reached(Apply, Init(1, n), run, s) && Open(s, t)
    ensures Runs.Reached(Apply, Init(1, n), run', s') && |s'.phase| == s.prod + 1
    ensures s' == s.(prod := s.prod + 1, pushLog := s.pushLog + [v], cycle := [s.prod + 1], store := [Some(v)],
                     phase := s'.phase)
  {
    run', s' := Claim(n, run, s, t, v);
    run', s' := Runs.Then(Apply, Init(1, n), run', s', PushWrite(t));
    run', s' := Runs.Then(Apply, Init(1, n), run', s', PushPublish(t));
    assert s'.pc == s.pc && s'.cycle == [s.prod + 1] && s'.store == [Some(v)];
  }

  /** So an undisturbed push always succeeds. */
  lemma Push(n: nat, run: seq<Step>, s: State, t: nat, v: Value) returns (run': seq<Step>, s': State)
    requires Runs.Reached(Apply, Init(1, n), run, s) && Single(s) && t < |s.pc|
    ensures Runs.Reached(Apply, Init(1, n), run', s') && Single(s')
    ensures s'.pc == s.pc && s'.cons == s.cons && s'.got == s.got
    ensures s'.pushLog == s.pushLog + [v] && Queue(s') == Queue(s) + [v]
  {
    run', s' := PushOver(n, run, s, t, v);
  }

  /** An undisturbed pop up to its decision. */
  lemma Look(n: nat, run: seq<Step>, s: State, t: nat) returns (run': seq<Step>, s': State)
    requires Runs.Reached(Apply, Init(1, n), run, s) && Single(s) && t < |s.pc|
    ensures Runs.Reached(Apply, Init(1, n), run', s')
    ensures s' == s.(pc := s.pc[t := match |Queue(s)| case 0 => Idle case 1 => PopCas(s.cons) case _ => PopIndex])
  {
    run', s' := Runs.Then(Apply, Init(1, n), run, s, PopBegin(t));
    run', s' := Runs.Then(Apply, Init(1, n), run', s', PopLoadIndex(t));
    run', s' := Runs.Then(Apply, Init(1, n), run', s', PopLoadCycle(t));
    assert s'.pc == s.pc[t := match |Queue(s)| case 0 => Idle case 1 => PopCas(s.cons) case _ => PopIndex];
  }

  /** Thread t looks for a slot behind the one it is shown; nobody else is at work. */
  ghost predicate Spins(s: State, t: nat) {
    && t < |s.pc| && s.cap == |s.cycle| == |s.store| == 1 && s.cycle[0] > s.cons + 1
    && (s.pc[t] == PopIndex || s.pc[t] == PopCycle(s.cons))
    && forall u :: 0 <= u < |s.pc| && u != t ==> s.pc[u].Idle?
  }

  lemma {:induction false} SpinsForever(s: State, t: nat, steps: seq<Step>)
    requires Spins(s, t) && forall k :: 0 <= k < |steps| ==> steps[k].t == t
    ensures Spins(Runs.Exec(Apply, s, steps), t)
    decreases |steps|
  {
    if steps != [] { SpinsForever(s, t, steps[..|steps| - 1]); }
  }

  /** The rest of a pop that has found the only value. */
  lemma TakeOnly(n: nat, run: seq<Step>, s: State, t: nat) returns (run': seq<Step>, s': State)
    requires Runs.Reached(Apply, Init(1, n), run, s) && s.cap == |s.cycle| == |s.store| == 1
    requires t < |s.pc| && s.pc[t] == PopCas(s.cons)
    ensures Runs.Reached(Apply, Init(1, n), run', s') && |s'.phase| == |s.phase|
    ensures s' == s.(pc := s.pc[t := Idle], cons := s.cons + 1, cycle := [s.cons + 1], phase := s'.phase,
                     got := s.got[s.cons := s.store[0]])
  {
    run', s' := Runs.Then(Apply, Init(1, n), run, s, PopClaim(t, false));
    run', s' := Runs.Then(Apply, Init(1, n), run', s', PopTake(t));
    run', s' := Runs.Then(Apply, Init(1, n), run', s', PopFree(t));
    assert s'.pc == s.pc[t := Idle] && s'.cycle == [s.cons + 1];
  }

  /** An undisturbed pop answers empty, takes the only value, or never ends. */
  lemma Pop(n: nat, run: seq<Step>, s: State, t: nat) returns (run': seq<Step>, s': State)
    requires Runs.Reached(Apply, Init(1, n), run, s) && Single(s) && t < |s.pc|
    ensures Runs.Reached(Apply, Init(1, n), run', s') && |s'.pc| == |s.pc| && s'.pushLog == s.pushLog
    ensures s'.cap == |s'.cycle| == 1
    ensures if |Queue(s)| >= 2 then Spins(s', t) && Queue(s') == Queue(s)
      else Single(s') && Queue(s') == if Queue(s) == [] then [] else Queue(s)[1..]
  {
    run', s' := Look(n, run, s, t);
    if |Queue(s)| == 1 {
      run', s' := TakeOnly(n, run', s', t);
    }
  }

  // ---- operations that overlap

  predicate Looking(s: State, p: Pc) {
    match p
    case Idle => true
    case PushIndex(_) => true
    case PushCycle(_, idx) => idx == s.prod
    case PopIndex => true
    case PopCycle(idx) => idx == s.cons
    case _ => false
  }

  /** The slot lags behind both indices: it looks full and empty. */
  ghost predicate Wedged(s: State) {
    && s.cap == |s.cycle| == |s.store| == 1 && s.cycle[0] < s.prod && s.cycle[0] <= s.cons
    && forall t :: 0 <= t < |s.pc| ==> Looking(s, s.pc[t])
  }

  lemma {:induction false} WedgedForever(s: State, steps: seq<Step>)
    requires Wedged(s)
    ensures var s' := Runs.Exec(Apply, s, steps);
      Wedged(s') && IsFull(s') && IsEmpty(s') && s'.pushLog == s.pushLog && s'.got == s.got
    decreases |steps|
  {
    if steps != [] {
      var before := Runs.Exec(Apply, s, steps[..|steps| - 1]);
      WedgedForever(s, steps[..|steps| - 1]);
      WedgedStays(before, steps[|steps| - 1]);
    }
  }

  lemma WedgedStays(s: State, a: Step)
    requires Wedged(s)
    ensures var s' := Apply(s, a); Wedged(s') && s'.pushLog == s.pushLog && s'.got == s.got
  {
    var s' := Apply(s, a);
    forall t | 0 <= t < |s'.pc| ensures Looking(s', s'.pc[t]) { assert Looking(s, s.pc[t]); }
  }

  /** Thread 1 has taken the only value and not yet freed the slot. */
  lemma HoldSlot(n: nat, run: seq<Step>, s: State) returns (run': seq<Step>, s': State)
    requires Runs.Reached(Apply, Init(1, n), run, s) && Single(s) && 1 < |s.pc| && s.prod == s.cons + 1
    ensures Runs.Reached(Apply, Init(1, n), run', s')
    ensures s' == s.(pc := s.pc[1 := PopRelease(s.cons, s.store[0])], cons := s.cons + 1, phase := s'.phase)
    ensures |s'.phase| == |s.phase|
  {
    run', s' := Look(n, run, s, 1);
    run', s' := Runs.Then(Apply, Init(1, n), run', s', PopClaim(1, false));
    run', s' := Runs.Then(Apply, Init(1, n), run', s', PopTake(1));
    assert s'.pc == s.pc[1 := PopRelease(s.cons, s.store[0])];
  }

  lemma FreeLate(n: nat, run: seq<Step>, s: State) returns (run': seq<Step>, s': State)
    requires Runs.Reached(Apply, Init(1, n), run, s) && s.cap == |s.cycle| == |s.store| == 1
    requires 1 < |s.pc| && s.pc[1].PopRelease?
    ensures Runs.Reached(Apply, Init(1, n), run', s')
    ensures s' == s.(pc := s.pc[1 := Idle], cycle := [s.pc[1].idx + 1], phase := s'.phase,
                     got := s.got[s.pc[1].idx := s.pc[1].got])
  {
    run', s' := Runs.Then(Apply, Init(1, n), run, s, PopFree(1));
    assert s'.cycle == [s.pc[1].idx + 1];
  }

  /** A push while a pop holds the slot wedges the ring: thread 1 takes v, thread 0 stores w in its place,
      and then thread 1 frees the slot. */
  lemma OverlapWedges(n: nat, v: Value, w: Value) returns (run: seq<Step>)
    requires n >= 2
    ensures var s := Runs.Exec(Apply, Init(1, n), run);
      && Wedged(s) && (forall t :: 0 <= t < |s.pc| ==> s.pc[t].Idle?)
      && s.pushLog == [v, w] && s.got == map[0 := Some(v)]
  {
    var s := Init(1, n);
    Runs.Start(Apply, s);
    run, s := Push(n, [], s, 0, v);
    run, s := HoldSlot(n, run, s);
    run, s := PushOver(n, run, s, 0, w);
    run, s := FreeLate(n, run, s);
  }

  /** Full and empty for every thread that looks, although only the first of the two values has come out. */
  predicate Dead(s: State, v: Value, w: Value) {
    && s.cap == |s.cycle| == 1 && IsFull(s) && IsEmpty(s)
    && s.pushLog == [v, w] && s.got == map[0 := Some(v)]
  }

  /** So the second value never comes out, and nothing goes in any more. */
  lemma OverlapKillsRing(n: nat, v: Value, w: Value) returns (run: seq<Step>)
    requires n >= 2
    ensures forall more :: Dead(Runs.Exec(Apply, Init(1, n), run + more), v, w)
  {
    run := OverlapWedges(n, v, w);
    forall more ensures Dead(Runs.Exec(Apply, Init(1, n), run + more), v, w) {
      Runs.Split(Apply, Init(1, n), run, more);
      WedgedForever(Runs.Exec(Apply, Init(1, n), run), more);
    }
  }
}
