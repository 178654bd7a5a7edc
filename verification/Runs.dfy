/** Runs of a state machine: every finite sequence of steps, taken from a start state.
    Each machine's step function is total: a step that is not enabled leaves the state alone,
    so a property of all step sequences is a property of all interleavings. */
module Runs {

  function Exec<S, A>(next: (S, A) -> S, s: S, run: seq<A>): S {
    if run == [] then s else next(Exec(next, s, run[..|run| - 1]), run[|run| - 1])
  }

  /** What holds at the start and survives every step holds after every run. */
  lemma {:induction false} Invariant<S(!new), A(!new)>(next: (S, A) -> S, inv: S -> bool, s: S, run: seq<A>)
    requires inv(s)
    requires forall t, a :: inv(t) ==> inv(next(t, a))
    ensures inv(Exec(next, s, run))
    decreases |run|
  {
    if run != [] {
      Invariant(next, inv, s, run[..|run| - 1]);
    }
  }

  /** `s` is where `run` leads from `s0`. The quantifier keeps the verifier from unfolding the run
      wherever an object carries this fact about its own history. */
  ghost predicate Reached<S(!new), A(!new)>(next: (S, A) -> S, s0: S, run: seq<A>, s: S) {
    forall r {:trigger Exec(next, s0, r)} :: r == run ==> Exec(next, s0, r) == s
  }

  lemma Start<S(!new), A(!new)>(next: (S, A) -> S, s0: S)
    ensures Reached(next, s0, [], s0)
  {
  }

  lemma Extend<S(!new), A(!new)>(next: (S, A) -> S, s0: S, run: seq<A>, s: S, a: A)
    requires Reached(next, s0, run, s)
    ensures Reached(next, s0, run + [a], next(s, a))
  {
    assert (run + [a])[..|run|] == run;
    assert Exec(next, s0, run) == s;
  }

  /** One step further along a run. */
  lemma Then<S(!new), A(!new)>(next: (S, A) -> S, s0: S, run: seq<A>, s: S, a: A) returns (run': seq<A>, s': S)
    requires Reached(next, s0, run, s)
    ensures Reached(next, s0, run', s') && run' == run + [a] && s' == next(s, a)
  {
    Extend(next, s0, run, s, a);
    run', s' := run + [a], next(s, a);
  }

  /** A run cut in two. */
  lemma {:induction false} Split<S, A>(next: (S, A) -> S, s: S, first: seq<A>, rest: seq<A>)
    ensures Exec(next, s, first + rest) == Exec(next, Exec(next, s, first), rest)
    decreases |rest|
  {
    if rest == [] {
      assert first + rest == first;
    } else {
      Split(next, s, first, rest[..|rest| - 1]);
      assert (first + rest)[..|first + rest| - 1] == first + rest[..|rest| - 1];
    }
  }

  /** A step before a run. */
  lemma Prepend<S, A>(next: (S, A) -> S, s: S, a: A, rest: seq<A>)
    ensures Exec(next, s, [a] + rest) == Exec(next, next(s, a), rest)
  {
    assert [a][..0] == [];
    Split(next, s, [a], rest);
  }

  /** A run given state by state. */
  lemma {:induction false} Along<S, A>(next: (S, A) -> S, at: nat -> S, run: seq<A>)
    requires forall k: nat :: k < |run| ==> next(at(k), run[k]) == at(k + 1)
    ensures Exec(next, at(0), run) == at(|run|)
    decreases |run|
  {
    if run != [] { Along(next, at, run[..|run| - 1]); }
  }

  /** Some state of the run, from its step `from` on, satisfies p. */
  ghost predicate Passes<S(!new), A(!new)>(next: (S, A) -> S, s0: S, run: seq<A>, from: nat, p: S -> bool) {
    exists k :: from <= k <= |run| && p(Exec(next, s0, run[..k]))
  }

  lemma PassesNow<S(!new), A(!new)>(next: (S, A) -> S, s0: S, run: seq<A>, s: S, from: nat, a: A, p: S -> bool)
    requires Reached(next, s0, run, s) && p(s) && from <= |run|
    ensures Passes(next, s0, run + [a], from, p)
  {
    assert (run + [a])[..|run|] == run;
    assert p(Exec(next, s0, (run + [a])[..|run|]));
  }

  lemma PassesLonger<S(!new), A(!new)>(next: (S, A) -> S, s0: S, run: seq<A>, longer: seq<A>, from: nat, p: S -> bool)
    requires Passes(next, s0, run, from, p) && run <= longer
    ensures Passes(next, s0, longer, from, p)
  {
    var k :| from <= k <= |run| && p(Exec(next, s0, run[..k]));
    assert longer[..k] == run[..k];
  }
}
