/** How many members of a sequence satisfy a predicate. */
module Counting {

  function Count<T>(q: seq<T>, p: T -> bool): (n: nat)
    ensures n <= |q|
  {
    if q == [] then 0 else Count(q[..|q| - 1], p) + if p(q[|q| - 1]) then 1 else 0
  }

  /** Replacing one member changes the count by that member alone. */
  lemma {:induction false} Update<T>(q: seq<T>, p: T -> bool, i: nat, x: T)
    requires i < |q|
    ensures Count(q[i := x], p) == Count(q, p) - (if p(q[i]) then 1 else 0) + (if p(x) then 1 else 0)
    decreases |q|
  {
    var r := q[i := x];
    if i < |q| - 1 {
      Update(q[..|q| - 1], p, i, x);
      assert r[..|q| - 1] == q[..|q| - 1][i := x];
    } else {
      assert r[..|q| - 1] == q[..|q| - 1];
    }
  }

  /** One non-member keeps the count below the length; so a full count leaves no non-member. */
  lemma {:induction false} Misses<T>(q: seq<T>, p: T -> bool, i: nat)
    requires i < |q| && !p(q[i])
    ensures Count(q, p) <= |q| - 1
    decreases |q|
  {
    if i < |q| - 1 { Misses(q[..|q| - 1], p, i); }
  }

  lemma {:induction false} MissesTwo<T>(q: seq<T>, p: T -> bool, i: nat, j: nat)
    requires i < j < |q| && !p(q[i]) && !p(q[j])
    ensures Count(q, p) <= |q| - 2
    decreases |q|
  {
    if j < |q| - 1 { MissesTwo(q[..|q| - 1], p, i, j); } else { Misses(q[..|q| - 1], p, i); }
  }

  lemma {:induction false} Has<T>(q: seq<T>, p: T -> bool, i: nat)
    requires i < |q| && p(q[i])
    ensures Count(q, p) >= 1
    decreases |q|
  {
    if i < |q| - 1 { Has(q[..|q| - 1], p, i); }
  }

  lemma {:induction false} NoneCounted<T>(q: seq<T>, p: T -> bool)
    requires forall i :: 0 <= i < |q| ==> !p(q[i])
    ensures Count(q, p) == 0
    decreases |q|
  {
    if q != [] { NoneCounted(q[..|q| - 1], p); }
  }
}
