/** Intrusive lists as sequences of identities. */
module Lists {

  ghost predicate Distinct(q: seq<nat>) {
    forall i, j :: 0 <= i < j < |q| ==> q[i] != q[j]
  }

  lemma Front(q: seq<nat>)
    ensures q == [] || q[0] in q
  {
  }

  lemma Behind(q: seq<nat>)
    requires q != [] && Distinct(q)
    ensures Distinct(q[1..]) && q[0] in q && forall c: nat :: c in q[1..] <==> c in q && c != q[0]
  {
    assert q == [q[0]] + q[1..];
  }

  /** Unlinking an element, if it is linked. */
  function Remove(q: seq<nat>, c: nat): seq<nat> {
    if q == [] then [] else if q[0] == c then Remove(q[1..], c) else [q[0]] + Remove(q[1..], c)
  }

  lemma {:induction false} RemoveMembers(q: seq<nat>, c: nat)
    ensures forall d: nat :: d in Remove(q, c) <==> d in q && d != c
  {
    if q != [] {
      assert q == [q[0]] + q[1..];
      RemoveMembers(q[1..], c);
    }
  }

  lemma {:induction false} RemoveDistinct(q: seq<nat>, c: nat)
    requires Distinct(q)
    ensures Distinct(Remove(q, c))
  {
    if q != [] {
      Behind(q);
      RemoveDistinct(q[1..], c);
      RemoveMembers(q[1..], c);
    }
  }

  lemma {:induction false} RemoveAbsent(q: seq<nat>, c: nat)
    requires c !in q
    ensures Remove(q, c) == q
  {
    if q != [] {
      assert q == [q[0]] + q[1..];
      RemoveAbsent(q[1..], c);
    }
  }

  /** The others keep their order, and none falls back. */
  lemma {:induction false} RemoveKeepsPlace(q: seq<nat>, c: nat, k: nat) returns (k': nat)
    requires k < |q| && q[k] != c
    ensures k' <= k && k' < |Remove(q, c)| && Remove(q, c)[k'] == q[k]
    ensures q[0] != c && k > 0 ==> k' > 0
  {
    if k == 0 {
      k' := 0;
    } else {
      k' := RemoveKeepsPlace(q[1..], c, k - 1);
      if q[0] != c { k' := k' + 1; }
    }
  }
}
