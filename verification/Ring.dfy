/** Slots of a ring whose size is a power of two, and the arrays laid out on one. */
module Ring {
  import opened Options

  /** The slot of index i in a ring of n slots, counted down one lap at a time. */
  function Slot(i: nat, n: nat): (k: nat)
    requires n > 0
    ensures k < n
  {
    if i < n then i else Slot(i - n, n)
  }

  /** One lap further is the same slot. */
  lemma Lap(i: nat, n: nat)
    requires n > 0
    ensures Slot(i + n, n) == Slot(i, n)
  {
  }

  /** Two indices less than one lap apart never share a slot. */
  lemma {:induction false} Distinct(i: nat, j: nat, n: nat)
    requires n > 0 && i < j < i + n
    ensures Slot(i, n) != Slot(j, n)
    decreases i
  {
    if i >= n {
      Distinct(i - n, j - n, n);
    }
  }

  lemma AllDistinct(n: nat)
    requires n > 0
    ensures forall i: nat, j: nat :: i < j < i + n ==> Slot(i, n) != Slot(j, n)
  {
    forall i: nat, j: nat | i < j < i + n ensures Slot(i, n) != Slot(j, n) { Distinct(i, j, n); }
  }

  predicate PowerOfTwo(n: nat) {
    n == 1 || (n > 1 && n % 2 == 0 && PowerOfTwo(n / 2))
  }

  /** Bitwise and of two naturals. */
  function And(x: nat, y: nat): nat {
    if x == 0 || y == 0 then 0
    else (if x % 2 == 1 && y % 2 == 1 then 1 else 0) + 2 * And(x / 2, y / 2)
  }

  lemma {:induction false} HalfSlot(x: nat, n: nat)
    requires n > 0
    ensures Slot(x, 2 * n) == 2 * Slot(x / 2, n) + x % 2
    decreases x
  {
    if x >= 2 * n {
      HalfSlot(x - 2 * n, n);
      assert (x - 2 * n) / 2 == x / 2 - n;
    }
  }

  /** Masking with size - 1, as the source indexes its rings, picks the slot. */
  lemma {:induction false} Mask(x: nat, n: nat)
    requires PowerOfTwo(n)
    ensures And(x, n - 1) == Slot(x, n)
    decreases n
  {
    if n == 1 {
      SlotOfOne(x);
    } else {
      Mask(x / 2, n / 2);
      HalfSlot(x, n / 2);
      AndHalf(x, n - 1);
    }
  }

  lemma AndHalf(x: nat, y: nat)
    ensures And(x, y) == (if x % 2 == 1 && y % 2 == 1 then 1 else 0) + 2 * And(x / 2, y / 2)
  {
  }

  lemma {:induction false} AndSelf(x: nat)
    ensures And(x, x) == x
  {
    if x > 0 { AndSelf(x / 2); }
  }

  /** The capacity test of the constructors: n & (n - 1) is 0 exactly for powers of two. */
  lemma {:induction false} PowerTest(n: nat)
    ensures n > 0 ==> (And(n, n - 1) == 0 <==> PowerOfTwo(n))
    ensures n == 0 ==> !PowerOfTwo(n)
  {
    if n > 1 {
      AndHalf(n, n - 1);
      if n % 2 == 0 { PowerTest(n / 2); } else { AndSelf(n / 2); }
    }
  }

  lemma {:induction false} SlotOfOne(x: nat)
    ensures Slot(x, 1) == 0
  {
    if x >= 1 {
      SlotOfOne(x - 1);
    }
  }

  /** The slot is also the remainder, as the other queue indexes its array. */
  lemma {:induction false} Remainder(x: nat, n: nat)
    requires n > 0
    ensures Slot(x, n) == x % n
    decreases x
  {
    if x >= n {
      Remainder(x - n, n);
      assert x % n == (x - n) % n by { ModDrop(x, n); }
    }
  }

  lemma ModDrop(x: nat, n: nat)
    requires n > 0 && x >= n
    ensures x % n == (x - n) % n
  {
    var q, r := x / n, x % n;
    assert x == q * n + r;
    assert x - n == (q - 1) * n + r;
    DivUnique(x - n, n, q - 1, r);
  }

  lemma DivUnique(x: nat, n: nat, q: int, r: nat)
    requires n > 0 && x == q * n + r && r < n
    ensures x % n == r
  {
    var d := x / n - q;
    assert d * n == r - x % n;
    Scale(d, n);
  }

  lemma Scale(d: int, n: nat)
    ensures d >= 1 ==> d * n >= n
    ensures d <= -1 ==> d * n <= -(n as int)
  {
  }

  function Get<T>(items: seq<Option<T>>, i: nat): Option<T> {
    if items == [] then None else items[Slot(i, |items|)]
  }

  function Put<T>(items: seq<Option<T>>, i: nat, v: Option<T>): (r: seq<Option<T>>)
    ensures |r| == |items|
  {
    if items == [] then [] else items[Slot(i, |items|) := v]
  }

  /** The entries i up to bottom of src, put into dst at the same indices. */
  function Copy<T>(src: seq<Option<T>>, dst: seq<Option<T>>, i: nat, bottom: int): (r: seq<Option<T>>)
    ensures |r| == |dst|
    decreases bottom - i
  {
    if i >= bottom then dst else Copy(src, Put(dst, i, Get(src, i)), i + 1, bottom)
  }

  function Nulls<T>(n: nat): seq<Option<T>> {
    seq(n, _ => None)
  }

  /** An array of twice the size holding the entries top up to bottom. */
  function Resized<T>(src: seq<Option<T>>, top: nat, bottom: int): (r: seq<Option<T>>)
    ensures |r| == 2 * |src|
  {
    Copy(src, Nulls(2 * |src|), top, bottom)
  }

  lemma ResizedStart<T>(src: seq<Option<T>>, dst: seq<Option<T>>, top: nat, bottom: int)
    requires |dst| == 2 * |src| && forall k :: 0 <= k < |dst| ==> dst[k] == None
    ensures Copy(src, dst, top, bottom) == Resized(src, top, bottom)
  {
    assert dst == Nulls(2 * |src|);
  }

  /** Copying moves every entry to its new slot and spares the entries of one lap before it. */
  lemma {:induction false} CopyKeeps<T>(src: seq<Option<T>>, dst: seq<Option<T>>, i: nat, bottom: int, j: nat)
    requires |src| > 0 && |dst| > 0 && bottom - i <= |dst|
    requires (i <= j < bottom) || (j < i && bottom <= j + |dst|)
    ensures Get(Copy(src, dst, i, bottom), j) == if j < i then Get(dst, j) else Get(src, j)
    decreases bottom - i
  {
    if i < bottom {
      var dst' := Put(dst, i, Get(src, i));
      CopyKeeps(src, dst', i + 1, bottom, j);
      if j < i { Distinct(j, i, |dst|); }
    }
  }

  lemma ResizedKeeps<T>(src: seq<Option<T>>, top: nat, bottom: int, j: nat)
    requires |src| > 0 && bottom - top <= 2 * |src| && top <= j < bottom
    ensures Get(Resized(src, top, bottom), j) == Get(src, j)
  {
    CopyKeeps(src, Nulls(2 * |src|), top, bottom, j);
  }

  /** Writing an index spares the other indices of the same lap. */
  lemma PutSpares<T>(items: seq<Option<T>>, i: nat, j: nat, v: Option<T>)
    requires (j < i < j + |items|) || (i < j < i + |items|)
    ensures Get(Put(items, i, v), j) == Get(items, j)
  {
    if j < i { Distinct(j, i, |items|); } else { Distinct(i, j, |items|); }
  }
}
