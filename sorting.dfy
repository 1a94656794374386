/** `Array.prototype.sort` with a comparator of the form
    `(a, b) => key(b) - key(a)`: a stable sort into non-increasing key order,
    done in place. The specification is insertion from the back, which is
    what a stable sort yields: a later element goes after every earlier one
    whose key is not smaller. */
module Sorting {

  /** Inserts `x` into `s` behind the last element whose key is at least
      `key(x)`. */
  function Insert<T>(s: seq<T>, x: T, key: T -> int): seq<T>
    decreases |s|
  {
    if s == [] then [x]
    else if key(s[|s| - 1]) < key(x) then Insert(s[..|s| - 1], x, key) + [s[|s| - 1]]
    else s + [x]
  }

  /** The result of the stable descending sort. */
  function SortDesc<T>(s: seq<T>, key: T -> int): seq<T>
    decreases |s|
  {
    if s == [] then [] else Insert(SortDesc(s[..|s| - 1], key), s[|s| - 1], key)
  }

  ghost predicate NonIncreasing<T>(s: seq<T>, key: T -> int) {
    forall i, j :: 0 <= i < j < |s| ==> key(s[i]) >= key(s[j])
  }

  /** The elements of `s` with key `v`, in order. */
  function WithKey<T>(s: seq<T>, key: T -> int, v: int): seq<T>
    decreases |s|
  {
    if s == [] then []
    else WithKey(s[..|s| - 1], key, v) + (if key(s[|s| - 1]) == v then [s[|s| - 1]] else [])
  }

  // ---------------------------------------------------------------------
  // Facts about Insert

  lemma {:induction false} InsertPermutes<T>(s: seq<T>, x: T, key: T -> int)
    ensures multiset(Insert(s, x, key)) == multiset(s) + multiset{x}
    decreases |s|
  {
    if s != [] && key(s[|s| - 1]) < key(x) {
      InsertPermutes(s[..|s| - 1], x, key);
      assert s == s[..|s| - 1] + [s[|s| - 1]];
    }
  }

  lemma {:induction false} InsertSorted<T>(s: seq<T>, x: T, key: T -> int)
    requires NonIncreasing(s, key)
    ensures NonIncreasing(Insert(s, x, key), key)
    decreases |s|
  {
    if s != [] && key(s[|s| - 1]) < key(x) {
      var s', last := s[..|s| - 1], s[|s| - 1];
      InsertSorted(s', x, key);
      var r := Insert(s', x, key);
      InsertPermutes(s', x, key);
      forall i | 0 <= i < |r| ensures key(r[i]) >= key(last) {
        assert r[i] in multiset(s') + multiset{x};
        if r[i] != x {
          assert r[i] in s';
          var k :| 0 <= k < |s'| && s'[k] == r[i];
          assert s[k] == r[i];
        }
      }
    }
  }

  lemma {:induction false} WithKeyConcat<T>(a: seq<T>, b: seq<T>, key: T -> int, v: int)
    ensures WithKey(a + b, key, v) == WithKey(a, key, v) + WithKey(b, key, v)
    decreases |b|
  {
    if b == [] {
      assert a + b == a;
    } else {
      assert (a + b)[..|a + b| - 1] == a + b[..|b| - 1];
      WithKeyConcat(a, b[..|b| - 1], key, v);
    }
  }

  lemma WithKeySingle<T>(x: T, key: T -> int, v: int)
    ensures WithKey([x], key, v) == if key(x) == v then [x] else []
  {
    assert [x][..0] == [];
  }

  /** Two elements with different keys never both have key `v`, so their
      singleton selections commute. */
  lemma SinglesCommute<T>(x: T, y: T, key: T -> int, v: int)
    requires key(x) != key(y)
    ensures WithKey([x], key, v) + WithKey([y], key, v) == WithKey([y], key, v) + WithKey([x], key, v)
  {
    WithKeySingle(x, key, v);
    WithKeySingle(y, key, v);
  }

  lemma {:induction false} InsertStable<T>(s: seq<T>, x: T, key: T -> int, v: int)
    ensures WithKey(Insert(s, x, key), key, v) == WithKey(s, key, v) + WithKey([x], key, v)
    decreases |s|
  {
    if s == [] {
    } else if key(s[|s| - 1]) < key(x) {
      var s', last := s[..|s| - 1], s[|s| - 1];
      var r := Insert(s', x, key);
      assert Insert(s, x, key) == r + [last];
      InsertStable(s', x, key, v);
      WithKeyConcat(r, [last], key, v);
      WithKeyConcat(s', [last], key, v);
      assert s' + [last] == s;
      var a, xs, ls := WithKey(s', key, v), WithKey([x], key, v), WithKey([last], key, v);
      SinglesCommute(x, last, key, v);
      assert (a + xs) + ls == a + (xs + ls) == a + (ls + xs) == (a + ls) + xs;
    } else {
      WithKeyConcat(s, [x], key, v);
    }
  }

  // ---------------------------------------------------------------------
  // Facts about SortDesc

  /** The sort is a permutation. */
  lemma {:induction false} SortPermutes<T>(s: seq<T>, key: T -> int)
    ensures multiset(SortDesc(s, key)) == multiset(s)
    decreases |s|
  {
    if s != [] {
      var s', x := s[..|s| - 1], s[|s| - 1];
      SortPermutes(s', key);
      InsertPermutes(SortDesc(s', key), x, key);
      assert s == s' + [x];
      assert multiset(s) == multiset(s') + multiset{x};
    }
  }

  /** The sort orders by key, largest first. */
  lemma {:induction false} SortSorted<T>(s: seq<T>, key: T -> int)
    ensures NonIncreasing(SortDesc(s, key), key)
    decreases |s|
  {
    if s != [] {
      SortSorted(s[..|s| - 1], key);
      InsertSorted(SortDesc(s[..|s| - 1], key), s[|s| - 1], key);
    }
  }

  /** The sort is stable: the elements sharing a key keep their order. */
  lemma {:induction false} SortStable<T>(s: seq<T>, key: T -> int, v: int)
    ensures WithKey(SortDesc(s, key), key, v) == WithKey(s, key, v)
    decreases |s|
  {
    if s != [] {
      var s', x := s[..|s| - 1], s[|s| - 1];
      SortStable(s', key, v);
      InsertStable(SortDesc(s', key), x, key, v);
    }
  }

  lemma SortLength<T>(s: seq<T>, key: T -> int)
    ensures |SortDesc(s, key)| == |s|
  {
    SortPermutes(s, key);
    assert |multiset(SortDesc(s, key))| == |multiset(s)|;
  }

  /** No two elements share a value of `f`. */
  ghost predicate DistinctBy<T, U>(s: seq<T>, f: T -> U) {
    forall i, j :: 0 <= i < j < |s| ==> f(s[i]) != f(s[j])
  }

  lemma InsertMembers<T>(s: seq<T>, x: T, key: T -> int)
    ensures forall y :: y in Insert(s, x, key) ==> y == x || y in s
  {
    InsertPermutes(s, x, key);
    forall y | y in Insert(s, x, key) ensures y == x || y in s {
      assert y in multiset(Insert(s, x, key));
    }
  }

  lemma {:induction false} InsertDistinct<T, U>(s: seq<T>, x: T, key: T -> int, f: T -> U)
    requires DistinctBy(s, f)
    requires forall i :: 0 <= i < |s| ==> f(s[i]) != f(x)
    ensures DistinctBy(Insert(s, x, key), f)
    decreases |s|
  {
    if s != [] && key(s[|s| - 1]) < key(x) {
      var s', last := s[..|s| - 1], s[|s| - 1];
      InsertDistinct(s', x, key, f);
      var r := Insert(s', x, key);
      InsertMembers(s', x, key);
      forall i | 0 <= i < |r| ensures f(r[i]) != f(last) {
        assert r[i] in r;
        if r[i] != x {
          var k :| 0 <= k < |s'| && s'[k] == r[i];
          assert s[k] == r[i];
        }
      }
    }
  }

  /** Sorting keeps a family of distinct elements distinct. */
  lemma {:induction false} SortDistinct<T, U>(s: seq<T>, key: T -> int, f: T -> U)
    requires DistinctBy(s, f)
    ensures DistinctBy(SortDesc(s, key), f)
    decreases |s|
  {
    if s != [] {
      var s', x := s[..|s| - 1], s[|s| - 1];
      SortDistinct(s', key, f);
      SortPermutes(s', key);
      var p := SortDesc(s', key);
      forall i | 0 <= i < |p| ensures f(p[i]) != f(x) {
        assert p[i] in multiset(s');
        var k :| 0 <= k < |s'| && s'[k] == p[i];
        assert s[k] == p[i];
      }
      InsertDistinct(p, x, key, f);
    }
  }

  /** The sum of a real-valued measure over a sequence. */
  function SumBy<T>(s: seq<T>, f: T -> real): real
    decreases |s|
  {
    if s == [] then 0.0 else SumBy(s[..|s| - 1], f) + f(s[|s| - 1])
  }

  lemma {:induction false} SumByConcat<T>(a: seq<T>, b: seq<T>, f: T -> real)
    ensures SumBy(a + b, f) == SumBy(a, f) + SumBy(b, f)
    decreases |b|
  {
    if b == [] {
      assert a + b == a;
    } else {
      assert (a + b)[..|a + b| - 1] == a + b[..|b| - 1];
      SumByConcat(a, b[..|b| - 1], f);
    }
  }

  lemma {:induction false} InsertSumBy<T>(s: seq<T>, x: T, key: T -> int, f: T -> real)
    ensures SumBy(Insert(s, x, key), f) == SumBy(s, f) + f(x)
    decreases |s|
  {
    if s != [] && key(s[|s| - 1]) < key(x) {
      var s', last := s[..|s| - 1], s[|s| - 1];
      InsertSumBy(s', x, key, f);
      SumByConcat(Insert(s', x, key), [last], f);
      assert [last][..0] == [];
    } else {
      SumByConcat(s, [x], f);
      assert [x][..0] == [];
    }
  }

  /** Sorting does not change a sum. */
  lemma {:induction false} SortSumBy<T>(s: seq<T>, key: T -> int, f: T -> real)
    ensures SumBy(SortDesc(s, key), f) == SumBy(s, f)
    decreases |s|
  {
    if s != [] {
      SortSumBy(s[..|s| - 1], key, f);
      InsertSumBy(SortDesc(s[..|s| - 1], key), s[|s| - 1], key, f);
    }
  }

  // ---------------------------------------------------------------------
  // The in-place sort

  lemma InsertShift<T>(p: seq<T>, j: nat, x: T, key: T -> int)
    requires 0 < j <= |p| && key(p[j - 1]) < key(x)
    ensures Insert(p[..j], x, key) + p[j..] == Insert(p[..j - 1], x, key) + p[j - 1..]
  {
    assert p[..j][..j - 1] == p[..j - 1];
    assert p[j - 1..] == [p[j - 1]] + p[j..];
  }

  lemma InsertStop<T>(p: seq<T>, j: nat, x: T, key: T -> int)
    requires j <= |p| && (j == 0 || key(p[j - 1]) >= key(x))
    ensures Insert(p[..j], x, key) == p[..j] + [x]
  {
  }

  /** One swap of the pass: `x`, sitting at `j`, changes places with the
      element before it. */
  lemma SwapBack<T>(c: seq<T>, p: seq<T>, j: nat, x: T)
    requires 0 < j <= |p| && c == p[..j] + [x] + p[j..]
    ensures c[j - 1] == p[j - 1]
    ensures c[j - 1 := x][j := p[j - 1]] == p[..j - 1] + [x] + p[j - 1..]
  {
    var d := c[j - 1 := x][j := p[j - 1]];
    var e := p[..j - 1] + [x] + p[j - 1..];
    assert |d| == |e|;
    forall k | 0 <= k < |d| ensures d[k] == e[k] {
      if k < j - 1 {
        assert d[k] == c[k] == p[k];
      } else if j < k {
        assert d[k] == c[k] == p[k - 1];
      }
    }
  }

  /** Moves `a[i]` back past the elements of the sorted prefix `a[..i]`
      whose key is smaller: one pass of the insertion sort. */
  method InsertAt<T>(a: array<T>, i: nat, key: T -> int)
    requires i < a.Length
    modifies a
    ensures a[..i + 1] == Insert(old(a[..i]), old(a[i]), key)
    ensures a[i + 1..] == old(a[i + 1..])
  {
    ghost var p := a[..i];
    ghost var rest := a[i + 1..];
    var x := a[i];
    var j := i;
    assert p[..j] == p && p[j..] == [];
    assert a[..i + 1] == p[..j] + [x] + p[j..];
    while j > 0 && key(a[j - 1]) < key(x)
      invariant 0 <= j <= i
      invariant a[..i + 1] == p[..j] + [x] + p[j..]
      invariant a[i + 1..] == rest
      invariant Insert(p, x, key) == Insert(p[..j], x, key) + p[j..]
    {
      ghost var c := a[..i + 1];
      SwapBack(c, p, j, x);
      InsertShift(p, j, x, key);
      var y := a[j - 1];
      a[j - 1] := x;
      a[j] := y;
      assert a[..i + 1] == c[j - 1 := x][j := y];
      j := j - 1;
    }
    if j > 0 {
      SwapBack(a[..i + 1], p, j, x);
    }
    InsertStop(p, j, x, key);
  }

  /** Sorts `a` in place, largest key first, keeping the order of equal keys. */
  method SortDescending<T>(a: array<T>, key: T -> int)
    modifies a
    ensures a[..] == SortDesc(old(a[..]), key)
  {
    ghost var s := a[..];
    var i := 0;
    while i < a.Length
      invariant 0 <= i <= a.Length
      invariant a[..i] == SortDesc(s[..i], key)
      invariant a[i..] == s[i..]
    {
      assert a[i] == s[i];
      InsertAt(a, i, key);
      assert s[..i + 1][..i] == s[..i];
      i := i + 1;
    }
    assert a[..] == a[..a.Length];
    assert s == s[..a.Length];
  }
}
