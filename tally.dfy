/** A plain JavaScript object used as a dictionary of running totals, as the
    grouping `reduce` calls build one: its keys in insertion order (the order
    `Object.keys`, `Object.values` and `Object.entries` list them in) and the
    number stored under each. */
module Tally {
  import opened Seqs

  datatype Tally = Tally(keys: seq<string>, totals: map<string, int>) {

    /** `acc[k] || 0`. */
    function Get(k: string): int {
      if k in totals then totals[k] else 0
    }

    /** `acc[k] = (acc[k] || 0) + x`: a new key goes to the end of the
        insertion order, an existing key keeps its place. */
    function Add(k: string, x: int): Tally {
      Tally(if k in totals then keys else keys + [k], totals[k := Get(k) + x])
    }

    /** Every key is listed once, and the listed keys are the stored ones. */
    ghost predicate Valid() {
      && (forall i, j :: 0 <= i < j < |keys| ==> keys[i] != keys[j])
      && (forall k :: k in totals <==> k in keys)
    }

    /** `Object.values(acc)`. */
    function Values(): seq<int> {
      Map(keys, k => Get(k))
    }

    /** `Object.entries(acc)`. */
    function Entries(): seq<(string, int)> {
      Map(keys, k => (k, Get(k)))
    }

    /** The sum of the values stored under the keys `ks`. */
    function SumOver(ks: seq<string>): int
      decreases |ks|
    {
      if ks == [] then 0 else SumOver(ks[..|ks| - 1]) + Get(ks[|ks| - 1])
    }
  }

  const Empty: Tally := Tally([], map[])

  /** The keys of a list of (key, amount) pairs, in order. */
  function KeysOf(pairs: seq<(string, int)>): seq<string> {
    Map(pairs, (p: (string, int)) => p.0)
  }

  /** The object that `reduce` builds when it adds every pair's amount
      under the pair's key, starting from `{}`. */
  function Group(pairs: seq<(string, int)>): Tally
    decreases |pairs|
  {
    if pairs == [] then Empty
    else Group(pairs[..|pairs| - 1]).Add(pairs[|pairs| - 1].0, pairs[|pairs| - 1].1)
  }

  /** The sum of the amounts paired with key `k`. */
  function SumFor(pairs: seq<(string, int)>, k: string): int
    decreases |pairs|
  {
    if pairs == [] then 0
    else SumFor(pairs[..|pairs| - 1], k) + (if pairs[|pairs| - 1].0 == k then pairs[|pairs| - 1].1 else 0)
  }

  /** The sum of all amounts. */
  function SumValues(pairs: seq<(string, int)>): int
    decreases |pairs|
  {
    if pairs == [] then 0 else SumValues(pairs[..|pairs| - 1]) + pairs[|pairs| - 1].1
  }

  lemma KeysOfPrefix(pairs: seq<(string, int)>)
    requires pairs != []
    ensures KeysOf(pairs) == KeysOf(pairs[..|pairs| - 1]) + [pairs[|pairs| - 1].0]
  {
  }

  /** The built object lists each key of the pairs exactly once. */
  lemma {:induction false} GroupKeys(pairs: seq<(string, int)>)
    ensures Group(pairs).Valid()
    ensures forall k :: k in Group(pairs).keys <==> k in KeysOf(pairs)
    decreases |pairs|
  {
    if pairs != [] {
      GroupKeys(pairs[..|pairs| - 1]);
      KeysOfPrefix(pairs);
    }
  }

  /** The value under each key is the sum of that key's amounts; a key that
      no pair carries reads as 0. */
  lemma {:induction false} GroupGet(pairs: seq<(string, int)>, k: string)
    ensures Group(pairs).Get(k) == SumFor(pairs, k)
    decreases |pairs|
  {
    if pairs != [] {
      GroupGet(pairs[..|pairs| - 1], k);
    }
  }

  /** `FirstIndex(s, x)`: the position of the first occurrence of `x`. */
  function FirstIndex(s: seq<string>, x: string): (i: nat)
    requires x in s
    ensures i < |s| && s[i] == x && x !in s[..i]
  {
    if s[0] == x then 0 else 1 + FirstIndex(s[1..], x)
  }

  lemma {:induction false} FirstIndexAppend(s: seq<string>, y: string, x: string)
    requires x in s
    ensures FirstIndex(s + [y], x) == FirstIndex(s, x)
  {
    if s[0] != x {
      assert (s + [y])[1..] == s[1..] + [y];
      FirstIndexAppend(s[1..], y, x);
    }
  }

  lemma FirstIndexNew(s: seq<string>, x: string)
    requires x !in s
    ensures FirstIndex(s + [x], x) == |s|
  {
  }

  /** The keys `ks` occur in `all`, in the order of their first occurrences. */
  ghost predicate InFirstOccurrenceOrder(ks: seq<string>, all: seq<string>) {
    && (forall k :: k in ks ==> k in all)
    && (forall i, j :: 0 <= i < j < |ks| ==> FirstIndex(all, ks[i]) < FirstIndex(all, ks[j]))
  }

  lemma OrderExtendAll(ks: seq<string>, all: seq<string>, y: string)
    requires InFirstOccurrenceOrder(ks, all)
    ensures InFirstOccurrenceOrder(ks, all + [y])
  {
    forall k | k in ks ensures FirstIndex(all + [y], k) == FirstIndex(all, k) {
      FirstIndexAppend(all, y, k);
    }
  }

  lemma OrderExtendNew(ks: seq<string>, all: seq<string>, x: string)
    requires InFirstOccurrenceOrder(ks, all) && x !in all
    ensures InFirstOccurrenceOrder(ks + [x], all + [x])
  {
    OrderExtendAll(ks, all, x);
    FirstIndexNew(all, x);
    var ks' := ks + [x];
    forall i, j | 0 <= i < j < |ks'|
      ensures FirstIndex(all + [x], ks'[i]) < FirstIndex(all + [x], ks'[j])
    {
      assert ks'[i] == ks[i];
      if j < |ks| {
        assert ks'[j] == ks[j];
      }
    }
  }

  /** The keys are listed in the order in which they first occur among the
      pairs: the order `Object.entries` returns them in. */
  lemma {:induction false} GroupOrder(pairs: seq<(string, int)>)
    ensures InFirstOccurrenceOrder(Group(pairs).keys, KeysOf(pairs))
    decreases |pairs|
  {
    if pairs != [] {
      var pre, p := pairs[..|pairs| - 1], pairs[|pairs| - 1];
      GroupOrder(pre);
      GroupKeys(pre);
      KeysOfPrefix(pairs);
      if p.0 in Group(pre).totals {
        OrderExtendAll(Group(pre).keys, KeysOf(pre), p.0);
      } else {
        OrderExtendNew(Group(pre).keys, KeysOf(pre), p.0);
      }
    }
  }

  lemma {:induction false} SumOverUnchanged(t: Tally, ks: seq<string>, k: string, x: int)
    requires k !in ks
    ensures t.Add(k, x).SumOver(ks) == t.SumOver(ks)
    decreases |ks|
  {
    if ks != [] {
      SumOverUnchanged(t, ks[..|ks| - 1], k, x);
    }
  }

  lemma {:induction false} SumOverAdd(t: Tally, ks: seq<string>, k: string, x: int)
    requires k in ks
    requires forall i, j :: 0 <= i < j < |ks| ==> ks[i] != ks[j]
    ensures t.Add(k, x).SumOver(ks) == t.SumOver(ks) + x
    decreases |ks|
  {
    var pre := ks[..|ks| - 1];
    if ks[|ks| - 1] == k {
      assert k !in pre;
      SumOverUnchanged(t, pre, k, x);
    } else {
      assert k in pre;
      SumOverAdd(t, pre, k, x);
    }
  }

  lemma {:induction false} SumOverValues(t: Tally)
    ensures Sum(t.Values()) == t.SumOver(t.keys)
  {
    SumOverMap(t, t.keys);
  }

  lemma {:induction false} SumOverMap(t: Tally, ks: seq<string>)
    ensures Sum(Map(ks, k => t.Get(k))) == t.SumOver(ks)
    decreases |ks|
  {
    if ks != [] {
      var pre := ks[..|ks| - 1];
      assert Map(ks, k => t.Get(k))[..|ks| - 1] == Map(pre, k => t.Get(k));
      SumOverMap(t, pre);
    }
  }

  /** The values of the built object add up to the sum of all amounts. */
  lemma {:induction false} GroupSum(pairs: seq<(string, int)>)
    ensures Sum(Group(pairs).Values()) == SumValues(pairs)
    decreases |pairs|
  {
    SumOverValues(Group(pairs));
    if pairs != [] {
      var pre, p := pairs[..|pairs| - 1], pairs[|pairs| - 1];
      var t := Group(pre);
      GroupSum(pre);
      SumOverValues(t);
      GroupKeys(pre);
      if p.0 in t.totals {
        SumOverAdd(t, t.keys, p.0, p.1);
      } else {
        SumOverUnchanged(t, t.keys, p.0, p.1);
        assert t.Add(p.0, p.1).keys == t.keys + [p.0];
        assert (t.keys + [p.0])[..|t.keys|] == t.keys;
      }
    }
  }

  /** When every amount is positive, so is the value under each listed key. */
  lemma {:induction false} GroupPositive(pairs: seq<(string, int)>)
    requires forall i :: 0 <= i < |pairs| ==> pairs[i].1 > 0
    ensures forall k :: k in Group(pairs).keys ==> Group(pairs).Get(k) > 0
    decreases |pairs|
  {
    if pairs != [] {
      var pre := pairs[..|pairs| - 1];
      assert forall i :: 0 <= i < |pre| ==> pre[i] == pairs[i];
      GroupPositive(pre);
    }
  }
}
