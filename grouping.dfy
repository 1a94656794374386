/** The grouping `reduce` that four components run over the transactions:
    every transaction that passes a test adds its magnitude `Math.abs(amount)`
    under a key computed from it. The components differ in the test and the
    key; the facts below hold for all of them. */
module Grouping {
  import opened Js
  import opened Seqs
  import opened Records
  import opened Tally

  /** The (key, magnitude) pairs added, in transaction order. */
  function Pairs(txs: seq<Transaction>, keep: Transaction -> bool, key: Transaction -> string): (r: seq<(string, int)>)
    ensures |r| <= |txs|
    decreases |txs|
  {
    if txs == [] then []
    else
      var t := txs[|txs| - 1];
      Pairs(txs[..|txs| - 1], keep, key) + (if keep(t) then [(key(t), Abs(t.amount))] else [])
  }

  /** The test of a reduce that keeps every transaction. */
  function Every(): Transaction -> bool {
    (t: Transaction) => true
  }

  /** The object the reduce returns. */
  function GroupBy(txs: seq<Transaction>, keep: Transaction -> bool, key: Transaction -> string): Tally {
    Group(Pairs(txs, keep, key))
  }

  /** One step of the reduce: the next transaction adds its magnitude under
      its key when it passes the test, and changes nothing otherwise. */
  lemma GroupByStep(txs: seq<Transaction>, i: nat, keep: Transaction -> bool, key: Transaction -> string)
    requires i < |txs|
    ensures GroupBy(txs[..i + 1], keep, key)
         == if keep(txs[i]) then GroupBy(txs[..i], keep, key).Add(key(txs[i]), Abs(txs[i].amount))
            else GroupBy(txs[..i], keep, key)
  {
    assert txs[..i + 1][..i] == txs[..i];
    var ps := Pairs(txs[..i], keep, key);
    if keep(txs[i]) {
      var q := (key(txs[i]), Abs(txs[i].amount));
      assert (ps + [q])[..|ps|] == ps;
    } else {
      assert ps + [] == ps;
    }
  }

  lemma {:induction false} PairsSumFor(txs: seq<Transaction>, keep: Transaction -> bool, key: Transaction -> string,
                                       k: string, p: Transaction -> bool)
    requires forall t :: p(t) == (keep(t) && key(t) == k)
    ensures SumFor(Pairs(txs, keep, key), k) == SumAbs(Filter(txs, p))
    decreases |txs|
  {
    if txs != [] {
      var pre, t := txs[..|txs| - 1], txs[|txs| - 1];
      PairsSumFor(pre, keep, key, k, p);
      var ps := Pairs(pre, keep, key);
      if keep(t) {
        assert (ps + [(key(t), Abs(t.amount))])[..|ps|] == ps;
      } else {
        assert ps + [] == ps;
      }
      SumAbsConcat(Filter(pre, p), if p(t) then [t] else []);
    }
  }

  /** The value under key `k` is the sum of the magnitudes of the
      transactions that pass the test and carry key `k`; it is 0 when there
      are none. */
  lemma GroupByGet(txs: seq<Transaction>, keep: Transaction -> bool, key: Transaction -> string,
                   k: string, p: Transaction -> bool)
    requires forall t :: p(t) == (keep(t) && key(t) == k)
    ensures GroupBy(txs, keep, key).Get(k) == SumAbs(Filter(txs, p))
  {
    GroupGet(Pairs(txs, keep, key), k);
    PairsSumFor(txs, keep, key, k, p);
  }

  lemma {:induction false} PairsKeys(txs: seq<Transaction>, keep: Transaction -> bool, key: Transaction -> string, k: string)
    ensures k in KeysOf(Pairs(txs, keep, key)) <==> exists i :: 0 <= i < |txs| && keep(txs[i]) && key(txs[i]) == k
    decreases |txs|
  {
    if txs != [] {
      var pre, t := txs[..|txs| - 1], txs[|txs| - 1];
      PairsKeys(pre, keep, key, k);
      var ps := Pairs(pre, keep, key);
      if keep(t) {
        var q := (key(t), Abs(t.amount));
        KeysOfPrefix(ps + [q]);
        assert (ps + [q])[..|ps|] == ps;
      } else {
        assert ps + [] == ps;
      }
      if exists i :: 0 <= i < |txs| && keep(txs[i]) && key(txs[i]) == k {
        var i :| 0 <= i < |txs| && keep(txs[i]) && key(txs[i]) == k;
        if i < |pre| {
          assert pre[i] == txs[i];
        }
      }
    }
  }

  /** The object lists each key once, and its keys are exactly the keys of
      the transactions that pass the test. */
  lemma GroupByKeys(txs: seq<Transaction>, keep: Transaction -> bool, key: Transaction -> string)
    ensures GroupBy(txs, keep, key).Valid()
    ensures forall k :: k in GroupBy(txs, keep, key).keys
                    <==> exists i :: 0 <= i < |txs| && keep(txs[i]) && key(txs[i]) == k
  {
    GroupKeys(Pairs(txs, keep, key));
    forall k ensures k in GroupBy(txs, keep, key).keys
                 <==> exists i :: 0 <= i < |txs| && keep(txs[i]) && key(txs[i]) == k {
      PairsKeys(txs, keep, key, k);
    }
  }

  lemma {:induction false} PairsSumValues(txs: seq<Transaction>, keep: Transaction -> bool, key: Transaction -> string)
    ensures SumValues(Pairs(txs, keep, key)) == SumAbs(Filter(txs, keep))
    decreases |txs|
  {
    if txs != [] {
      var pre, t := txs[..|txs| - 1], txs[|txs| - 1];
      PairsSumValues(pre, keep, key);
      var ps := Pairs(pre, keep, key);
      var extra := if keep(t) then [(key(t), Abs(t.amount))] else [];
      assert Pairs(txs, keep, key) == ps + extra;
      var f := if keep(t) then [t] else [];
      assert Filter(txs, keep) == Filter(pre, keep) + f;
      SumAbsConcat(Filter(pre, keep), f);
      if keep(t) {
        assert (ps + extra)[..|ps|] == ps;
        assert SumValues(ps + extra) == SumValues(ps) + Abs(t.amount);
        assert f[..0] == [];
      } else {
        assert ps + extra == ps;
      }
    }
  }

  /** The values add up to the magnitudes of every transaction that passes
      the test. */
  lemma GroupBySum(txs: seq<Transaction>, keep: Transaction -> bool, key: Transaction -> string)
    ensures Sum(GroupBy(txs, keep, key).Values()) == SumAbs(Filter(txs, keep))
  {
    GroupSum(Pairs(txs, keep, key));
    PairsSumValues(txs, keep, key);
  }

  lemma {:induction false} PairsPositive(txs: seq<Transaction>, keep: Transaction -> bool, key: Transaction -> string)
    requires forall i :: 0 <= i < |txs| && keep(txs[i]) ==> txs[i].amount != 0
    ensures forall i :: 0 <= i < |Pairs(txs, keep, key)| ==> Pairs(txs, keep, key)[i].1 > 0
    decreases |txs|
  {
    if txs != [] {
      var pre := txs[..|txs| - 1];
      assert forall i :: 0 <= i < |pre| ==> pre[i] == txs[i];
      PairsPositive(pre, keep, key);
    }
  }

  /** When no transaction that passes the test has amount 0, every listed
      value is positive. */
  lemma GroupByPositive(txs: seq<Transaction>, keep: Transaction -> bool, key: Transaction -> string)
    requires forall i :: 0 <= i < |txs| && keep(txs[i]) ==> txs[i].amount != 0
    ensures forall k :: k in GroupBy(txs, keep, key).keys ==> GroupBy(txs, keep, key).Get(k) > 0
  {
    PairsPositive(txs, keep, key);
    GroupPositive(Pairs(txs, keep, key));
  }

  /** Filtering first and grouping everything groups the same pairs as
      grouping with the filter as the test. */
  lemma {:induction false} PairsOfFiltered(txs: seq<Transaction>, p: Transaction -> bool, all: Transaction -> bool,
                                           key: Transaction -> string)
    requires forall t :: all(t)
    ensures Pairs(Filter(txs, p), all, key) == Pairs(txs, p, key)
    decreases |txs|
  {
    if txs != [] {
      var pre, t := txs[..|txs| - 1], txs[|txs| - 1];
      PairsOfFiltered(pre, p, all, key);
      var f := Filter(pre, p);
      if p(t) {
        assert (f + [t])[..|f|] == f;
      } else {
        assert f + [] == f;
        assert Pairs(pre, p, key) + [] == Pairs(pre, p, key);
      }
    }
  }

  /** When every transaction is kept, the keys come in transaction order. */
  lemma {:induction false} PairsKeysAll(txs: seq<Transaction>, key: Transaction -> string)
    ensures KeysOf(Pairs(txs, Every(), key)) == Map(txs, key)
    decreases |txs|
  {
    if txs != [] {
      var pre, t := txs[..|txs| - 1], txs[|txs| - 1];
      PairsKeysAll(pre, key);
      var ps := Pairs(pre, Every(), key);
      assert Pairs(txs, Every(), key) == ps + [(key(t), Abs(t.amount))];
      assert Map(txs, key) == Map(pre, key) + [key(t)];
    }
  }

  /** The grouping of every transaction is listed in the order in which its
      keys first occur among the transactions. */
  lemma GroupByEveryOrder(txs: seq<Transaction>, key: Transaction -> string)
    ensures InFirstOccurrenceOrder(GroupBy(txs, Every(), key).keys, Map(txs, key))
  {
    GroupOrder(Pairs(txs, Every(), key));
    PairsKeysAll(txs, key);
  }

  /** The `reduce` the pie chart and the budget comparison both run:
      `acc[category] += Math.abs(t.amount)` under `t.category || "Uncategorized"`. */
  method GroupByCategoryName(txs: seq<Transaction>) returns (acc: Tally)
    ensures acc == GroupBy(txs, Every(), GroupedCategory)
  {
    acc := Empty;
    var i := 0;
    while i < |txs|
      invariant 0 <= i <= |txs|
      invariant acc == GroupBy(txs[..i], Every(), GroupedCategory)
    {
      var t := txs[i];
      GroupByStep(txs, i, Every(), GroupedCategory);
      var category := GroupName(t.category);
      acc := acc.Add(category, Abs(t.amount));
      i := i + 1;
    }
    assert txs[..i] == txs;
  }
}
