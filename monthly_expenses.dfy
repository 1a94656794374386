/** The monthly expenses chart: six buckets, one per calendar month up to
    the current one, each holding the magnitudes of the transactions dated
    within its bounds. */
module MonthlyExpenses {
  import opened Js
  import opened Calendar
  import opened Seqs
  import opened Records

  /** A month's inclusive bounds and its `MMM yyyy` label. */
  datatype Bucket = Bucket(start: DateTime, end: DateTime, name: string)

  datatype MonthlyData = MonthlyData(name: string, expenses: int)

  function BucketOf(m: Month): (b: Bucket)
    ensures MonthOf(b.start) == m && MonthOf(b.end) == m
  {
    Bucket(StartOfMonth(m), EndOfMonth(m), MonthLabel(m))
  }

  function MonthsBack(current: Month): int -> Bucket {
    (i: int) => BucketOf(AddMonths(current, -i))
  }

  /** `Array.from({ length: 6 }, (_, i) => …subMonths(now, i)…).reverse()`. */
  function Buckets(now: DateTime): seq<Bucket> {
    Reverse(seq(6, MonthsBack(MonthOf(now))))
  }

  /** `transactionDate >= month.start && transactionDate <= month.end`. */
  function InBucket(b: Bucket): Transaction -> bool {
    (t: Transaction) => Rank(b.start) <= Rank(t.date) <= Rank(b.end)
  }

  function Row(txs: seq<Transaction>): Bucket -> MonthlyData {
    (b: Bucket) => MonthlyData(b.name, SumAbs(Filter(txs, InBucket(b))))
  }

  /** The chart data: one row per bucket, oldest first. */
  function Chart(txs: seq<Transaction>, now: DateTime): seq<MonthlyData> {
    Map(Buckets(now), Row(txs))
  }

  // ---------------------------------------------------------------------
  // The buckets

  /** There are six buckets, ending with the current month: bucket `i` is
      the month `5 - i` months before it. */
  lemma BucketsAreTrailingMonths(now: DateTime)
    ensures |Buckets(now)| == 6
    ensures forall i :: 0 <= i < 6 ==> Buckets(now)[i] == BucketOf(AddMonths(MonthOf(now), i - 5))
    ensures Buckets(now)[5] == BucketOf(MonthOf(now))
  {
    MonthNumberInjective(AddMonths(MonthOf(now), 0), MonthOf(now));
  }

  /** Consecutive buckets are consecutive calendar months; stepping back
      from January goes to December of the year before. */
  lemma BucketsConsecutive(now: DateTime, i: int)
    requires 1 <= i < 6
    ensures var prev, m := AddMonths(MonthOf(now), i - 6), AddMonths(MonthOf(now), i - 5);
            && Buckets(now)[i - 1] == BucketOf(prev) && Buckets(now)[i] == BucketOf(m)
            && AddMonths(prev, 1) == m
            && (m.month == 1 ==> prev == YearMonth(m.year - 1, 12))
            && (m.month > 1 ==> prev == YearMonth(m.year, m.month - 1))
  {
    BucketsAreTrailingMonths(now);
    var prev, m := AddMonths(MonthOf(now), i - 6), AddMonths(MonthOf(now), i - 5);
    MonthNumberInjective(AddMonths(prev, 1), m);
    MonthNumberInjective(AddMonths(m, -1), prev);
    PreviousMonth(m);
  }

  /** A transaction is in a month's bucket exactly when it is dated in that
      month. */
  lemma InBucketIff(t: Transaction, m: Month)
    ensures InBucket(BucketOf(m))(t) <==> MonthOf(t.date) == m
  {
    InMonthIff(t.date, m);
  }

  /** No transaction falls into two buckets. */
  lemma BucketsDisjoint(now: DateTime, t: Transaction, i: int, j: int)
    requires 0 <= i < 6 && 0 <= j < 6
    requires InBucket(Buckets(now)[i])(t) && InBucket(Buckets(now)[j])(t)
    ensures i == j
  {
    BucketsAreTrailingMonths(now);
    InBucketIff(t, AddMonths(MonthOf(now), i - 5));
    InBucketIff(t, AddMonths(MonthOf(now), j - 5));
  }

  // ---------------------------------------------------------------------
  // The rows

  /** Six rows, labelled with the six months, each the sum of the
      magnitudes of the transactions dated in its month, income included. */
  lemma ChartRows(txs: seq<Transaction>, now: DateTime, i: int, inMonth: Transaction -> bool)
    requires 0 <= i < 6
    requires forall t :: inMonth(t) == (MonthOf(t.date) == AddMonths(MonthOf(now), i - 5))
    ensures |Chart(txs, now)| == 6
    ensures Chart(txs, now)[i].name == MonthLabel(AddMonths(MonthOf(now), i - 5))
    ensures Chart(txs, now)[i].expenses == SumAbs(Filter(txs, inMonth))
  {
    BucketsAreTrailingMonths(now);
    var b := Buckets(now)[i];
    forall t ensures InBucket(b)(t) == inMonth(t) {
      InBucketIff(t, AddMonths(MonthOf(now), i - 5));
    }
    FilterSame(txs, InBucket(b), inMonth);
  }

  /** A month without transactions still has its row, with 0. */
  lemma EmptyMonthIsZero(txs: seq<Transaction>, now: DateTime, i: int)
    requires 0 <= i < 6
    requires forall k :: 0 <= k < |txs| ==> MonthOf(txs[k].date) != AddMonths(MonthOf(now), i - 5)
    ensures Chart(txs, now)[i].expenses == 0
  {
    BucketsAreTrailingMonths(now);
    var b := Buckets(now)[i];
    var f := Filter(txs, InBucket(b));
    if f != [] {
      InBucketIff(f[0], AddMonths(MonthOf(now), i - 5));
    }
  }

  // ---------------------------------------------------------------------
  // The total over the window

  function ChartTotal(rows: seq<MonthlyData>): int
    decreases |rows|
  {
    if rows == [] then 0 else ChartTotal(rows[..|rows| - 1]) + rows[|rows| - 1].expenses
  }

  /** In one of the buckets. */
  function InAny(bs: seq<Bucket>): Transaction -> bool {
    (t: Transaction) => exists j :: 0 <= j < |bs| && InBucket(bs[j])(t)
  }

  lemma InAnySnoc(bs: seq<Bucket>, t: Transaction)
    requires bs != []
    ensures InAny(bs)(t) == (InAny(bs[..|bs| - 1])(t) || InBucket(bs[|bs| - 1])(t))
  {
    var bs' := bs[..|bs| - 1];
    if InAny(bs)(t) {
      var j :| 0 <= j < |bs| && InBucket(bs[j])(t);
      if j < |bs'| {
        assert InBucket(bs'[j])(t);
      }
    }
    if InAny(bs')(t) {
      var j :| 0 <= j < |bs'| && InBucket(bs'[j])(t);
      assert InBucket(bs[j])(t);
    }
  }

  lemma LastDisjoint(bs: seq<Bucket>, t: Transaction)
    requires bs != []
    requires forall t, i, j :: 0 <= i < j < |bs| && InBucket(bs[i])(t) ==> !InBucket(bs[j])(t)
    ensures !(InAny(bs[..|bs| - 1])(t) && InBucket(bs[|bs| - 1])(t))
  {
    var bs' := bs[..|bs| - 1];
    if InAny(bs')(t) {
      var j :| 0 <= j < |bs'| && InBucket(bs'[j])(t);
      assert InBucket(bs[j])(t);
    }
  }

  lemma {:induction false} TotalOfDisjointBuckets(txs: seq<Transaction>, bs: seq<Bucket>)
    requires forall t, i, j :: 0 <= i < j < |bs| && InBucket(bs[i])(t) ==> !InBucket(bs[j])(t)
    ensures ChartTotal(Map(bs, Row(txs))) == SumAbs(Filter(txs, InAny(bs)))
    decreases |bs|
  {
    if bs == [] {
      assert Filter(txs, InAny(bs)) == [];
    } else {
      var bs', b := bs[..|bs| - 1], bs[|bs| - 1];
      TotalOfDisjointBuckets(txs, bs');
      assert Map(bs, Row(txs))[..|bs| - 1] == Map(bs', Row(txs));
      forall t ensures !(InAny(bs')(t) && InBucket(b)(t)) && InAny(bs)(t) == (InAny(bs')(t) || InBucket(b)(t)) {
        LastDisjoint(bs, t);
        InAnySnoc(bs, t);
      }
      SumAbsUnion(txs, InAny(bs'), InBucket(b), InAny(bs));
    }
  }

  lemma BucketsPairwiseDisjoint(now: DateTime)
    ensures forall t, i, j :: 0 <= i < j < |Buckets(now)| && InBucket(Buckets(now)[i])(t) ==> !InBucket(Buckets(now)[j])(t)
  {
    var bs := Buckets(now);
    forall t, i, j | 0 <= i < j < |bs| && InBucket(bs[i])(t) ensures !InBucket(bs[j])(t) {
      if InBucket(bs[j])(t) {
        BucketsDisjoint(now, t, i, j);
      }
    }
  }

  /** A transaction dated within the six months is in one of the buckets. */
  lemma InWindowInBucket(now: DateTime, t: Transaction)
    requires MonthNumber(MonthOf(now)) - 5 <= MonthNumber(MonthOf(t.date)) <= MonthNumber(MonthOf(now))
    ensures InAny(Buckets(now))(t)
  {
    BucketsAreTrailingMonths(now);
    var m := MonthOf(t.date);
    var i := MonthNumber(m) - MonthNumber(MonthOf(now)) + 5;
    MonthNumberInjective(AddMonths(MonthOf(now), i - 5), m);
    InBucketIff(t, m);
    assert InBucket(Buckets(now)[i])(t);
  }

  /** The six rows together never exceed the magnitudes of all
      transactions, and add up to them exactly when every transaction is
      dated within the six months. */
  lemma ChartTotalBound(txs: seq<Transaction>, now: DateTime)
    ensures ChartTotal(Chart(txs, now)) <= SumAbs(txs)
    ensures (forall k :: 0 <= k < |txs| ==>
               MonthNumber(MonthOf(now)) - 5 <= MonthNumber(MonthOf(txs[k].date)) <= MonthNumber(MonthOf(now)))
            ==> ChartTotal(Chart(txs, now)) == SumAbs(txs)
  {
    var bs := Buckets(now);
    BucketsPairwiseDisjoint(now);
    TotalOfDisjointBuckets(txs, bs);
    SumAbsFilterBound(txs, InAny(bs));
    if forall k :: 0 <= k < |txs| ==>
         MonthNumber(MonthOf(now)) - 5 <= MonthNumber(MonthOf(txs[k].date)) <= MonthNumber(MonthOf(now)) {
      forall k | 0 <= k < |txs| ensures InAny(bs)(txs[k]) {
        InWindowInBucket(now, txs[k]);
      }
      FilterAll(txs, InAny(bs));
    }
  }
}
