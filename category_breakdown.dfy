/** The category breakdown table: the magnitudes of all transactions
    grouped by their category as it is stored, each group's share of the
    grand total as a percentage, and the rows sorted by total, largest
    first. */
module CategoryBreakdown {
  import opened Js
  import opened Seqs
  import opened Records
  import opened Tally
  import opened Grouping
  import opened Sorting

  datatype Row = Row(category: string, total: int, percentage: Num)

  /** The `reduce` into `categoryTotals`:
      `acc[transaction.category] = (acc[transaction.category] || 0) + Math.abs(transaction.amount)`. */
  method CategoryTotals(data: seq<Transaction>) returns (acc: Tally)
    ensures acc == GroupBy(data, Every(), CategoryKey)
  {
    acc := Empty;
    var i := 0;
    while i < |data|
      invariant 0 <= i <= |data|
      invariant acc == GroupBy(data[..i], Every(), CategoryKey)
    {
      var transaction := data[i];
      GroupByStep(data, i, Every(), CategoryKey);
      acc := acc.Add(PropertyKey(transaction.category), Abs(transaction.amount));
      i := i + 1;
    }
    assert data[..i] == data;
  }

  /** `{ category, total, percentage: (total / totalExpenses) * 100 }`. */
  function ToRow(totalExpenses: int): ((string, int)) -> Row {
    (entry: (string, int)) => Row(entry.0, entry.1, Scale(Div(entry.1 as real, totalExpenses as real), 100.0))
  }

  /** The sort key of `(a, b) => b.total - a.total`. */
  function RowTotal(r: Row): int {
    r.total
  }

  function RowCategory(r: Row): string {
    r.category
  }

  /** The rows before the sort, in the order of `Object.entries`. */
  function Unsorted(categoryTotals: Tally): seq<Row> {
    Map(categoryTotals.Entries(), ToRow(Sum(categoryTotals.Values())))
  }

  function Totals(data: seq<Transaction>): Tally {
    GroupBy(data, Every(), CategoryKey)
  }

  /** The breakdown the table shows. */
  function Breakdown(data: seq<Transaction>): seq<Row> {
    SortDesc(Unsorted(Totals(data)), RowTotal)
  }

  /** `fetchTransactions` after the fetch: the grouping, the grand total,
      the rows, and the in-place sort of the freshly built array. */
  method FetchTransactions(data: seq<Transaction>) returns (breakdown: seq<Row>)
    ensures breakdown == Breakdown(data)
  {
    var categoryTotals := CategoryTotals(data);
    var totalExpenses := Sum(categoryTotals.Values());
    var rows := Map(categoryTotals.Entries(), ToRow(totalExpenses));
    var a := new Row[|rows|]((i: int) requires 0 <= i < |rows| => rows[i]);
    assert a[..] == rows;
    SortDescending(a, RowTotal);
    breakdown := a[..];
  }

  // ---------------------------------------------------------------------
  // The grand total

  /** The grand total is the sum of the magnitudes of all transactions,
      income included. */
  lemma GrandTotal(data: seq<Transaction>)
    ensures Sum(Totals(data).Values()) == SumAbs(data)
  {
    GroupBySum(data, Every(), CategoryKey);
    FilterAll(data, Every());
  }

  // ---------------------------------------------------------------------
  // The rows

  /** Row `j` of the unsorted rows is the `j`-th category with its total and
      its share. */
  lemma UnsortedRow(data: seq<Transaction>, j: int)
    requires 0 <= j < |Totals(data).keys|
    ensures |Unsorted(Totals(data))| == |Totals(data).keys|
    ensures Unsorted(Totals(data))[j]
         == Row(Totals(data).keys[j], Totals(data).Get(Totals(data).keys[j]),
                Scale(Div(Totals(data).Get(Totals(data).keys[j]) as real, SumAbs(data) as real), 100.0))
  {
    GrandTotal(data);
  }

  /** Every row belongs to a category of some transaction, and its total is
      the sum of the magnitudes of the transactions whose category is
      exactly that one. */
  lemma RowTotals(data: seq<Transaction>, i: int, inCategory: Transaction -> bool)
    requires 0 <= i < |Breakdown(data)|
    requires forall t :: inCategory(t) == (CategoryKey(t) == Breakdown(data)[i].category)
    ensures Breakdown(data)[i].total == SumAbs(Filter(data, inCategory))
    ensures exists k :: 0 <= k < |data| && CategoryKey(data[k]) == Breakdown(data)[i].category
  {
    var g := Totals(data);
    var u := Unsorted(g);
    var r := Breakdown(data)[i];
    SortPermutes(u, RowTotal);
    assert r in multiset(u);
    var j :| 0 <= j < |u| && u[j] == r;
    UnsortedRow(data, j);
    GroupByGet(data, Every(), CategoryKey, r.category, inCategory);
    GroupByKeys(data, Every(), CategoryKey);
    assert r.category in g.keys;
  }

  /** The rows are a permutation of the grouped rows, one per distinct
      category, largest total first. */
  lemma BreakdownSorted(data: seq<Transaction>)
    ensures multiset(Breakdown(data)) == multiset(Unsorted(Totals(data)))
    ensures |Breakdown(data)| == |Totals(data).keys|
    ensures NonIncreasing(Breakdown(data), RowTotal)
    ensures DistinctBy(Breakdown(data), RowCategory)
  {
    var g := Totals(data);
    var u := Unsorted(g);
    SortPermutes(u, RowTotal);
    SortLength(u, RowTotal);
    SortSorted(u, RowTotal);
    GroupByKeys(data, Every(), CategoryKey);
    assert DistinctBy(u, RowCategory);
    SortDistinct(u, RowTotal, RowCategory);
  }

  /** Every category of a transaction has a row. */
  lemma EveryCategoryHasRow(data: seq<Transaction>, k: int)
    requires 0 <= k < |data|
    ensures exists i :: 0 <= i < |Breakdown(data)| && Breakdown(data)[i].category == CategoryKey(data[k])
  {
    var g := Totals(data);
    var u := Unsorted(g);
    GroupByKeys(data, Every(), CategoryKey);
    assert CategoryKey(data[k]) in g.keys;
    var j :| 0 <= j < |g.keys| && g.keys[j] == CategoryKey(data[k]);
    UnsortedRow(data, j);
    SortPermutes(u, RowTotal);
    assert u[j] in multiset(Breakdown(data));
    var i :| 0 <= i < |Breakdown(data)| && Breakdown(data)[i] == u[j];
  }

  /** Rows with equal totals keep the order of `Object.entries`, which is the
      order in which their categories first occur among the transactions. */
  lemma TiesKeepFirstAppearance(data: seq<Transaction>, v: int)
    ensures WithKey(Breakdown(data), RowTotal, v) == WithKey(Unsorted(Totals(data)), RowTotal, v)
    ensures InFirstOccurrenceOrder(Totals(data).keys, Map(data, CategoryKey))
    ensures forall j :: 0 <= j < |Totals(data).keys| ==> Unsorted(Totals(data))[j].category == Totals(data).keys[j]
  {
    SortStable(Unsorted(Totals(data)), RowTotal, v);
    GroupByEveryOrder(data, CategoryKey);
  }

  // ---------------------------------------------------------------------
  // The percentages

  function PercentOf(r: Row): real {
    if r.percentage.Finite? then r.percentage.value else 0.0
  }

  function SumTotals(es: seq<(string, int)>): int
    decreases |es|
  {
    if es == [] then 0 else SumTotals(es[..|es| - 1]) + es[|es| - 1].1
  }

  /** Adding one row keeps the scaled sum of the shares equal to 100 times
      the sum of the totals: `x` is the new sum of shares, `y` the new sum of
      totals. */
  lemma ShareStep(p: real, q: real, v: real, g: real, t: real, x: real, y: real)
    requires g > 0.0 && q == v / g && p * g == 100.0 * t
    requires x == p + q * 100.0 && y == t + v
    ensures x * g == 100.0 * y
  {
    assert q * g == v;
    assert (p + q * 100.0) * g == p * g + 100.0 * (q * g);
  }

  /** A row's share, as a plain number, when the grand total is positive. */
  lemma RowPercent(e: (string, int), g: int)
    requires g > 0
    ensures PercentOf(ToRow(g)(e)) == (e.1 as real / g as real) * 100.0
  {
  }

  /** The sum of `(total / g) * 100` over the entries. */
  function ShareSum(es: seq<(string, int)>, g: int): real
    requires g > 0
    decreases |es|
  {
    if es == [] then 0.0 else ShareSum(es[..|es| - 1], g) + (es[|es| - 1].1 as real / g as real) * 100.0
  }

  lemma {:induction false} RowsShareSum(es: seq<(string, int)>, g: int)
    requires g > 0
    ensures SumBy(Map(es, ToRow(g)), PercentOf) == ShareSum(es, g)
    decreases |es|
  {
    if es != [] {
      var pre, e := es[..|es| - 1], es[|es| - 1];
      RowsShareSum(pre, g);
      var m := Map(es, ToRow(g));
      assert m[..|m| - 1] == Map(pre, ToRow(g));
      RowPercent(e, g);
    }
  }

  lemma {:induction false} ShareSumScaled(es: seq<(string, int)>, g: int)
    requires g > 0
    ensures ShareSum(es, g) * (g as real) == 100.0 * (SumTotals(es) as real)
    decreases |es|
  {
    if es != [] {
      var pre, e := es[..|es| - 1], es[|es| - 1];
      ShareSumScaled(pre, g);
      ShareStep(ShareSum(pre, g), e.1 as real / g as real, e.1 as real, g as real, SumTotals(pre) as real,
                ShareSum(es, g), SumTotals(es) as real);
    }
  }

  lemma PercentSumScaled(es: seq<(string, int)>, g: int)
    requires g > 0
    ensures SumBy(Map(es, ToRow(g)), PercentOf) * (g as real) == 100.0 * (SumTotals(es) as real)
  {
    RowsShareSum(es, g);
    ShareSumScaled(es, g);
  }

  lemma {:induction false} SumTotalsOfEntries(es: seq<(string, int)>, vs: seq<int>)
    requires |es| == |vs| && forall i :: 0 <= i < |es| ==> es[i].1 == vs[i]
    ensures SumTotals(es) == Sum(vs)
    decreases |es|
  {
    if es != [] {
      SumTotalsOfEntries(es[..|es| - 1], vs[..|vs| - 1]);
    }
  }

  /** A row's share is its total over the grand total, times 100. */
  lemma RowShare(data: seq<Transaction>, i: int)
    requires 0 <= i < |Breakdown(data)|
    ensures 0 <= Breakdown(data)[i].total <= SumAbs(data)
    ensures Breakdown(data)[i].percentage == Scale(Div(Breakdown(data)[i].total as real, SumAbs(data) as real), 100.0)
  {
    var u := Unsorted(Totals(data));
    var r := Breakdown(data)[i];
    var inCategory := (t: Transaction) => CategoryKey(t) == r.category;
    RowTotals(data, i, inCategory);
    SumAbsFilterBound(data, inCategory);
    SortPermutes(u, RowTotal);
    assert r in multiset(u);
    var j :| 0 <= j < |u| && u[j] == r;
    UnsortedRow(data, j);
  }

  lemma ShareBounds(total: int, grand: int)
    requires 0 <= total <= grand && grand > 0
    ensures var p := Scale(Div(total as real, grand as real), 100.0);
            p.Finite? && 0.0 <= p.value <= 100.0
  {
    var q := total as real / grand as real;
    assert q * (grand as real) == total as real;
    assert 0.0 <= q <= 1.0;
  }

  /** With a positive grand total every share lies between 0 and 100, and
      the shares add up to 100. */
  lemma PercentagesAddUp(data: seq<Transaction>)
    requires SumAbs(data) > 0
    ensures forall i :: 0 <= i < |Breakdown(data)| ==>
              Breakdown(data)[i].percentage.Finite? && 0.0 <= Breakdown(data)[i].percentage.value <= 100.0
    ensures SumBy(Breakdown(data), PercentOf) == 100.0
  {
    forall i | 0 <= i < |Breakdown(data)|
      ensures Breakdown(data)[i].percentage.Finite? && 0.0 <= Breakdown(data)[i].percentage.value <= 100.0
    {
      RowShare(data, i);
      ShareBounds(Breakdown(data)[i].total, SumAbs(data));
    }
    SharesSum(data);
  }

  lemma Cancel(x: real, g: real, h: real)
    requires g > 0.0 && h == g && x * g == 100.0 * h
    ensures x == 100.0
  {
    assert (x - 100.0) * g == 0.0;
  }

  lemma EntriesTotal(g: Tally)
    ensures SumTotals(g.Entries()) == Sum(g.Values())
  {
    SumTotalsOfEntries(g.Entries(), g.Values());
  }

  /** Shares of a grand total that is the sum of the entries add up to 100. */
  lemma SharesOfTotal(es: seq<(string, int)>, g: int)
    requires g > 0 && SumTotals(es) == g
    ensures SumBy(Map(es, ToRow(g)), PercentOf) == 100.0
  {
    PercentSumScaled(es, g);
    Cancel(SumBy(Map(es, ToRow(g)), PercentOf), g as real, SumTotals(es) as real);
  }

  lemma UnsortedShares(g: Tally)
    requires Sum(g.Values()) > 0
    ensures SumBy(Unsorted(g), PercentOf) == 100.0
  {
    EntriesTotal(g);
    SharesOfTotal(g.Entries(), Sum(g.Values()));
  }

  lemma SharesSum(data: seq<Transaction>)
    requires SumAbs(data) > 0
    ensures SumBy(Breakdown(data), PercentOf) == 100.0
  {
    GrandTotal(data);
    UnsortedShares(Totals(data));
    SortSumBy(Unsorted(Totals(data)), RowTotal, PercentOf);
  }

  /** No transactions, no rows: the table shows its empty-state message,
      and only then. */
  lemma EmptyBreakdownIff(data: seq<Transaction>)
    ensures Breakdown(data) == [] <==> data == []
  {
    BreakdownSorted(data);
    GroupByKeys(data, Every(), CategoryKey);
    if data != [] {
      assert CategoryKey(data[0]) in Totals(data).keys;
    }
  }

  /** Transactions whose amounts are all 0 still give rows, and each share is
      0 / 0, which is NaN. */
  lemma AllZeroGivesNaN(data: seq<Transaction>)
    requires data != [] && forall k :: 0 <= k < |data| ==> data[k].amount == 0
    ensures Breakdown(data) != []
    ensures forall i :: 0 <= i < |Breakdown(data)| ==> Breakdown(data)[i].total == 0 && Breakdown(data)[i].percentage == NaN
  {
    EmptyBreakdownIff(data);
    SumAbsZero(data);
    var g := Totals(data);
    var u := Unsorted(g);
    GrandTotal(data);
    forall i | 0 <= i < |Breakdown(data)|
      ensures Breakdown(data)[i].total == 0 && Breakdown(data)[i].percentage == NaN
    {
      RowShare(data, i);
    }
  }
}
