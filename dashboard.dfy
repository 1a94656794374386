/** The dashboard's summary cards: the total of all amounts, the transaction
    of largest magnitude, and the budgets of the current month whose spending
    went over the cap, shown one at a time in a circular carousel. */
module DashboardSummary {
  import opened Js
  import opened Calendar
  import opened Seqs
  import opened Records
  import opened Tally
  import opened Grouping

  // ---------------------------------------------------------------------
  // Total expenses

  /** The total adds the magnitude of every transaction, whatever its month
      or sign: each one is counted in full. */
  lemma {:induction false} TotalCountsEach(txs: seq<Transaction>, i: nat)
    requires i < |txs|
    ensures Abs(txs[i].amount) <= SumAbs(txs)
    ensures SumAbs(txs) == SumAbs(txs[..i]) + Abs(txs[i].amount) + SumAbs(txs[i + 1..])
  {
    assert txs == txs[..i] + [txs[i]] + txs[i + 1..];
    SumAbsConcat(txs[..i] + [txs[i]], txs[i + 1..]);
    SumAbsConcat(txs[..i], [txs[i]]);
  }

  /** The total is 0 exactly when every amount is 0; in particular for an
      empty list. */
  lemma TotalZero(txs: seq<Transaction>)
    ensures SumAbs(txs) == 0 <==> forall i :: 0 <= i < |txs| ==> txs[i].amount == 0
  {
    SumAbsZero(txs);
  }

  // ---------------------------------------------------------------------
  // Largest transaction

  /** The reducer `(max, t) => |t| > |max| ? t : max`. */
  function Larger(max: Transaction, t: Transaction): Transaction {
    if Abs(t.amount) > Abs(max.amount) then t else max
  }

  /** `s.reduce(Larger, seed)`. */
  function ReduceLarger(seed: Transaction, s: seq<Transaction>): Transaction
    decreases |s|
  {
    if s == [] then seed else Larger(ReduceLarger(seed, s[..|s| - 1]), s[|s| - 1])
  }

  /** `transactions.reduce(Larger, transactions[0])`: the seed of an empty
      list is `undefined`, which the reduce returns unchanged. */
  function LargestTransaction(txs: seq<Transaction>): (r: Option<Transaction>)
    ensures r.None? <==> txs == []
  {
    if txs == [] then None else Some(ReduceLarger(txs[0], txs))
  }

  /** The reduce returns the seed when nothing beats it, and otherwise the
      first element of largest magnitude, which beats the seed. */
  lemma {:induction false} ReduceLargerSpec(seed: Transaction, s: seq<Transaction>)
    ensures forall j :: 0 <= j < |s| ==> Abs(s[j].amount) <= Abs(ReduceLarger(seed, s).amount)
    ensures Abs(seed.amount) <= Abs(ReduceLarger(seed, s).amount)
    ensures ReduceLarger(seed, s) == seed
         || exists i :: 0 <= i < |s| && ReduceLarger(seed, s) == s[i]
                        && Abs(seed.amount) < Abs(s[i].amount)
                        && forall j :: 0 <= j < i ==> Abs(s[j].amount) < Abs(s[i].amount)
    decreases |s|
  {
    if s != [] {
      var pre, t := s[..|s| - 1], s[|s| - 1];
      ReduceLargerSpec(seed, pre);
      var m := ReduceLarger(seed, pre);
      if Abs(t.amount) > Abs(m.amount) {
        assert ReduceLarger(seed, s) == s[|s| - 1];
        forall j | 0 <= j < |s| - 1 ensures Abs(s[j].amount) < Abs(t.amount) {
          assert s[j] == pre[j];
        }
      } else {
        forall j | 0 <= j < |s| ensures Abs(s[j].amount) <= Abs(m.amount) {
          if j < |pre| {
            assert s[j] == pre[j];
          }
        }
        if m != seed {
          var i :| 0 <= i < |pre| && m == pre[i] && Abs(seed.amount) < Abs(pre[i].amount)
                   && forall j :: 0 <= j < i ==> Abs(pre[j].amount) < Abs(pre[i].amount);
          assert s[i] == pre[i];
          forall j | 0 <= j < i ensures Abs(s[j].amount) < Abs(s[i].amount) {
            assert s[j] == pre[j];
          }
        }
      }
    }
  }

  /** For a non-empty list the largest transaction is one of its elements,
      no element has a larger magnitude, and every element before it has a
      strictly smaller one: on a tie the earliest wins. */
  lemma LargestIsFirstMaximum(txs: seq<Transaction>)
    requires txs != []
    ensures var r := LargestTransaction(txs).value;
            && (forall j :: 0 <= j < |txs| ==> Abs(txs[j].amount) <= Abs(r.amount))
            && exists i :: 0 <= i < |txs| && r == txs[i]
                           && forall j :: 0 <= j < i ==> Abs(txs[j].amount) < Abs(r.amount)
  {
    ReduceLargerSpec(txs[0], txs);
  }

  /** When no transaction carries a category, as with records fetched back
      from the API, the "Most Expensive Transaction" card has none to
      capitalise: `capitalizeFirstLetter` is handed `undefined`. */
  lemma LargestHasNoCategory(txs: seq<Transaction>)
    requires txs != []
    requires forall j :: 0 <= j < |txs| ==> txs[j].category == None
    ensures LargestTransaction(txs).value.category == None
  {
    LargestIsFirstMaximum(txs);
  }

  // ---------------------------------------------------------------------
  // Spending per category in the current month

  /** `new Date().toISOString().slice(0, 7)`. */
  function CurrentMonthKey(now: DateTime): string {
    Prefix(IsoString(now), 7)
  }

  /** `t.date.slice(0, 7) === currentMonth`, where the API serialises the
      date as its ISO string. */
  function DatedIn(currentMonth: string): Transaction -> bool {
    (t: Transaction) => Prefix(IsoString(t.date), 7) == currentMonth
  }

  /** The same test, restricted to one category key. */
  function DatedInCategory(currentMonth: string, c: string): Transaction -> bool {
    (t: Transaction) => Prefix(IsoString(t.date), 7) == currentMonth && CategoryKey(t) == c
  }

  /** For the years 1..9999 the month test picks exactly the transactions
      dated in the same calendar month as `now`. */
  lemma DatedInCurrentMonth(now: DateTime, t: Transaction)
    requires 1 <= now.year <= 9999 && 1 <= t.date.year <= 9999
    ensures DatedIn(CurrentMonthKey(now))(t) <==> MonthOf(t.date) == MonthOf(now)
  {
    IsoMonthPrefix(now);
    IsoMonthPrefix(t.date);
    MonthKeyInjective(MonthOf(t.date), MonthOf(now));
  }

  /** The `categorySpending` reduce: adds the magnitude of each transaction
      of the current month under `acc[t.category]`. */
  method CategorySpending(txs: seq<Transaction>, currentMonth: string) returns (acc: Tally)
    ensures acc == GroupBy(txs, DatedIn(currentMonth), CategoryKey)
  {
    acc := Empty;
    var i := 0;
    while i < |txs|
      invariant 0 <= i <= |txs|
      invariant acc == GroupBy(txs[..i], DatedIn(currentMonth), CategoryKey)
    {
      var t := txs[i];
      GroupByStep(txs, i, DatedIn(currentMonth), CategoryKey);
      var month := Prefix(IsoString(t.date), 7);
      if month == currentMonth {
        acc := acc.Add(CategoryKey(t), Abs(t.amount));
      }
      i := i + 1;
    }
    assert txs[..i] == txs;
  }

  /** Under category `c` the spending is the sum of the magnitudes of the
      current month's transactions whose category is exactly `c`; other
      months and other spellings contribute nothing. */
  lemma SpendingOfCategory(txs: seq<Transaction>, currentMonth: string, c: string)
    ensures GroupBy(txs, DatedIn(currentMonth), CategoryKey).Get(c)
         == SumAbs(Filter(txs, DatedInCategory(currentMonth, c)))
  {
    GroupByGet(txs, DatedIn(currentMonth), CategoryKey, c, DatedInCategory(currentMonth, c));
  }

  // ---------------------------------------------------------------------
  // Exceeded categories

  datatype ExceededCategory = ExceededCategory(category: string, spent: int, budget: int)

  /** `b.month.slice(0, 7) === currentMonth`. */
  function OfMonth(currentMonth: string): Budget -> bool {
    (b: Budget) => Prefix(b.month, 7) == currentMonth
  }

  /** The `map` step: `categorySpending[b.category] || 0` against the cap. */
  function ToEntry(spending: Tally): Budget -> ExceededCategory {
    (b: Budget) => ExceededCategory(b.category, spending.Get(b.category), b.amount)
  }

  predicate IsOver(c: ExceededCategory) {
    c.spent > c.budget
  }

  /** Budgets whose category's spending is above their cap. */
  function OverCap(spending: Tally): Budget -> bool {
    (b: Budget) => spending.Get(b.category) > b.amount
  }

  /** A budget of the current month whose spending is above its cap. */
  function Exceeds(spending: Tally, currentMonth: string): Budget -> bool {
    (b: Budget) => Prefix(b.month, 7) == currentMonth && spending.Get(b.category) > b.amount
  }

  /** The filter, map, filter chain of the dashboard. */
  function ExceededCategories(budgets: seq<Budget>, spending: Tally, currentMonth: string): seq<ExceededCategory> {
    Filter(Map(Filter(budgets, OfMonth(currentMonth)), ToEntry(spending)), IsOver)
  }

  /** The list holds one entry per budget of the current month whose
      spending is strictly above its cap, in budget order, duplicates
      included. */
  lemma ExceededAreOverBudgets(budgets: seq<Budget>, spending: Tally, currentMonth: string)
    ensures ExceededCategories(budgets, spending, currentMonth)
         == Map(Filter(budgets, Exceeds(spending, currentMonth)), ToEntry(spending))
  {
    var current := Filter(budgets, OfMonth(currentMonth));
    FilterMap(current, ToEntry(spending), IsOver, OverCap(spending));
    FilterFilter(budgets, OfMonth(currentMonth), OverCap(spending), Exceeds(spending, currentMonth));
  }

  /** Every entry is over its cap, reports its category's spending, and comes
      from a budget of the current month; there are no more entries than
      such budgets. */
  lemma ExceededEntries(budgets: seq<Budget>, spending: Tally, currentMonth: string)
    ensures var r := ExceededCategories(budgets, spending, currentMonth);
            && |r| <= |Filter(budgets, OfMonth(currentMonth))|
            && forall i :: 0 <= i < |r| ==>
                 && r[i].spent > r[i].budget
                 && r[i].spent == spending.Get(r[i].category)
                 && exists j :: 0 <= j < |budgets| && Prefix(budgets[j].month, 7) == currentMonth
                                && budgets[j].category == r[i].category && budgets[j].amount == r[i].budget
  {
    ExceededAreOverBudgets(budgets, spending, currentMonth);
    var r := ExceededCategories(budgets, spending, currentMonth);
    var chosen := Filter(budgets, Exceeds(spending, currentMonth));
    FilterFilter(budgets, OfMonth(currentMonth), OverCap(spending), Exceeds(spending, currentMonth));
    forall i | 0 <= i < |r|
      ensures exists j :: 0 <= j < |budgets| && Prefix(budgets[j].month, 7) == currentMonth
                          && budgets[j].category == r[i].category && budgets[j].amount == r[i].budget
    {
      assert chosen[i] in budgets;
      var j :| 0 <= j < |budgets| && budgets[j] == chosen[i];
      assert Exceeds(spending, currentMonth)(budgets[j]);
    }
  }

  /** Every budget of the current month whose category's spending is
      strictly above its cap is listed. */
  lemma ExceededComplete(budgets: seq<Budget>, spending: Tally, currentMonth: string, j: nat)
    requires j < |budgets|
    requires Prefix(budgets[j].month, 7) == currentMonth && spending.Get(budgets[j].category) > budgets[j].amount
    ensures ToEntry(spending)(budgets[j]) in ExceededCategories(budgets, spending, currentMonth)
  {
    ExceededAreOverBudgets(budgets, spending, currentMonth);
    var chosen := Filter(budgets, Exceeds(spending, currentMonth));
    assert Exceeds(spending, currentMonth)(budgets[j]);
    assert budgets[j] in chosen;
    var k :| 0 <= k < |chosen| && chosen[k] == budgets[j];
    assert Map(chosen, ToEntry(spending))[k] == ToEntry(spending)(budgets[j]);
  }

  /** A budget whose category spent nothing is never listed unless its cap
      is negative: spending equal to the cap is not over it. */
  lemma UnspentNeverListed(budgets: seq<Budget>, spending: Tally, currentMonth: string)
    ensures var r := ExceededCategories(budgets, spending, currentMonth);
            forall i :: 0 <= i < |r| && spending.Get(r[i].category) == 0 ==> r[i].budget < 0
  {
    ExceededEntries(budgets, spending, currentMonth);
  }

  // ---------------------------------------------------------------------
  // The summary

  datatype Summary = Summary(
    totalExpenses: nat,
    exceededCategories: seq<ExceededCategory>,
    largestTransaction: Option<Transaction>)

  /** The computations of `fetchSummaryData`, on the fetched lists and the
      instant the dashboard was opened. */
  method SummaryData(transactions: seq<Transaction>, budgets: seq<Budget>, now: DateTime) returns (s: Summary)
    ensures s.totalExpenses == SumAbs(transactions)
    ensures s.largestTransaction == LargestTransaction(transactions)
    ensures s.exceededCategories
         == Map(Filter(budgets, Exceeds(GroupBy(transactions, DatedIn(CurrentMonthKey(now)), CategoryKey), CurrentMonthKey(now))),
                ToEntry(GroupBy(transactions, DatedIn(CurrentMonthKey(now)), CategoryKey)))
  {
    var currentMonth := CurrentMonthKey(now);
    var spending := CategorySpending(transactions, currentMonth);
    ExceededAreOverBudgets(budgets, spending, currentMonth);
    s := Summary(SumAbs(transactions), ExceededCategories(budgets, spending, currentMonth), LargestTransaction(transactions));
  }

  // ---------------------------------------------------------------------
  // The carousel

  /** `(prev + 1) % length`. */
  function NextIndex(i: nat, n: nat): (r: nat)
    requires n >= 1
    ensures i < n ==> r < n
  {
    (i + 1) % n
  }

  /** `prev === 0 ? length - 1 : prev - 1`. */
  function PrevIndex(i: nat, n: nat): (r: nat)
    requires n >= 1
    ensures i < n ==> r < n
  {
    if i == 0 then n - 1 else i - 1
  }

  /** Stepping back undoes stepping forward, and the other way round. */
  lemma NextPrevInverse(i: nat, n: nat)
    requires 1 <= n && i < n
    ensures PrevIndex(NextIndex(i, n), n) == i
    ensures NextIndex(PrevIndex(i, n), n) == i
  {
    if i + 1 < n {
      assert NextIndex(i, n) == i + 1;
    } else {
      assert NextIndex(i, n) == 0;
    }
    if i == 0 {
      assert NextIndex(n - 1, n) == 0;
    } else {
      assert NextIndex(i - 1, n) == i;
    }
  }

  /** The exceeded-categories card: its entries and `currentCategoryIndex`. */
  class CategoryCarousel {
    var entries: seq<ExceededCategory>
    var index: nat

    ghost predicate Valid()
      reads this
    {
      index == 0 || index < |entries|
    }

    /** The card once the summary has loaded; the index starts at 0. */
    constructor (entries: seq<ExceededCategory>)
      ensures Valid()
      ensures this.entries == entries && index == 0
    {
      this.entries := entries;
      index := 0;
    }

    /** The carousel is drawn only when there is an entry. */
    predicate Shown()
      reads this
    {
      |entries| > 0
    }

    /** Both arrow buttons are disabled when there is at most one entry. */
    predicate ButtonsDisabled()
      reads this
    {
      |entries| <= 1
    }

    /** The heading of the shown entry. */
    function Title(): (r: string)
      requires Valid() && Shown()
      reads this
      ensures |r| == |entries[index].category|
      ensures |r| > 0 ==> (r[0] == UpperChar(entries[index].category[0]) && r[1..] == entries[index].category[1..])
    {
      Capitalize(entries[index].category)
    }

    method Next()
      requires Valid() && Shown()
      modifies this
      ensures Valid() && entries == old(entries)
      ensures index == NextIndex(old(index), |entries|)
    {
      index := (index + 1) % |entries|;
    }

    method Prev()
      requires Valid() && Shown()
      modifies this
      ensures Valid() && entries == old(entries)
      ensures index == PrevIndex(old(index), |entries|)
    {
      index := if index == 0 then |entries| - 1 else index - 1;
    }
  }

  /** With one entry the disabled buttons would not have moved anything. */
  lemma SingleEntryFixed(i: nat)
    requires i < 1
    ensures NextIndex(i, 1) == i && PrevIndex(i, 1) == i
  {
  }
}
