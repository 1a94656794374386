/** The budget comparison chart: one bar pair per budget, the cap against
    the magnitudes of all expenses grouped under the budget's category,
    whatever month they fall in. */
module BudgetComparison {
  import opened Js
  import opened Seqs
  import opened Records
  import opened Tally
  import opened Grouping
  import TransactionSchema

  /** `t => t.amount < 0`. */
  function ExpenseFilter(): Transaction -> bool {
    (t: Transaction) => IsExpense(t)
  }

  datatype ComparisonData = ComparisonData(name: string, budget: int, actual: int)

  /** `{ name: capitalised category, budget: budget.amount,
      actual: categoryExpenses[budget.category] || 0 }`. */
  function CompareWith(categoryExpenses: Tally): Budget -> ComparisonData {
    (budget: Budget) => ComparisonData(Capitalize(budget.category), budget.amount, categoryExpenses.Get(budget.category))
  }

  function ExpensesByCategory(transactions: seq<Transaction>): Tally {
    GroupBy(transactions, ExpenseFilter(), GroupedCategory)
  }

  function Comparison(transactions: seq<Transaction>, budgets: seq<Budget>): seq<ComparisonData> {
    Map(budgets, CompareWith(ExpensesByCategory(transactions)))
  }

  /** `fetchData` after the fetches. */
  method FetchData(transactions: seq<Transaction>, budgets: seq<Budget>) returns (chartData: seq<ComparisonData>)
    ensures chartData == Comparison(transactions, budgets)
  {
    var expenses := Filter(transactions, ExpenseFilter());
    var categoryExpenses := GroupByCategoryName(expenses);
    PairsOfFiltered(transactions, ExpenseFilter(), Every(), GroupedCategory);
    chartData := Map(budgets, CompareWith(categoryExpenses));
  }

  // ---------------------------------------------------------------------
  // Properties of the rows

  /** One row per budget, in budget order: its category capitalised, its
      cap unchanged, and the magnitudes of the expenses grouped under its
      category. */
  lemma RowOfBudget(transactions: seq<Transaction>, budgets: seq<Budget>, i: int, counted: Transaction -> bool)
    requires 0 <= i < |budgets|
    requires forall t :: counted(t) == (t.amount < 0 && GroupedCategory(t) == budgets[i].category)
    ensures |Comparison(transactions, budgets)| == |budgets|
    ensures Comparison(transactions, budgets)[i].name == Capitalize(budgets[i].category)
    ensures Comparison(transactions, budgets)[i].budget == budgets[i].amount
    ensures Comparison(transactions, budgets)[i].actual == SumAbs(Filter(transactions, counted))
  {
    GroupByGet(transactions, ExpenseFilter(), GroupedCategory, budgets[i].category, counted);
  }

  /** The comparison is not scoped to a month: two budgets of the same
      category show the same actual spending. */
  lemma SameCategorySameActual(transactions: seq<Transaction>, budgets: seq<Budget>, i: int, j: int)
    requires 0 <= i < |budgets| && 0 <= j < |budgets|
    requires budgets[i].category == budgets[j].category
    ensures Comparison(transactions, budgets)[i].actual == Comparison(transactions, budgets)[j].actual
  {
  }

  /** A budget whose category no expense is grouped under shows 0; that is
      always so for the empty category, which is grouped as
      "Uncategorized". */
  lemma NoExpensesNoActual(transactions: seq<Transaction>, budgets: seq<Budget>, i: int)
    requires 0 <= i < |budgets|
    requires budgets[i].category == "" || forall k :: 0 <= k < |transactions| && transactions[k].amount < 0
                                                   ==> GroupedCategory(transactions[k]) != budgets[i].category
    ensures Comparison(transactions, budgets)[i].actual == 0
  {
    GroupByKeys(transactions, ExpenseFilter(), GroupedCategory);
  }

  /** Only expenses count: a transaction with an amount of 0 or more leaves
      the chart as it was. */
  lemma IncomeIgnored(transactions: seq<Transaction>, t: Transaction, budgets: seq<Budget>)
    requires t.amount >= 0
    ensures Comparison(transactions + [t], budgets) == Comparison(transactions, budgets)
  {
    var s := transactions + [t];
    assert s[..|s| - 1] == transactions && s[|s| - 1] == t;
    assert !ExpenseFilter()(t);
    var ps := Pairs(transactions, ExpenseFilter(), GroupedCategory);
    assert ps + [] == ps;
    assert Pairs(s, ExpenseFilter(), GroupedCategory) == ps;
    assert ExpensesByCategory(s) == ExpensesByCategory(transactions);
  }

  /** Transactions the API accepted have positive amounts, so every bar of
      actual spending they produce is 0. */
  lemma AcceptedTransactionsShowNothing(transactions: seq<Transaction>, budgets: seq<Budget>, dateParses: string -> bool, i: int)
    requires forall k :: 0 <= k < |transactions| ==> TransactionSchema.Accepts(TransactionSchema.Body(transactions[k]), dateParses)
    requires 0 <= i < |budgets|
    ensures Comparison(transactions, budgets)[i].actual == 0
  {
    TransactionSchema.AcceptedAllIncome(transactions, dateParses);
    NoExpensesNoActual(transactions, budgets, i);
  }

  /** The empty-state message shows exactly when there are no budgets,
      whatever the transactions. */
  lemma EmptyChartIff(transactions: seq<Transaction>, budgets: seq<Budget>)
    ensures Comparison(transactions, budgets) == [] <==> budgets == []
  {
  }
}
