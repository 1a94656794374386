/** The budgets table: each budget's progress against the expenses filed
    under its category, and the removal of a deleted budget from the list. */
module BudgetsList {
  import opened Js
  import opened Seqs
  import opened Records
  import TransactionSchema
  import opened Deletion

  /** `t.category === budget.category && t.amount < 0`: a transaction without
      a category never matches. */
  function SpentOn(budget: Budget): Transaction -> bool {
    (t: Transaction) => t.category == Some(budget.category) && IsExpense(t)
  }

  datatype Progress = Progress(amount: nat, percentage: Num)

  /** `Math.min(Math.round((spent / cap) * 100), 100)`. */
  function Percentage(spent: int, cap: int): Num {
    Min(Round(Scale(Div(spent as real, cap as real), 100.0)), 100.0)
  }

  /** `calculateProgress(budget)`. */
  function CalculateProgress(transactions: seq<Transaction>, budget: Budget): Progress {
    var categoryExpenses := SumAbs(Filter(transactions, SpentOn(budget)));
    Progress(categoryExpenses, Percentage(categoryExpenses, budget.amount))
  }

  // ---------------------------------------------------------------------
  // The percentage

  /** The percentage is NaN only for no spending against a cap of 0;
      otherwise it is a whole number of at most 100, at least 0 for a
      positive cap, and exactly 100 for spending against a cap of 0. */
  lemma PercentageBounds(spent: nat, cap: int)
    ensures Percentage(spent, cap) == NaN <==> spent == 0 && cap == 0
    ensures Percentage(spent, cap) != NaN ==> Percentage(spent, cap).Finite? && Percentage(spent, cap).value <= 100.0
    ensures Percentage(spent, cap).Finite? ==> Percentage(spent, cap).value == Percentage(spent, cap).value.Floor as real
    ensures cap > 0 ==> Percentage(spent, cap).Finite? && 0.0 <= Percentage(spent, cap).value
    ensures cap == 0 && spent > 0 ==> Percentage(spent, cap) == Finite(100.0)
  {
    var q := Div(spent as real, cap as real);
    if cap > 0 {
      assert q.value * (cap as real) == spent as real;
      assert q.value >= 0.0;
    }
  }

  lemma FloorMonotone(x: real, y: real)
    requires x <= y
    ensures x.Floor <= y.Floor
  {
  }

  /** For a fixed positive cap the percentage never falls as spending
      grows. */
  lemma PercentageMonotone(s1: nat, s2: nat, cap: int)
    requires s1 <= s2 && cap > 0
    ensures Percentage(s1, cap).Finite? && Percentage(s2, cap).Finite?
    ensures Percentage(s1, cap).value <= Percentage(s2, cap).value
  {
    var c := cap as real;
    var q1, q2 := Div(s1 as real, c), Div(s2 as real, c);
    assert q1.value * c == s1 as real && q2.value * c == s2 as real;
    assert q1.value <= q2.value by {
      assert (q2.value - q1.value) * c == (s2 - s1) as real;
    }
    FloorMonotone(q1.value * 100.0 + 0.5, q2.value * 100.0 + 0.5);
  }

  // ---------------------------------------------------------------------
  // The spending

  /** The amount is the sum of the magnitudes of the expenses filed under
      exactly the budget's category. */
  lemma ProgressCountsExpenses(transactions: seq<Transaction>, budget: Budget, spent: Transaction -> bool)
    requires forall t :: spent(t) == (t.category == Some(budget.category) && t.amount < 0)
    ensures CalculateProgress(transactions, budget).amount == SumAbs(Filter(transactions, spent))
    ensures CalculateProgress(transactions, budget).amount <= SumAbs(transactions)
  {
    FilterSame(transactions, SpentOn(budget), spent);
    SumAbsFilterBound(transactions, SpentOn(budget));
  }

  /** Income, and transactions of another category, leave the progress as
      it was, wherever they stand in the list. */
  lemma OtherTransactionsIgnored(before: seq<Transaction>, t: Transaction, after: seq<Transaction>, budget: Budget)
    requires t.amount >= 0 || t.category != Some(budget.category)
    ensures CalculateProgress(before + [t] + after, budget) == CalculateProgress(before + after, budget)
  {
    FilterSkip(before, t, after, SpentOn(budget));
  }

  /** The month plays no part: two budgets of the same category and cap get
      the same progress. */
  lemma MonthIgnored(transactions: seq<Transaction>, b1: Budget, b2: Budget)
    requires b1.category == b2.category && b1.amount == b2.amount
    ensures CalculateProgress(transactions, b1) == CalculateProgress(transactions, b2)
  {
    assert SpentOn(b1) == SpentOn(b2);
  }

  /** Transactions the API accepted are never expenses, so their progress
      is 0, shown as 0% for any cap other than 0. */
  lemma AcceptedTransactionsNoProgress(transactions: seq<Transaction>, budget: Budget, dateParses: string -> bool)
    requires forall k :: 0 <= k < |transactions| ==> TransactionSchema.Accepts(TransactionSchema.Body(transactions[k]), dateParses)
    ensures CalculateProgress(transactions, budget).amount == 0
    ensures budget.amount != 0 ==> CalculateProgress(transactions, budget).percentage == Finite(0.0)
  {
    TransactionSchema.AcceptedAllIncome(transactions, dateParses);
    NoneSpent(transactions, budget);
    if budget.amount != 0 {
      NothingSpentIsZero(budget.amount);
    }
  }

  lemma NothingSpentIsZero(cap: int)
    requires cap != 0
    ensures Percentage(0, cap) == Finite(0.0)
  {
    var q := Div(0.0, cap as real);
    assert q == Finite(0.0);
    assert Scale(q, 100.0) == Finite(0.0);
    assert (0.0 + 0.5).Floor == 0;
    assert Round(Finite(0.0)) == Finite(0.0);
  }

  lemma NoneSpent(transactions: seq<Transaction>, budget: Budget)
    requires forall k :: 0 <= k < |transactions| ==> transactions[k].amount >= 0
    ensures Filter(transactions, SpentOn(budget)) == []
  {
  }

  // ---------------------------------------------------------------------
  // Deleting

  function BudgetId(budget: Budget): string {
    budget.id
  }

  /** The component's state: the fetched budgets and transactions. */
  class BudgetsListState {
    var budgets: seq<Budget>
    var transactions: seq<Transaction>

    constructor(budgets: seq<Budget>, transactions: seq<Transaction>)
      ensures this.budgets == budgets && this.transactions == transactions
    {
      this.budgets := budgets;
      this.transactions := transactions;
    }

    /** The progress shown in a budget's row. */
    function Progress(budget: Budget): Progress
      reads this
    {
      CalculateProgress(transactions, budget)
    }

    /** `handleDelete(id)` once the DELETE request has answered. The handler
        filters `captured`, the `budgets` it closed over when it was rendered,
        not the list current at the answer: when the response is ok the list
        becomes `captured` without that id, otherwise the error is thrown
        before the list is touched. */
    method HandleDelete(captured: seq<Budget>, id: string, responseOk: bool)
      modifies this
      ensures responseOk ==> budgets == Without(captured, BudgetId, id)
      ensures !responseOk ==> budgets == old(budgets)
      ensures transactions == old(transactions)
    {
      if !responseOk {
        return;
      }
      budgets := Without(captured, BudgetId, id);
    }

    /** `budgets.length === 0`: the empty-state message. */
    predicate ShowsEmptyState()
      reads this
    {
      budgets == []
    }
  }
}
