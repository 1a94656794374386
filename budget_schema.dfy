/** `budgetSchema`: the check a budget body must pass. */
module BudgetSchema {
  import opened Zod

  datatype BudgetInput = BudgetInput(category: Value, amount: Value, month: Value)

  /** `budgetSchema.safeParse(input)`: every field is checked and the issues
      are listed in field order. Whether `Date.parse` reads a string is the
      parameter `dateParses`. */
  function Issues(input: BudgetInput, dateParses: string -> bool): seq<Issue> {
    StringIssues("category", input.category, 1)
    + PositiveIssues("amount", input.amount)
    + RefinedStringIssues("month", input.month, dateParses)
  }

  predicate Accepts(input: BudgetInput, dateParses: string -> bool) {
    Issues(input, dateParses) == []
  }

  /** A body is accepted exactly when its category is a non-empty string, its
      amount a positive number and its month a string `Date.parse` reads. */
  lemma AcceptsIff(input: BudgetInput, dateParses: string -> bool)
    ensures Accepts(input, dateParses)
        <==> && input.category.Str? && input.category.s != ""
             && input.amount.Number? && input.amount.n > 0
             && input.month.Str? && dateParses(input.month.s)
  {
  }

  /** Each failed check names its own field, once, in field order. */
  lemma IssuesPerField(input: BudgetInput, dateParses: string -> bool)
    ensures var r := Issues(input, dateParses);
            && |r| <= 3
            && (forall i :: 0 <= i < |r| ==> r[i].path in ["category", "amount", "month"])
            && (Reports(r, "category") <==> !(input.category.Str? && input.category.s != ""))
            && (Reports(r, "amount") <==> !(input.amount.Number? && input.amount.n > 0))
            && (Reports(r, "month") <==> !(input.month.Str? && dateParses(input.month.s)))
  {
    var a := StringIssues("category", input.category, 1);
    var b := PositiveIssues("amount", input.amount);
    var c := RefinedStringIssues("month", input.month, dateParses);
    var r := Issues(input, dateParses);
    assert r == (a + b) + c;
    assert forall i :: 0 <= i < |r| ==> r[i] in a || r[i] in b || r[i] in c;
    FieldReported(a, b, c, "category");
    FieldReported(a, b, c, "amount");
    FieldReported(a, b, c, "month");
  }

  /** Whether the budget's three checks name `p`. */
  lemma FieldReported(a: seq<Issue>, b: seq<Issue>, c: seq<Issue>, p: string)
    requires |a| <= 1 && forall i :: 0 <= i < |a| ==> a[i].path == "category"
    requires |b| <= 1 && forall i :: 0 <= i < |b| ==> b[i].path == "amount"
    requires |c| <= 1 && forall i :: 0 <= i < |c| ==> c[i].path == "month"
    ensures Reports((a + b) + c, p)
        <==> (a != [] && p == "category") || (b != [] && p == "amount") || (c != [] && p == "month")
  {
    ReportsOwn(a, "category", p);
    ReportsOwn(b, "amount", p);
    ReportsOwn(c, "month", p);
    ReportsConcat(a, b, p);
    ReportsConcat(a + b, c, p);
  }
}
