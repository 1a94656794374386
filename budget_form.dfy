/** The budget form sheet: its schema, its default values, and the request
    it sends on submit, including the `yyyy-MM` key it stores as the
    budget's month. */
module BudgetForm {
  import opened Js
  import opened Calendar
  import opened Seqs
  import opened Zod
  import opened Records
  import BudgetSchema
  import DashboardSummary

  /** The category labels offered; the stored value is the lower-case label. */
  const Categories: seq<string> := ["Food", "Rent", "Utilities", "Transportation", "Entertainment", "Salary", "Freelance", "Gifts"]

  function CategoryOptions(): seq<string> {
    Map(Categories, ToLower)
  }

  lemma LabelsAreWords()
    ensures forall i :: 0 <= i < |Categories| ==> IsCapitalizedWord(Categories[i])
  {
    assert IsCapitalizedWord(Categories[0]);
    assert IsCapitalizedWord(Categories[1]);
    assert IsCapitalizedWord(Categories[2]);
    assert IsCapitalizedWord(Categories[3]);
    assert IsCapitalizedWord(Categories[4]);
    assert IsCapitalizedWord(Categories[5]);
    assert IsCapitalizedWord(Categories[6]);
    assert IsCapitalizedWord(Categories[7]);
  }

  /** Every option is the lower-case form of its label, is already lower
      case, and capitalising it gives the label back; no two options are
      equal. */
  lemma OptionsAreLowerCaseLabels()
    ensures |CategoryOptions()| == |Categories| == 8
    ensures forall i :: 0 <= i < 8 ==> CategoryOptions()[i] == ToLower(Categories[i])
    ensures forall i :: 0 <= i < 8 ==> ToLower(CategoryOptions()[i]) == CategoryOptions()[i]
    ensures forall i :: 0 <= i < 8 ==> Capitalize(CategoryOptions()[i]) == Categories[i]
    ensures forall i, j :: 0 <= i < j < 8 ==> CategoryOptions()[i] != CategoryOptions()[j]
  {
    var o := CategoryOptions();
    LabelsAreWords();
    forall i | 0 <= i < 8
      ensures ToLower(o[i]) == o[i] && Capitalize(o[i]) == Categories[i]
    {
      ToLowerIdempotent(Categories[i]);
      CapitalizeLower(Categories[i]);
    }
    assert forall i, j :: 0 <= i < j < 8 ==> Categories[i] != Categories[j];
  }

  // ---------------------------------------------------------------------
  // The form schema

  datatype FormValues = FormValues(category: Value, amount: Value, month: Value)

  /** `budgetFormSchema`: the category need only be a string, the amount
      (after coercion) a positive number, and the month a valid date. */
  function FormIssues(v: FormValues): seq<Issue> {
    StringIssues("category", v.category, 0) + PositiveIssues("amount", v.amount) + DateIssues("month", v.month)
  }

  /** The values `onSubmit` receives once the form is valid. */
  datatype FormData = FormData(category: string, amount: int, month: DateTime)

  function Parse(v: FormValues): (r: Option<FormData>)
    ensures r.Some? <==> FormIssues(v) == []
    ensures r.Some? ==> r.value.amount > 0
    ensures r.Some? ==> v == FormValues(Str(r.value.category), Number(r.value.amount), DateValue(r.value.month))
  {
    if FormIssues(v) == [] then Some(FormData(v.category.s, v.amount.n, v.month.d)) else None
  }

  // ---------------------------------------------------------------------
  // Default values

  /** `defaultValues`: an edited budget's fields (its month read back by
      `new Date`, the parameter `parseDate`), or amount 0, no category, and
      the start of the current month. */
  function DefaultValues(budget: Option<Budget>, now: DateTime, parseDate: string -> Option<DateTime>): FormValues {
    match budget
    case Some(b) =>
      FormValues(
        Str(b.category),
        Number(b.amount),
        match parseDate(b.month) case Some(d) => DateValue(d) case None => InvalidDate)
    case None =>
      FormValues(Str(""), Number(0), DateValue(StartOfMonth(MonthOf(now))))
  }

  /** A new budget starts at the first day of the current month with amount
      0, which the form refuses until the amount is changed. */
  lemma NewBudgetDefaults(now: DateTime, parseDate: string -> Option<DateTime>)
    ensures var v := DefaultValues(None, now, parseDate);
            && v.month == DateValue(StartOfMonth(MonthOf(now)))
            && v.month.d.day == 1 && MonthOf(v.month.d) == MonthOf(now)
            && v.amount == Number(0)
            && Parse(v).None?
  {
  }

  // ---------------------------------------------------------------------
  // Submitting

  datatype Request = Request(httpMethod: string, url: string, body: BudgetSchema.BudgetInput)

  const Collection: string := "/api/budgets"

  /** `onSubmit`: PUT to the budget's own URL when editing, POST to the
      collection when creating; the month is sent as `format(month, "yyyy-MM")`. */
  function Submit(budget: Option<Budget>, data: FormData): Request {
    Request(
      if budget.Some? then "PUT" else "POST",
      if budget.Some? then Collection + "/" + budget.value.id else Collection,
      BudgetSchema.BudgetInput(Str(data.category), Number(data.amount), Str(MonthKey(MonthOf(data.month)))))
  }

  /** Editing sends PUT to `/api/budgets/<id>`, from which the id reads back;
      creating sends POST to `/api/budgets`. */
  lemma SubmitTarget(budget: Option<Budget>, data: FormData)
    ensures var r := Submit(budget, data);
            && (r.httpMethod == "PUT" <==> budget.Some?)
            && (r.httpMethod == "POST" <==> budget.None?)
            && (budget.None? ==> r.url == "/api/budgets")
            && (budget.Some? ==> r.url[..13] == "/api/budgets/" && r.url[13..] == budget.value.id)
  {
  }

  /** The month is sent as a seven-character `yyyy-MM` key for the years
      1..9999: four year digits, a dash, two month digits; taking its first
      seven characters keeps all of it, and it reads back as the month. */
  lemma MonthKeyFormat(data: FormData)
    requires 1 <= data.month.year <= 9999
    ensures var k := Submit(None, data).body.month.s;
            && |k| == 7 && k[4] == '-'
            && (forall i :: 0 <= i < 7 && i != 4 ==> IsDigit(k[i]))
            && Prefix(k, 7) == k
            && ParseMonthKey(k) == Some(MonthOf(data.month))
  {
    var m := MonthOf(data.month);
    MonthKeyLength(m);
    MonthKeyRoundTrip(m);
    DecimalWidth(m.year, 4);
    MonthDigits(m);
  }

  /** The budget as stored from a submitted form. */
  function Saved(id: string, data: FormData): Budget {
    Budget(id, data.category, data.amount, MonthKey(MonthOf(data.month)))
  }

  /** A budget saved from the form counts as a budget of the dashboard's
      current month exactly when its month is the month of `now`. */
  lemma SavedMatchesCurrentMonth(id: string, data: FormData, now: DateTime)
    requires 1 <= data.month.year <= 9999 && 1 <= now.year <= 9999
    ensures DashboardSummary.OfMonth(DashboardSummary.CurrentMonthKey(now))(Saved(id, data))
        <==> MonthOf(data.month) == MonthOf(now)
  {
    MonthKeyLength(MonthOf(data.month));
    IsoMonthPrefix(now);
    MonthKeyInjective(MonthOf(data.month), MonthOf(now));
  }

  /** The API accepts the body of a valid form exactly when the category is
      not empty and `Date.parse` reads the month key: the form itself lets an
      empty category through. */
  lemma SubmittedBodyAccepted(budget: Option<Budget>, v: FormValues, dateParses: string -> bool)
    requires Parse(v).Some?
    ensures (var data := Parse(v).value;
             BudgetSchema.Accepts(Submit(budget, data).body, dateParses)
             <==> data.category != "" && dateParses(MonthKey(MonthOf(data.month))))
  {
    BudgetSchema.AcceptsIff(Submit(budget, Parse(v).value).body, dateParses);
  }

  /** Editing a saved budget and submitting unchanged sends the same
      category and amount and the same month key back, provided `new Date`
      reads the stored key as the first instant of its month. */
  lemma EditRoundTrip(id: string, data: FormData, now: DateTime, parseDate: string -> Option<DateTime>)
    requires data.amount > 0
    requires parseDate(MonthKey(MonthOf(data.month))) == Some(StartOfMonth(MonthOf(data.month)))
    ensures var v := DefaultValues(Some(Saved(id, data)), now, parseDate);
            && Parse(v) == Some(FormData(data.category, data.amount, StartOfMonth(MonthOf(data.month))))
            && Submit(Some(Saved(id, data)), Parse(v).value).body == Submit(None, data).body
  {
    assert parseDate(MonthKey(MonthOf(data.month))) == Some(StartOfMonth(MonthOf(data.month)));
  }
}
