/** The transaction form sheet: its schema, its default values, its
    category options and the request it sends on submit. */
module TransactionForm {
  import opened Js
  import opened Calendar
  import opened Seqs
  import opened Zod
  import opened Records
  import TransactionSchema
  import BudgetForm

  const Categories: seq<string> := ["Food", "Rent", "Utilities", "Transportation", "Entertainment", "Upskilling", "Healthcare", "Miscellaneous"]

  function CategoryOptions(): seq<string> {
    Map(Categories, ToLower)
  }

  lemma LabelsAreWords()
    ensures forall i :: 0 <= i < |Categories| ==> IsCapitalizedWord(Categories[i])
  {
    assert IsCapitalizedWord(Categories[0]);
    assert IsCapitalizedWord(Categories[1]);
    assert IsCapitalizedWord(Categories[2]);
    assert IsCapitalizedWord(Categories[3]);
    assert IsCapitalizedWord(Categories[4]);
    assert IsCapitalizedWord(Categories[5]);
    assert IsCapitalizedWord(Categories[6]);
    assert IsCapitalizedWord(Categories[7]);
  }

  /** The option values are exactly the lower-cased forms of the eight
      labels: already lower case, distinct, and capitalised back to their
      labels. */
  lemma OptionsAreLowerCaseLabels()
    ensures |CategoryOptions()| == |Categories| == 8
    ensures forall i :: 0 <= i < 8 ==> CategoryOptions()[i] == ToLower(Categories[i])
    ensures forall i :: 0 <= i < 8 ==> ToLower(CategoryOptions()[i]) == CategoryOptions()[i]
    ensures forall i :: 0 <= i < 8 ==> Capitalize(CategoryOptions()[i]) == Categories[i]
    ensures forall i, j :: 0 <= i < j < 8 ==> CategoryOptions()[i] != CategoryOptions()[j]
  {
    var o := CategoryOptions();
    LabelsAreWords();
    forall i | 0 <= i < 8
      ensures ToLower(o[i]) == o[i] && Capitalize(o[i]) == Categories[i]
    {
      ToLowerIdempotent(Categories[i]);
      CapitalizeLower(Categories[i]);
    }
    assert forall i, j :: 0 <= i < j < 8 ==> Categories[i] != Categories[j];
  }

  /** The two forms offer different lists: a transaction filed under
      "healthcare" has no budget category to be compared with. */
  lemma OptionListsDiffer()
    ensures "healthcare" in CategoryOptions() && "healthcare" !in BudgetForm.CategoryOptions()
  {
    OptionsAreLowerCaseLabels();
    BudgetForm.OptionsAreLowerCaseLabels();
    assert CategoryOptions()[6] == "healthcare";
    forall i | 0 <= i < 8 ensures BudgetForm.CategoryOptions()[i] != "healthcare" {
      BudgetForm.LabelsAreWords();
      CapitalizeLower(BudgetForm.Categories[i]);
      assert Capitalize("healthcare") == "Healthcare";
    }
  }

  // ---------------------------------------------------------------------
  // The form schema

  datatype FormValues = FormValues(amount: Value, category: Value, date: Value, description: Value)

  /** `transactionFormSchema`: a non-negative amount (after coercion), any
      string as category, a valid date, and a description of at least two
      characters. */
  function FormIssues(v: FormValues): seq<Issue> {
    NonNegativeIssues("amount", v.amount)
    + StringIssues("category", v.category, 0)
    + DateIssues("date", v.date)
    + StringIssues("description", v.description, 2)
  }

  datatype FormData = FormData(amount: int, category: string, date: DateTime, description: string)

  function Parse(v: FormValues): (r: Option<FormData>)
    ensures r.Some? <==> FormIssues(v) == []
    ensures r.Some? ==> r.value.amount >= 0 && |r.value.description| >= 2
    ensures r.Some? ==> v == FormValues(Number(r.value.amount), Str(r.value.category), DateValue(r.value.date), Str(r.value.description))
  {
    if FormIssues(v) == [] then Some(FormData(v.amount.n, v.category.s, v.date.d, v.description.s)) else None
  }

  /** A description is accepted only with at least two characters. */
  lemma DescriptionTooShort(v: FormValues)
    requires v.description.Str? && |v.description.s| < 2
    ensures Parse(v).None?
  {
  }

  // ---------------------------------------------------------------------
  // Default values

  /** `defaultValues`: the edited transaction's fields, with a missing
      category as "", or amount 0, no category, the current instant and no
      description. */
  function DefaultValues(transaction: Option<Transaction>, now: DateTime): FormValues {
    match transaction
    case Some(t) =>
      FormValues(
        Number(t.amount),
        Str(match t.category case Some(c) => c case None => ""),
        DateValue(t.date),
        Str(t.description))
    case None => FormValues(Number(0), Str(""), DateValue(now), Str(""))
  }

  /** Editing starts from the transaction's own amount, date and description,
      and its category or "" when it has none. */
  lemma EditDefaultsCopy(t: Transaction, now: DateTime)
    ensures var v := DefaultValues(Some(t), now);
            && v.amount == Number(t.amount) && v.date == DateValue(t.date) && v.description == Str(t.description)
            && (t.category.Some? ==> v.category == Str(t.category.value))
            && (t.category.None? ==> v.category == Str(""))
  {
  }

  /** A new transaction starts empty, which the description check refuses. */
  lemma NewTransactionDefaults(now: DateTime)
    ensures DefaultValues(None, now).amount == Number(0)
    ensures Parse(DefaultValues(None, now)).None?
  {
  }

  // ---------------------------------------------------------------------
  // Submitting

  datatype Request = Request(httpMethod: string, url: string, body: TransactionSchema.TransactionInput)

  const Collection: string := "/api/transactions"

  /** `onSubmit`: the body carries exactly the amount, the category, the
      date as its ISO string and the description. */
  function Submit(transaction: Option<Transaction>, data: FormData): Request {
    Request(
      if transaction.Some? then "PUT" else "POST",
      if transaction.Some? then Collection + "/" + transaction.value.id else Collection,
      TransactionSchema.TransactionInput(Number(data.amount), Str(IsoString(data.date)), Str(data.category), Str(data.description)))
  }

  /** Editing sends PUT to `/api/transactions/<id>`, from which the id reads
      back; creating sends POST to `/api/transactions`. */
  lemma SubmitTarget(transaction: Option<Transaction>, data: FormData)
    ensures var r := Submit(transaction, data);
            && (r.httpMethod == "PUT" <==> transaction.Some?)
            && (r.httpMethod == "POST" <==> transaction.None?)
            && (transaction.None? ==> r.url == "/api/transactions")
            && (transaction.Some? ==> r.url[..18] == "/api/transactions/" && r.url[18..] == transaction.value.id)
  {
  }

  /** The transaction the submitted values describe. What the API keeps of
      it is `TransactionSchema.Stored`. */
  function Described(id: string, data: FormData): Transaction {
    Transaction(id, data.amount, data.date, Some(data.category), data.description)
  }

  /** The submitted body is the body of the transaction the values
      describe. */
  lemma SubmitSendsRecord(transaction: Option<Transaction>, id: string, data: FormData)
    ensures Submit(transaction, data).body == TransactionSchema.Body(Described(id, data))
  {
  }

  /** The form accepts an amount of 0, and the API schema refuses the body it
      sends. */
  lemma ZeroAmountPassesFormOnly(v: FormValues, dateParses: string -> bool)
    requires Parse(v).Some? && v.amount == Number(0)
    ensures !TransactionSchema.Accepts(Submit(None, Parse(v).value).body, dateParses)
  {
  }

  /** A valid form's body is accepted by the API exactly when its amount is
      positive, its category not empty and `Date.parse` reads its date. */
  lemma SubmittedBodyAccepted(transaction: Option<Transaction>, v: FormValues, dateParses: string -> bool)
    requires Parse(v).Some?
    ensures (var data := Parse(v).value;
             TransactionSchema.Accepts(Submit(transaction, data).body, dateParses)
             <==> data.amount > 0 && data.category != "" && dateParses(IsoString(data.date)))
  {
    TransactionSchema.AcceptsIff(Submit(transaction, Parse(v).value).body, dateParses);
  }

  /** Editing a transaction with valid values and submitting unchanged sends
      the same body again. */
  lemma EditRoundTrip(id: string, data: FormData, now: DateTime)
    requires data.amount >= 0 && |data.description| >= 2
    ensures Parse(DefaultValues(Some(Described(id, data)), now)) == Some(data)
    ensures Submit(Some(Described(id, data)), data).body == Submit(None, data).body
  {
  }
}
