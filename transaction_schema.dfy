/** `transactionSchema`: the check a transaction body must pass. */
module TransactionSchema {
  import opened Js
  import opened Calendar
  import opened Zod
  import opened Records

  datatype TransactionInput = TransactionInput(amount: Value, date: Value, category: Value, description: Value)

  /** `transactionSchema.safeParse(input)`, with `Date.parse` as the
      parameter `dateParses`. */
  function Issues(input: TransactionInput, dateParses: string -> bool): seq<Issue> {
    PositiveIssues("amount", input.amount)
    + RefinedStringIssues("date", input.date, dateParses)
    + StringIssues("category", input.category, 1)
    + StringIssues("description", input.description, 1)
  }

  predicate Accepts(input: TransactionInput, dateParses: string -> bool) {
    Issues(input, dateParses) == []
  }

  /** A body is accepted exactly when the amount is positive, the date a
      string `Date.parse` reads, and category and description non-empty
      strings. */
  lemma AcceptsIff(input: TransactionInput, dateParses: string -> bool)
    ensures Accepts(input, dateParses)
        <==> && input.amount.Number? && input.amount.n > 0
             && input.date.Str? && dateParses(input.date.s)
             && input.category.Str? && input.category.s != ""
             && input.description.Str? && input.description.s != ""
  {
  }

  /** The body that describes a transaction. */
  function Body(t: Transaction): TransactionInput {
    TransactionInput(
      Number(t.amount),
      Str(IsoString(t.date)),
      match t.category case Some(c) => Str(c) case None => Missing,
      Str(t.description))
  }

  /** A transaction whose body the schema accepts has a positive amount and a
      non-empty category in that body, so none of the `amount < 0` filters counts it as an
      expense. */
  lemma AcceptedIsIncome(t: Transaction, dateParses: string -> bool)
    requires Accepts(Body(t), dateParses)
    ensures t.amount > 0 && !IsExpense(t)
    ensures t.category.Some? && t.category.value != ""
  {
    AcceptsIff(Body(t), dateParses);
  }

  /** A list of accepted transactions holds no expense. */
  lemma AcceptedAllIncome(txs: seq<Transaction>, dateParses: string -> bool)
    requires forall k :: 0 <= k < |txs| ==> Accepts(Body(txs[k]), dateParses)
    ensures forall k :: 0 <= k < |txs| ==> txs[k].amount > 0
  {
    forall k | 0 <= k < |txs| ensures txs[k].amount > 0 {
      AcceptedIsIncome(txs[k], dateParses);
    }
  }

  /** What the API keeps of a transaction it accepted: the transaction model
      declares an amount, a date and a description but no category, so the
      category is dropped. */
  function Stored(t: Transaction): (r: Transaction)
    ensures r.category == None
    ensures r.id == t.id && r.amount == t.amount && r.date == t.date && r.description == t.description
  {
    t.(category := None)
  }

  /** A record fetched back after the schema accepted it has a positive
      amount but no category, and its own body would now be refused. */
  lemma StoredIsIncome(t: Transaction, dateParses: string -> bool)
    requires Accepts(Body(t), dateParses)
    ensures Stored(t).amount > 0 && !IsExpense(Stored(t))
    ensures Stored(t).category == None && !Accepts(Body(Stored(t)), dateParses)
  {
    AcceptedIsIncome(t, dateParses);
    AcceptsIff(Body(Stored(t)), dateParses);
  }
}
