/** The transactions table: each amount shown as a magnitude marked expense
    or income by its sign, and the removal of a deleted transaction. */
module TransactionsList {
  import opened Js
  import opened Records
  import opened Deletion
  import TransactionSchema

  datatype Kind = Expense | Income

  /** `transaction.amount < 0 ? "expense" : "income"`. */
  function KindOf(t: Transaction): (k: Kind)
    ensures k == Expense <==> IsExpense(t)
  {
    if t.amount < 0 then Expense else Income
  }

  /** `Math.abs(transaction.amount)`: the amount as displayed. */
  function Displayed(t: Transaction): nat {
    Abs(t.amount)
  }

  /** The displayed magnitude and the kind together give back the signed
      amount; an amount of 0 is shown as income. */
  lemma DisplayRecoversAmount(t: Transaction)
    ensures (if KindOf(t) == Expense then 0 - Displayed(t) as int else Displayed(t) as int) == t.amount
    ensures t.amount == 0 ==> KindOf(t) == Income
  {
  }

  /** Every transaction the API accepted is shown as income. */
  lemma AcceptedShownAsIncome(t: Transaction, dateParses: string -> bool)
    requires TransactionSchema.Accepts(TransactionSchema.Body(t), dateParses)
    ensures KindOf(t) == Income && Displayed(t) == t.amount
  {
    TransactionSchema.AcceptedIsIncome(t, dateParses);
  }

  function TransactionId(t: Transaction): string {
    t.id
  }

  /** The component's state: the fetched transactions. */
  class TransactionsListState {
    var transactions: seq<Transaction>

    constructor(transactions: seq<Transaction>)
      ensures this.transactions == transactions
    {
      this.transactions := transactions;
    }

    /** `handleDelete(id)` once the DELETE request has answered. The handler
        filters `captured`, the `transactions` it closed over when it was
        rendered, not the list current at the answer: when the response is ok
        the list becomes `captured` without that id, otherwise the error is
        thrown before the list is touched. */
    method HandleDelete(captured: seq<Transaction>, id: string, responseOk: bool)
      modifies this
      ensures responseOk ==> transactions == Without(captured, TransactionId, id)
      ensures !responseOk ==> transactions == old(transactions)
    {
      if !responseOk {
        return;
      }
      transactions := Without(captured, TransactionId, id);
    }

    /** `transactions.length === 0`: the empty-state message instead of the
        table. */
    predicate ShowsEmptyState()
      reads this
    {
      transactions == []
    }
  }
}
