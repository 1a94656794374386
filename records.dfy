/** The two records every component reads, as the API returns them, and the
    folds over them that several components share. */
module Records {
  import opened Js
  import opened Calendar
  import opened Seqs

  /** A transaction: a signed amount in cents (negative for an expense), its
      instant, and a category that a stored record may lack. */
  datatype Transaction = Transaction(
    id: string,
    amount: int,
    date: DateTime,
    category: Option<string>,
    description: string)

  /** A budget: a cap in cents for one category in one month. The month is
      whatever string was stored; the budget form stores `yyyy-MM`. */
  datatype Budget = Budget(id: string, category: string, amount: int, month: string)

  /** `txs.reduce((sum, t) => sum + Math.abs(t.amount), 0)`. */
  function SumAbs(txs: seq<Transaction>): (r: nat)
    decreases |txs|
  {
    if txs == [] then 0 else SumAbs(txs[..|txs| - 1]) + Abs(txs[|txs| - 1].amount)
  }

  lemma {:induction false} SumAbsConcat(a: seq<Transaction>, b: seq<Transaction>)
    ensures SumAbs(a + b) == SumAbs(a) + SumAbs(b)
    decreases |b|
  {
    if b == [] {
      assert a + b == a;
    } else {
      assert (a + b)[..|a + b| - 1] == a + b[..|b| - 1];
      SumAbsConcat(a, b[..|b| - 1]);
    }
  }

  /** A filter splits the sum of magnitudes into what it keeps and what it
      drops. */
  lemma {:induction false} SumAbsSplit(s: seq<Transaction>, p: Transaction -> bool)
    ensures SumAbs(Filter(s, p)) + SumAbs(Filter(s, t => !p(t))) == SumAbs(s)
    decreases |s|
  {
    if s != [] {
      var s', t := s[..|s| - 1], s[|s| - 1];
      SumAbsSplit(s', p);
      SumAbsConcat(Filter(s', p), if p(t) then [t] else []);
      SumAbsConcat(Filter(s', u => !p(u)), if !p(t) then [t] else []);
    }
  }

  lemma SumAbsFilterBound(s: seq<Transaction>, p: Transaction -> bool)
    ensures SumAbs(Filter(s, p)) <= SumAbs(s)
  {
    SumAbsSplit(s, p);
  }

  /** Two filters that never keep the same transaction add up to the filter
      by their union. */
  lemma {:induction false} SumAbsUnion(s: seq<Transaction>, p: Transaction -> bool, q: Transaction -> bool,
                                       r: Transaction -> bool)
    requires forall t :: !(p(t) && q(t))
    requires forall t :: r(t) == (p(t) || q(t))
    ensures SumAbs(Filter(s, p)) + SumAbs(Filter(s, q)) == SumAbs(Filter(s, r))
    decreases |s|
  {
    if s != [] {
      var s', t := s[..|s| - 1], s[|s| - 1];
      SumAbsUnion(s', p, q, r);
      SumAbsConcat(Filter(s', p), if p(t) then [t] else []);
      SumAbsConcat(Filter(s', q), if q(t) then [t] else []);
      SumAbsConcat(Filter(s', r), if r(t) then [t] else []);
    }
  }

  /** The sum of magnitudes is zero exactly when every amount is zero. */
  lemma {:induction false} SumAbsZero(s: seq<Transaction>)
    ensures SumAbs(s) == 0 <==> forall i :: 0 <= i < |s| ==> s[i].amount == 0
    decreases |s|
  {
    if s != [] {
      SumAbsZero(s[..|s| - 1]);
      assert forall i :: 0 <= i < |s| - 1 ==> s[..|s| - 1][i] == s[i];
    }
  }

  /** The key that `acc[t.category]` writes: JavaScript coerces a missing
      category to the key "undefined". */
  function PropertyKey(c: Option<string>): string {
    match c
    case Some(s) => s
    case None => "undefined"
  }

  const Uncategorized: string := "Uncategorized"

  /** `t.category || "Uncategorized"`: an empty or missing category is grouped
      under "Uncategorized". */
  function GroupName(c: Option<string>): (r: string)
    ensures r != ""
    ensures c.Some? && c.value != "" ==> r == c.value
    ensures c == None || c == Some("") ==> r == Uncategorized
  {
    match c
    case Some(s) => if s == "" then Uncategorized else s
    case None => Uncategorized
  }

  /** `acc[t.category]`: the key a transaction is grouped under where the
      category is used as it is. */
  function CategoryKey(t: Transaction): string {
    PropertyKey(t.category)
  }

  /** `t.category || "Uncategorized"`, for a transaction. */
  function GroupedCategory(t: Transaction): string {
    GroupName(t.category)
  }

  /** `t.amount < 0`: the test by which the components tell an expense from
      income. */
  predicate IsExpense(t: Transaction) {
    t.amount < 0
  }
}
