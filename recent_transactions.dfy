/** The recent transactions card: the fetched array sorted in place, newest
    first, and its first `limit` elements. */
module RecentTransactions {
  import opened Js
  import opened Calendar
  import opened Records
  import opened Sorting

  const DefaultLimit: int := 5

  /** The sort key of `(a, b) => new Date(b.date).getTime() - new Date(a.date).getTime()`. */
  function DateKey(t: Transaction): int {
    Rank(t.date)
  }

  /** What the card lists. */
  function Recent(data: seq<Transaction>, limit: int): seq<Transaction> {
    Prefix(SortDesc(data, DateKey), limit)
  }

  /** `data.sort(…).slice(0, limit)`: sorts the fetched array itself, then
      copies its first `limit` elements. */
  method RecentTransactions(data: array<Transaction>, limit: int) returns (sortedData: seq<Transaction>)
    modifies data
    ensures data[..] == SortDesc(old(data[..]), DateKey)
    ensures sortedData == Recent(old(data[..]), limit)
  {
    SortDescending(data, DateKey);
    sortedData := Prefix(data[..], limit);
  }

  /** `min(limit, n)` transactions are listed, five by default. */
  lemma RecentLength(data: seq<Transaction>, limit: int)
    requires limit >= 0
    ensures |Recent(data, limit)| == if limit < |data| then limit else |data|
    ensures |Recent(data, DefaultLimit)| <= 5
  {
    SortLength(data, DateKey);
  }

  /** The listed transactions run from the newest to the oldest. */
  lemma NewestFirst(data: seq<Transaction>, limit: int)
    ensures forall i, j :: 0 <= i < j < |Recent(data, limit)| ==> !Before(Recent(data, limit)[i].date, Recent(data, limit)[j].date)
  {
    var s := SortDesc(data, DateKey);
    SortSorted(data, DateKey);
    forall i, j | 0 <= i < j < |Recent(data, limit)|
      ensures !Before(Recent(data, limit)[i].date, Recent(data, limit)[j].date)
    {
      RankOrder(s[i].date, s[j].date);
    }
  }

  /** After the sort the array holds the same transactions; the card lists
      some of them and leaves out the rest, each of which is no newer than
      any listed one. */
  lemma ListedAndLeftOut(data: seq<Transaction>, limit: int)
    ensures var s := SortDesc(data, DateKey);
            var r := Recent(data, limit);
            && multiset(s) == multiset(data)
            && multiset(r) + multiset(s[|r|..]) == multiset(data)
            && forall i, j :: 0 <= i < |r| <= j < |s| ==> !Before(r[i].date, s[j].date)
  {
    var s := SortDesc(data, DateKey);
    var r := Recent(data, limit);
    SortPermutes(data, DateKey);
    SortSorted(data, DateKey);
    assert s == r + s[|r|..];
    forall i, j | 0 <= i < |r| <= j < |s| ensures !Before(r[i].date, s[j].date) {
      RankOrder(s[i].date, s[j].date);
    }
  }

  /** Records with distinct ids are listed with distinct ids. */
  lemma ListedDistinct(data: seq<Transaction>, limit: int)
    requires forall i, j :: 0 <= i < j < |data| ==> data[i].id != data[j].id
    ensures forall i, j :: 0 <= i < j < |Recent(data, limit)| ==> Recent(data, limit)[i].id != Recent(data, limit)[j].id
  {
    assert DistinctBy(data, TransactionId);
    SortDistinct(data, DateKey, TransactionId);
  }

  function TransactionId(t: Transaction): string {
    t.id
  }

  /** `Array.from({ length: limit })`: the loading skeleton's rows. */
  function SkeletonRows(limit: int): seq<int> {
    seq(if limit > 0 then limit else 0, (i: int) => i)
  }

  /** The skeleton shows as many rows as the card may list. */
  lemma SkeletonMatchesLimit(data: seq<Transaction>, limit: int)
    requires limit >= 0
    ensures |SkeletonRows(limit)| == limit >= |Recent(data, limit)|
    ensures |SkeletonRows(DefaultLimit)| == 5
  {
    RecentLength(data, limit);
  }
}
