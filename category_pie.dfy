/** The category pie chart: the transactions with a non-zero amount, grouped
    by category with "Uncategorized" for an empty or missing one, one slice
    per group, coloured from a cycle of eight colours. */
module CategoryPie {
  import opened Js
  import opened Seqs
  import opened Records
  import opened Tally
  import opened Grouping

  /** `t => t.amount`: the filter keeps a transaction whose amount is truthy,
      that is, not 0. Income is kept as well as expenses. */
  function Truthy(): Transaction -> bool {
    (t: Transaction) => t.amount != 0
  }

  datatype Slice = Slice(name: string, value: int)

  /** `{ name: name.charAt(0).toUpperCase() + name.slice(1), value }`. */
  function ToSlice(entry: (string, int)): Slice {
    Slice(Capitalize(entry.0), entry.1)
  }

  function ChartData(categoryMap: Tally): seq<Slice> {
    Map(categoryMap.Entries(), ToSlice)
  }

  /** The grouping the chart shows. */
  function PieGroups(transactions: seq<Transaction>): Tally {
    GroupBy(transactions, Truthy(), GroupedCategory)
  }

  /** `fetchData` after the fetch: filter, group, and convert. */
  method FetchData(transactions: seq<Transaction>) returns (chartData: seq<Slice>)
    ensures chartData == ChartData(PieGroups(transactions))
  {
    var expenses := Filter(transactions, Truthy());
    var categoryMap := GroupByCategoryName(expenses);
    PairsOfFiltered(transactions, Truthy(), Every(), GroupedCategory);
    chartData := ChartData(categoryMap);
  }

  // ---------------------------------------------------------------------
  // Properties of the slices

  /** One slice per group: the group's key with its first letter
      capitalised, and the sum of the magnitudes of its non-zero
      transactions, which is positive. */
  lemma SlicesOfGroups(transactions: seq<Transaction>, i: int, inGroup: Transaction -> bool)
    requires 0 <= i < |PieGroups(transactions).keys|
    requires forall t :: inGroup(t) == (t.amount != 0 && GroupedCategory(t) == PieGroups(transactions).keys[i])
    ensures |ChartData(PieGroups(transactions))| == |PieGroups(transactions).keys|
    ensures ChartData(PieGroups(transactions))[i].name == Capitalize(PieGroups(transactions).keys[i])
    ensures ChartData(PieGroups(transactions))[i].value == SumAbs(Filter(transactions, inGroup)) > 0
  {
    var g := PieGroups(transactions);
    var k := g.keys[i];
    GroupByGet(transactions, Truthy(), GroupedCategory, k, inGroup);
    GroupByPositive(transactions, Truthy(), GroupedCategory);
    assert k in g.keys;
  }

  /** The groups are exactly the grouped categories of the non-zero
      transactions, each listed once. */
  lemma GroupsOfNonZero(transactions: seq<Transaction>)
    ensures PieGroups(transactions).Valid()
    ensures forall k :: k in PieGroups(transactions).keys
                    <==> exists i :: 0 <= i < |transactions| && transactions[i].amount != 0
                                     && GroupedCategory(transactions[i]) == k
  {
    GroupByKeys(transactions, Truthy(), GroupedCategory);
  }

  /** A non-zero transaction without a category shows up in the
      "Uncategorized" slice. */
  lemma UncategorizedSlice(transactions: seq<Transaction>, i: int)
    requires 0 <= i < |transactions| && transactions[i].amount != 0
    requires transactions[i].category == None || transactions[i].category == Some("")
    ensures exists j :: 0 <= j < |ChartData(PieGroups(transactions))|
                        && ChartData(PieGroups(transactions))[j].name == Uncategorized
  {
    GroupsOfNonZero(transactions);
    var g := PieGroups(transactions);
    assert Uncategorized in g.keys;
    var j :| 0 <= j < |g.keys| && g.keys[j] == Uncategorized;
    assert Capitalize(Uncategorized) == Uncategorized;
    assert ChartData(g)[j].name == Uncategorized;
  }

  /** The empty-state message shows exactly when every amount is 0. */
  lemma EmptyChartIff(transactions: seq<Transaction>)
    ensures ChartData(PieGroups(transactions)) == [] <==> forall i :: 0 <= i < |transactions| ==> transactions[i].amount == 0
  {
    GroupsOfNonZero(transactions);
    var g := PieGroups(transactions);
    if g.keys != [] {
      assert g.keys[0] in g.keys;
    }
    if exists i :: 0 <= i < |transactions| && transactions[i].amount != 0 {
      var i :| 0 <= i < |transactions| && transactions[i].amount != 0;
      assert GroupedCategory(transactions[i]) in g.keys;
    }
  }

  function ValueOf(s: Slice): int {
    s.value
  }

  /** The slices together hold the magnitudes of all transactions: the
      dropped ones are exactly those of magnitude 0. */
  lemma SlicesCoverAll(transactions: seq<Transaction>)
    ensures Sum(Map(ChartData(PieGroups(transactions)), ValueOf)) == SumAbs(transactions)
  {
    var g := PieGroups(transactions);
    assert Map(ChartData(g), ValueOf) == g.Values();
    GroupBySum(transactions, Truthy(), GroupedCategory);
    SumAbsSplit(transactions, Truthy());
    var dropped := Filter(transactions, (t: Transaction) => !Truthy()(t));
    SumAbsZero(dropped);
  }

  /** Two distinct categories stay two groups, in the order they occur,
      even when capitalising makes their names equal. */
  lemma TwoCategoriesTwoSlices(a: Transaction, b: Transaction, ka: string, kb: string)
    requires a.amount != 0 && b.amount != 0
    requires ka != "" && kb != "" && ka != kb
    requires a.category == Some(ka) && b.category == Some(kb)
    ensures ChartData(PieGroups([a, b])) == [Slice(Capitalize(ka), Abs(a.amount)), Slice(Capitalize(kb), Abs(b.amount))]
  {
    assert [a, b][..1] == [a];
    assert [a][..0] == [];
    var p1: (string, int) := (ka, Abs(a.amount));
    var p2: (string, int) := (kb, Abs(b.amount));
    assert Pairs([a], Truthy(), GroupedCategory) == [p1];
    var pairs := Pairs([a, b], Truthy(), GroupedCategory);
    assert pairs == [p1, p2];
    assert pairs[..1] == [p1];
    var one: seq<(string, int)> := [p1];
    assert one[..0] == [];
    var g1 := Empty.Add(ka, Abs(a.amount));
    assert Group([p1]) == g1;
    var g := g1.Add(kb, Abs(b.amount));
    assert Group(pairs) == g;
    assert g.keys == [ka, kb];
    assert g.Entries() == [p1, p2];
  }

  /** "food" and "Food" are two groups whose slices are both named "Food". */
  lemma CaseVariantsShareName(a: Transaction, b: Transaction)
    requires a.amount != 0 && b.amount != 0
    requires a.category == Some("food") && b.category == Some("Food")
    ensures ChartData(PieGroups([a, b])) == [Slice("Food", Abs(a.amount)), Slice("Food", Abs(b.amount))]
  {
    assert "food" != "Food" by {
      assert "food"[0] != "Food"[0];
    }
    TwoCategoriesTwoSlices(a, b, "food", "Food");
    assert Capitalize("food") == "Food";
    assert Capitalize("Food") == "Food";
  }

  // ---------------------------------------------------------------------
  // Colours

  const Colors: seq<string> := ["#0088FE", "#00C49F", "#FFBB28", "#FF8042", "#8884D8", "#82CA9D", "#A4DE6C", "#D0ED57"]

  /** `index % COLORS.length`. */
  function ColorIndex(index: nat): nat {
    index % |Colors|
  }

  /** The colour index stays within the eight colours, repeats every eight
      slices, and the first eight slices get eight different colours. */
  lemma ColorCycle(index: nat)
    ensures 0 <= ColorIndex(index) < 8
    ensures ColorIndex(index + 8) == ColorIndex(index)
    ensures index < 8 ==> ColorIndex(index) == index
  {
  }

  lemma ColorsDistinct()
    ensures forall i, j :: 0 <= i < j < 8 ==> Colors[ColorIndex(i)] != Colors[ColorIndex(j)]
  {
  }
}
