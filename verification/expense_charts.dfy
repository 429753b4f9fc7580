/**
 * The per-category chart of the expenses page: one slice per category name,
 * valued at the category's total and coloured from a ten-colour palette.
 * The totals live in a plain JavaScript object, so the order of the slices is
 * the order in which `Object.entries` lists an object's own keys: keys that
 * are array indices first, in ascending numeric order, then the other keys in
 * insertion order. `toFixed(2)` rounding is a parameter.
 */
module ExpenseCharts {
  import opened Wrappers
  import opened Js
  import opened Aggregates
  import opened ClientRecords
  import opened ObjectKeys

  const Colors: seq<string> := [
    "#0088FE", "#00C49F", "#FFBB28", "#FF8042", "#8884D8",
    "#82CA9D", "#FFC658", "#FF6B6B", "#4ECDC4", "#45B7D1"
  ]

  const NoExpensesMessage := "No expenses found to display charts"

  datatype ChartEntry = ChartEntry(name: string, value: real, color: string)

  /**
   * The property key `categoryTotals[expense.category_name]` uses: the name
   * itself, or "undefined" when the expense carries none.
   */
  function ChartKey(e: ClientExpense): string {
    match e.categoryName
    case Some(s) => s
    case None => "undefined"
  }

  /** The total the chart shows for one category, before rounding. */
  function CategoryTotal(expenses: seq<ClientExpense>, name: string): real {
    Sum(Filter(expenses, ChartKey, name), AmountOf)
  }

  /** The slice names: one per distinct category key, in `Object.entries` order. */
  function ChartNames(expenses: seq<ClientExpense>): (names: seq<string>)
    ensures Distinct(names)
    ensures forall e :: e in expenses ==> ChartKey(e) in names
    ensures forall n :: n in names ==> exists e :: e in expenses && ChartKey(e) == n
  {
    var ks := Keys(expenses, ChartKey);
    EntryOrderDistinct(ks);
    assert forall e :: e in expenses ==> ChartKey(e) in ks by {
      forall e | e in expenses
        ensures ChartKey(e) in ks
      {
        var i :| 0 <= i < |expenses| && expenses[i] == e;
      }
    }
    EntryOrder(ks)
  }

  /**
   * The `forEach` loop of `processChartData`: the object `categoryTotals`,
   * as its keys in insertion order and its key-to-total map.
   */
  method TallyCategories(expenses: seq<ClientExpense>) returns (added: seq<string>, totals: map<string, real>)
    ensures Tallied(expenses, added, totals)
  {
    added, totals := [], map[];
    for i := 0 to |expenses|
      invariant Tallied(expenses[..i], added, totals)
    {
      var name := ChartKey(expenses[i]);
      // A missing key and a running total of 0 are both falsy.
      var total := if name in totals && totals[name] != 0.0 then totals[name] + expenses[i].amount else expenses[i].amount;
      var grown := if name in totals then added else added + [name];
      TallyNext(expenses, i, added, totals, grown, total);
      added, totals := grown, totals[name := total];
    }
    assert expenses[..|expenses|] == expenses;
  }

  /**
   * `processChartData`: the tallied object's entries in `Object.entries`
   * order, each rounded and coloured by its position.
   */
  method ProcessChartData(expenses: seq<ClientExpense>, round2: real -> real) returns (entries: seq<ChartEntry>)
    ensures |entries| == |ChartNames(expenses)|
    ensures forall i :: 0 <= i < |entries| ==>
      var name := ChartNames(expenses)[i];
      entries[i] == ChartEntry(name, round2(CategoryTotal(expenses, name)), Colors[i % |Colors|])
  {
    var added, totals := TallyCategories(expenses);
    var names := EntryOrder(added);
    TalliedTotals(expenses, added, totals);
    entries := seq(|names|, i requires 0 <= i < |names| =>
      ChartEntry(names[i], round2(totals[names[i]]), Colors[i % |Colors|]));
  }

  /** After the expenses `seen`: the keys in insertion order and the running totals. */
  ghost predicate Tallied(seen: seq<ClientExpense>, added: seq<string>, totals: map<string, real>) {
    && added == Keys(seen, ChartKey)
    && (forall k :: k in totals <==> k in added)
    && (forall k :: k in totals ==> totals[k] == CategoryTotal(seen, k))
  }

  /** Once every expense is tallied, the object holds each slice's total. */
  lemma TalliedTotals(expenses: seq<ClientExpense>, added: seq<string>, totals: map<string, real>)
    requires Tallied(expenses, added, totals)
    ensures EntryOrder(added) == ChartNames(expenses)
    ensures forall n :: n in ChartNames(expenses) ==> n in totals && totals[n] == CategoryTotal(expenses, n)
  {
  }

  /** `TallyStep` at position `i` of the whole list. */
  lemma TallyNext(expenses: seq<ClientExpense>, i: nat, added: seq<string>, totals: map<string, real>,
                  added': seq<string>, total: real)
    requires i < |expenses| && Tallied(expenses[..i], added, totals)
    requires added' == if ChartKey(expenses[i]) in totals then added else added + [ChartKey(expenses[i])]
    requires total == (if ChartKey(expenses[i]) in totals then totals[ChartKey(expenses[i])] else 0.0) + expenses[i].amount
    ensures Tallied(expenses[..i + 1], added', totals[ChartKey(expenses[i]) := total])
  {
    TakeSnoc(expenses, i);
    TallyStep(expenses[..i], expenses[i], added, totals, total);
  }

  /** The loop body keeps `Tallied`, whichever branch of the truthiness test it takes. */
  lemma TallyStep(seen: seq<ClientExpense>, e: ClientExpense,
                  added: seq<string>, totals: map<string, real>, total: real)
    requires Tallied(seen, added, totals)
    requires total == (if ChartKey(e) in totals then totals[ChartKey(e)] else 0.0) + e.amount
    ensures Tallied(seen + [e], if ChartKey(e) in totals then added else added + [ChartKey(e)],
                    totals[ChartKey(e) := total])
  {
    var name := ChartKey(e);
    KeysSnoc(seen, e, ChartKey);
    if name !in totals {
      NoExpensesUnder(seen, name);
    }
    TallyValuesStep(seen, e, totals, total);
    TalliedOf(seen + [e], if name in totals then added else added + [name], totals[name := total]);
  }

  /** Every running total, the expense's own included, is still its key's total. */
  lemma TallyValuesStep(seen: seq<ClientExpense>, e: ClientExpense, totals: map<string, real>, total: real)
    requires forall k :: k in totals ==> totals[k] == CategoryTotal(seen, k)
    requires ChartKey(e) !in totals ==> CategoryTotal(seen, ChartKey(e)) == 0.0
    requires total == (if ChartKey(e) in totals then totals[ChartKey(e)] else 0.0) + e.amount
    ensures forall k :: k in totals[ChartKey(e) := total] ==>
      totals[ChartKey(e) := total][k] == CategoryTotal(seen + [e], k)
  {
    forall k | k in totals || k == ChartKey(e)
      ensures CategoryTotal(seen + [e], k) == CategoryTotal(seen, k) + (if k == ChartKey(e) then e.amount else 0.0)
    {
      ChartStep(seen, e, k);
    }
  }

  lemma TalliedOf(seen: seq<ClientExpense>, added: seq<string>, totals: map<string, real>)
    requires added == Keys(seen, ChartKey)
    requires forall k :: k in totals <==> k in added
    requires forall k :: k in totals ==> totals[k] == CategoryTotal(seen, k)
    ensures Tallied(seen, added, totals)
  {
  }

  /** A key that is not among the keys of `seen` has a total of 0. */
  lemma NoExpensesUnder(seen: seq<ClientExpense>, name: string)
    requires name !in Keys(seen, ChartKey)
    ensures CategoryTotal(seen, name) == 0.0
  {
    assert forall i :: 0 <= i < |seen| ==> ChartKey(seen[i]) != name;
    assert Filter(seen, ChartKey, name) == [];
  }

  /**
   * One step of the totals loop: the expense's amount lands on its own
   * category and no other; a running total of 0 is falsy, but replacing it by
   * the amount gives the same sum.
   */
  lemma ChartStep(seen: seq<ClientExpense>, e: ClientExpense, k: string)
    ensures CategoryTotal(seen + [e], k) == CategoryTotal(seen, k) + (if k == ChartKey(e) then e.amount else 0.0)
  {
    FilterSnoc(seen, e, ChartKey, k);
    if k == ChartKey(e) {
      SumSnoc(Filter(seen, ChartKey, k), e, AmountOf);
    } else {
      assert Filter(seen, ChartKey, k) + [] == Filter(seen, ChartKey, k);
    }
  }

  /** Before rounding, the slices add up to the total of all amounts. */
  lemma ChartTotalsAddUp(expenses: seq<ClientExpense>)
    ensures GroupSums(expenses, ChartKey, AmountOf, ChartNames(expenses)) == Sum(expenses, AmountOf)
  {
    var names := ChartNames(expenses);
    forall i | 0 <= i < |expenses|
      ensures ChartKey(expenses[i]) in names
    {
      assert expenses[i] in expenses;
    }
    PartitionSum(expenses, ChartKey, AmountOf, names);
  }

  /** There are no slices exactly when there are no expenses. */
  lemma NoSlicesIffNoExpenses(expenses: seq<ClientExpense>)
    ensures ChartNames(expenses) == [] <==> expenses == []
  {
    if expenses != [] {
      assert ChartKey(expenses[0]) in ChartNames(expenses);
    }
  }

  /** What the component renders once loaded. */
  datatype Screen = Spinner | NoExpensesPanel | Charts(entries: seq<ChartEntry>)

  function ChartScreen(loading: bool, chartData: seq<ChartEntry>): (s: Screen)
    ensures loading ==> s == Spinner
    ensures !loading ==> (s == NoExpensesPanel <==> chartData == [])
    ensures s.Charts? ==> s.entries == chartData
  {
    if loading then Spinner
    else if |chartData| == 0 then NoExpensesPanel
    else Charts(chartData)
  }

  datatype Dimensions = Dimensions(width: nat, height: nat)

  /** `updateChartDimensions`: the mobile size below 768 pixels of window width. */
  function ChartDimensions(innerWidth: int): (d: Dimensions)
    ensures innerWidth < 768 <==> d == Dimensions(350, 250)
    ensures innerWidth >= 768 <==> d == Dimensions(500, 300)
  {
    if innerWidth < 768 then Dimensions(350, 250) else Dimensions(500, 300)
  }
}
