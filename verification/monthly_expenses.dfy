/**
 * The monthly view of the expense list (MonthlyExpensesList.jsx): grouping
 * by year-month with per-month totals, counts and category labels, newest
 * month first, and the month-over-month trend with its caption.
 */
module MonthlyExpenses {
  import opened Wrappers
  import opened Js
  import opened Aggregates
  import opened ClientRecords

  /** One entry of `groupExpensesByMonth`'s result (the display name is left out). */
  datatype MonthGroup = MonthGroup(
    key: MonthKey,
    expenses: seq<ClientExpense>,
    totalAmount: real,
    expenseCount: nat,
    categories: seq<Option<string>>)

  /** The body of the `forEach`: push the expense, add its amount, count it, add its label to the Set. */
  function AddTo(g: MonthGroup, e: ClientExpense): MonthGroup {
    MonthGroup(
      g.key,
      g.expenses + [e],
      g.totalAmount + e.amount,
      g.expenseCount + 1,
      if Label(e) in g.categories then g.categories else g.categories + [Label(e)])
  }

  /** The group for month `k` after filing the expenses `xs` one by one. */
  function GroupOf(xs: seq<ClientExpense>, k: MonthKey): (g: MonthGroup)
    ensures g.key == k
  {
    if xs == [] then MonthGroup(k, [], 0.0, 0, [])
    else
      var g := GroupOf(xs[..|xs| - 1], k);
      var e := xs[|xs| - 1];
      if MonthOf(e) == k then AddTo(g, e) else g
  }

  /**
   * What the group for month `k` holds: the expenses of that month in input
   * order, the sum of their amounts, their number and their distinct labels
   * in first-seen order (a JavaScript Set keeps insertion order).
   */
  lemma GroupOfContents(xs: seq<ClientExpense>, k: MonthKey)
    ensures var members := Filter(xs, MonthOf, k);
      GroupOf(xs, k) == MonthGroup(k, members, Sum(members, AmountOf), |members|, Keys(members, Label))
  {
    GroupMembers(xs, k);
    GroupTallies(xs, k);
  }

  /** The group for month `k` lists exactly that month's expenses, in input order. */
  lemma {:induction false} GroupMembers(xs: seq<ClientExpense>, k: MonthKey)
    ensures GroupOf(xs, k).expenses == Filter(xs, MonthOf, k)
  {
    if xs != [] {
      var init, e := xs[..|xs| - 1], xs[|xs| - 1];
      assert xs == init + [e];
      GroupMembers(init, k);
      FilterSnoc(init, e, MonthOf, k);
    }
  }

  /** The running total, count and label set always describe the group's own expenses. */
  lemma {:induction false} GroupTallies(xs: seq<ClientExpense>, k: MonthKey)
    ensures var g := GroupOf(xs, k);
      && g.totalAmount == Sum(g.expenses, AmountOf)
      && g.expenseCount == |g.expenses|
      && g.categories == Keys(g.expenses, Label)
  {
    if xs != [] {
      var init, e := xs[..|xs| - 1], xs[|xs| - 1];
      GroupTallies(init, k);
      if MonthOf(e) == k {
        var g := GroupOf(init, k);
        SumSnoc(g.expenses, e, AmountOf);
        KeysSnoc(g.expenses, e, Label);
      }
    }
  }

  /** Strictly newest first. */
  predicate NewestFirst(gs: seq<MonthGroup>) {
    forall i, j :: 0 <= i < j < |gs| ==> Later(gs[i].key, gs[j].key)
  }

  /** Filing one more expense changes only its own month's group, exactly as the loop body does. */
  lemma GroupOfSnoc(xs: seq<ClientExpense>, e: ClientExpense, k: MonthKey)
    ensures GroupOf(xs + [e], k) == if MonthOf(e) == k then AddTo(GroupOf(xs, k), e) else GroupOf(xs, k)
  {
    assert (xs + [e])[..|xs|] == xs;
  }

  /** A month no expense of `xs` falls in has the empty group. */
  lemma {:induction false} EmptyGroup(xs: seq<ClientExpense>, k: MonthKey)
    requires forall i :: 0 <= i < |xs| ==> MonthOf(xs[i]) != k
    ensures GroupOf(xs, k) == MonthGroup(k, [], 0.0, 0, [])
  {
    if xs != [] {
      EmptyGroup(xs[..|xs| - 1], k);
    }
  }

  /** `grouped` holds, in first-seen order, the group of every month of `seen`. */
  predicate Filed(grouped: seq<MonthGroup>, seen: seq<ClientExpense>) {
    && |grouped| == |Keys(seen, MonthOf)|
    && forall m :: 0 <= m < |grouped| ==> grouped[m] == GroupOf(seen, Keys(seen, MonthOf)[m])
  }

  /** File `e` under the group at `j`, opening a new group at the end when `j` is past it. */
  function FileAt(grouped: seq<MonthGroup>, e: ClientExpense, j: nat): seq<MonthGroup>
    requires j <= |grouped|
  {
    var grown := if j == |grouped| then grouped + [MonthGroup(MonthOf(e), [], 0.0, 0, [])] else grouped;
    grown[j := AddTo(grown[j], e)]
  }

  /** `FileOne` at position `i` of the whole list. */
  lemma FileNext(grouped: seq<MonthGroup>, expenses: seq<ClientExpense>, i: nat, j: nat)
    requires i < |expenses| && Filed(grouped, expenses[..i])
    requires j <= |grouped|
    requires j < |grouped| ==> grouped[j].key == MonthOf(expenses[i])
    requires j == |grouped| ==> forall k :: 0 <= k < |grouped| ==> grouped[k].key != MonthOf(expenses[i])
    ensures Filed(FileAt(grouped, expenses[i], j), expenses[..i + 1])
  {
    TakeSnoc(expenses, i);
    FileOne(grouped, expenses[..i], expenses[i], j);
  }

  /** One step of the grouping loop keeps `Filed`. */
  lemma FileOne(grouped: seq<MonthGroup>, seen: seq<ClientExpense>, e: ClientExpense, j: nat)
    requires Filed(grouped, seen)
    requires j <= |grouped|
    requires j < |grouped| ==> grouped[j].key == MonthOf(e)
    requires j == |grouped| ==> forall i :: 0 <= i < |grouped| ==> grouped[i].key != MonthOf(e)
    ensures Filed(FileAt(grouped, e, j), seen + [e])
  {
    var k := MonthOf(e);
    var ks := Keys(seen, MonthOf);
    KeysSnoc(seen, e, MonthOf);
    var ks' := Keys(seen + [e], MonthOf);
    var grown := if j == |grouped| then grouped + [MonthGroup(k, [], 0.0, 0, [])] else grouped;
    if j == |grouped| {
      assert forall q :: 0 <= q < |ks| ==> ks[q] == grouped[q].key;
      assert k !in ks;
      assert forall i :: 0 <= i < |seen| ==> MonthOf(seen[i]) in ks;
      EmptyGroup(seen, k);
    }
    assert ks'[j] == k;
    var r := grown[j := AddTo(grown[j], e)];
    forall m | 0 <= m < |r| ensures r[m] == GroupOf(seen + [e], ks'[m]) {
      GroupOfSnoc(seen, e, ks'[m]);
      if m != j {
        assert ks'[m] == ks[m];
      }
    }
  }

  /** The position of the group with key `k`, or |gs| when there is none. */
  method FindGroup(gs: seq<MonthGroup>, k: MonthKey) returns (j: nat)
    ensures j <= |gs|
    ensures j < |gs| ==> gs[j].key == k
    ensures j == |gs| ==> forall i :: 0 <= i < |gs| ==> gs[i].key != k
  {
    j := 0;
    while j < |gs| && gs[j].key != k
      invariant j <= |gs|
      invariant forall i :: 0 <= i < j ==> gs[i].key != k
    {
      j := j + 1;
    }
  }

  /**
   * `groupExpensesByMonth(expenses)`: exactly one group per month that
   * occurs, each holding what `GroupOf` says, newest month first.
   */
  method GroupExpensesByMonth(expenses: seq<ClientExpense>) returns (groups: seq<MonthGroup>)
    ensures |groups| == |Keys(expenses, MonthOf)|
    ensures forall i :: 0 <= i < |groups| ==>
      groups[i].key in Keys(expenses, MonthOf) && groups[i] == GroupOf(expenses, groups[i].key)
    ensures forall e :: e in expenses ==> exists i :: 0 <= i < |groups| && groups[i].key == MonthOf(e)
    ensures NewestFirst(groups)
    ensures forall i :: 0 <= i < |groups| ==>
      var members := Filter(expenses, MonthOf, groups[i].key);
      && groups[i].expenses == members && groups[i].totalAmount == Sum(members, AmountOf)
      && groups[i].expenseCount == |members| && groups[i].categories == Keys(members, Label)
    ensures TotalCount(groups) == |expenses| && TotalAmount(groups) == Sum(expenses, AmountOf)
  {
    var grouped: seq<MonthGroup> := [];
    for i := 0 to |expenses|
      invariant Filed(grouped, expenses[..i])
    {
      var e := expenses[i];
      var j := FindGroup(grouped, MonthOf(e));
      FileNext(grouped, expenses, i, j);
      grouped := FileAt(grouped, e, j);
    }
    assert expenses[..|expenses|] == expenses;
    groups := SortNewestFirst(grouped);
    Outcome(grouped, expenses, groups);
  }

  /** Sorting the filed groups gives every promised property of the result. */
  lemma Outcome(grouped: seq<MonthGroup>, expenses: seq<ClientExpense>, groups: seq<MonthGroup>)
    requires Filed(grouped, expenses)
    requires groups == SortNewestFirst(grouped)
    ensures |groups| == |Keys(expenses, MonthOf)|
    ensures forall i :: 0 <= i < |groups| ==>
      groups[i].key in Keys(expenses, MonthOf) && groups[i] == GroupOf(expenses, groups[i].key)
    ensures forall e :: e in expenses ==> exists i :: 0 <= i < |groups| && groups[i].key == MonthOf(e)
    ensures NewestFirst(groups)
    ensures forall i :: 0 <= i < |groups| ==>
      var members := Filter(expenses, MonthOf, groups[i].key);
      && groups[i].expenses == members && groups[i].totalAmount == Sum(members, AmountOf)
      && groups[i].expenseCount == |members| && groups[i].categories == Keys(members, Label)
    ensures TotalCount(groups) == |expenses| && TotalAmount(groups) == Sum(expenses, AmountOf)
  {
    Arranged(grouped, expenses, groups);
    ContentsOfGroups(expenses, groups);
    GroupsAddUp(grouped, expenses);
    SortKeepsTotals(grouped);
  }

  /** The number of expenses over all groups. */
  function TotalCount(gs: seq<MonthGroup>): int {
    if gs == [] then 0 else gs[0].expenseCount + TotalCount(gs[1..])
  }

  /** The amount over all groups. */
  function TotalAmount(gs: seq<MonthGroup>): real {
    if gs == [] then 0.0 else gs[0].totalAmount + TotalAmount(gs[1..])
  }

  lemma {:induction false} TotalsSnoc(gs: seq<MonthGroup>, g: MonthGroup)
    ensures TotalCount(gs + [g]) == TotalCount(gs) + g.expenseCount
    ensures TotalAmount(gs + [g]) == TotalAmount(gs) + g.totalAmount
  {
    if gs != [] {
      assert (gs + [g])[1..] == gs[1..] + [g];
      TotalsSnoc(gs[1..], g);
    }
  }

  lemma {:induction false} InsertKeepsTotals(g: MonthGroup, s: seq<MonthGroup>)
    ensures TotalCount(Insert(g, s)) == TotalCount(s) + g.expenseCount
    ensures TotalAmount(Insert(g, s)) == TotalAmount(s) + g.totalAmount
  {
    if s != [] && Later(s[0].key, g.key) {
      InsertKeepsTotals(g, s[1..]);
    }
  }

  /** Sorting neither loses nor duplicates a group. */
  lemma {:induction false} SortKeepsTotals(gs: seq<MonthGroup>)
    ensures TotalCount(SortNewestFirst(gs)) == TotalCount(gs)
    ensures TotalAmount(SortNewestFirst(gs)) == TotalAmount(gs)
  {
    if gs != [] {
      var init, g := gs[..|gs| - 1], gs[|gs| - 1];
      assert gs == init + [g];
      SortKeepsTotals(init);
      InsertKeepsTotals(g, SortNewestFirst(init));
      TotalsSnoc(init, g);
    }
  }

  /**
   * The groups partition the expenses: their counts add up to the number of
   * expenses and their totals to the sum of all amounts.
   */
  lemma GroupsAddUp(grouped: seq<MonthGroup>, expenses: seq<ClientExpense>)
    requires Filed(grouped, expenses)
    ensures TotalCount(grouped) == |expenses|
    ensures TotalAmount(grouped) == Sum(expenses, AmountOf)
  {
    var ks := Keys(expenses, MonthOf);
    forall m | 0 <= m < |grouped|
      ensures grouped[m].expenseCount == |Filter(expenses, MonthOf, ks[m])|
      ensures grouped[m].totalAmount == Sum(Filter(expenses, MonthOf, ks[m]), AmountOf)
    {
      GroupOfContents(expenses, ks[m]);
    }
    CountsAddUp(grouped, expenses, ks);
    AmountsAddUp(grouped, expenses, ks);
    PartitionCount(expenses, MonthOf, ks);
    PartitionSum(expenses, MonthOf, AmountOf, ks);
  }

  /** Group by group, the counts add up to the per-key counts over `ks`. */
  lemma {:induction false} CountsAddUp(gs: seq<MonthGroup>, expenses: seq<ClientExpense>, ks: seq<MonthKey>)
    requires |ks| == |gs|
    requires forall m :: 0 <= m < |gs| ==> gs[m].expenseCount == |Filter(expenses, MonthOf, ks[m])|
    ensures TotalCount(gs) == GroupCounts(expenses, MonthOf, ks)
  {
    if gs != [] {
      var init, last := gs[..|gs| - 1], gs[|gs| - 1];
      assert gs == init + [last];
      CountsAddUp(init, expenses, ks[..|ks| - 1]);
      TotalsSnoc(init, last);
    }
  }

  /** Group by group, the totals add up to the per-key sums over `ks`. */
  lemma {:induction false} AmountsAddUp(gs: seq<MonthGroup>, expenses: seq<ClientExpense>, ks: seq<MonthKey>)
    requires |ks| == |gs|
    requires forall m :: 0 <= m < |gs| ==> gs[m].totalAmount == Sum(Filter(expenses, MonthOf, ks[m]), AmountOf)
    ensures TotalAmount(gs) == GroupSums(expenses, MonthOf, AmountOf, ks)
  {
    if gs != [] {
      var init, last := gs[..|gs| - 1], gs[|gs| - 1];
      assert gs == init + [last];
      AmountsAddUp(init, expenses, ks[..|ks| - 1]);
      TotalsSnoc(init, last);
    }
  }

  lemma ContentsOfGroups(expenses: seq<ClientExpense>, groups: seq<MonthGroup>)
    requires forall i :: 0 <= i < |groups| ==> groups[i] == GroupOf(expenses, groups[i].key)
    ensures forall i :: 0 <= i < |groups| ==>
      var members := Filter(expenses, MonthOf, groups[i].key);
      && groups[i].expenses == members && groups[i].totalAmount == Sum(members, AmountOf)
      && groups[i].expenseCount == |members| && groups[i].categories == Keys(members, Label)
  {
    forall i | 0 <= i < |groups| ensures
      var members := Filter(expenses, MonthOf, groups[i].key);
      && groups[i].expenses == members && groups[i].totalAmount == Sum(members, AmountOf)
      && groups[i].expenseCount == |members| && groups[i].categories == Keys(members, Label)
    {
      GroupOfContents(expenses, groups[i].key);
    }
  }

  /** Sorting the filed groups gives the promised result. */
  lemma Arranged(grouped: seq<MonthGroup>, expenses: seq<ClientExpense>, groups: seq<MonthGroup>)
    requires Filed(grouped, expenses)
    requires groups == SortNewestFirst(grouped)
    ensures |groups| == |Keys(expenses, MonthOf)|
    ensures forall i :: 0 <= i < |groups| ==>
      groups[i].key in Keys(expenses, MonthOf) && groups[i] == GroupOf(expenses, groups[i].key)
    ensures forall e :: e in expenses ==> exists i :: 0 <= i < |groups| && groups[i].key == MonthOf(e)
    ensures NewestFirst(groups)
  {
    var ks := Keys(expenses, MonthOf);
    assert forall j :: 0 <= j < |grouped| ==> grouped[j].key == ks[j];
    forall i | 0 <= i < |groups|
      ensures groups[i].key in ks && groups[i] == GroupOf(expenses, groups[i].key)
    {
      assert groups[i] in multiset(grouped);
    }
    forall e | e in expenses
      ensures exists i :: 0 <= i < |groups| && groups[i].key == MonthOf(e)
    {
      var q :| 0 <= q < |ks| && ks[q] == MonthOf(e);
      assert grouped[q] in multiset(groups);
    }
    SortKeepsOrder(grouped);
  }

  /** Insert `g` into a newest-first sequence, before the first older month. */
  function Insert(g: MonthGroup, s: seq<MonthGroup>): (r: seq<MonthGroup>)
    ensures multiset(r) == multiset(s) + multiset{g}
    ensures |r| == |s| + 1
  {
    if s == [] then [g]
    else if !Later(s[0].key, g.key) then [g] + s
    else
      assert s == [s[0]] + s[1..];
      [s[0]] + Insert(g, s[1..])
  }

  /** `Array.prototype.sort` with the newest-first comparator (the keys are distinct, so the order is total). */
  function SortNewestFirst(gs: seq<MonthGroup>): (r: seq<MonthGroup>)
    ensures multiset(r) == multiset(gs)
    ensures |r| == |gs|
  {
    if gs == [] then []
    else
      assert gs == gs[..|gs| - 1] + [gs[|gs| - 1]];
      Insert(gs[|gs| - 1], SortNewestFirst(gs[..|gs| - 1]))
  }

  lemma {:induction false} InsertKeepsOrder(g: MonthGroup, s: seq<MonthGroup>)
    requires NewestFirst(s)
    requires forall i :: 0 <= i < |s| ==> s[i].key != g.key
    ensures NewestFirst(Insert(g, s))
  {
    if s != [] && Later(s[0].key, g.key) {
      assert NewestFirst(s[1..]);
      InsertKeepsOrder(g, s[1..]);
      var tail := Insert(g, s[1..]);
      forall x | x in tail ensures Later(s[0].key, x.key) {
        assert x in multiset(tail);
        assert x in multiset(s[1..]) + multiset{g};
      }
    }
  }

  lemma {:induction false} SortKeepsOrder(gs: seq<MonthGroup>)
    requires forall i, j :: 0 <= i < j < |gs| ==> gs[i].key != gs[j].key
    ensures NewestFirst(SortNewestFirst(gs))
  {
    if gs != [] {
      var init := gs[..|gs| - 1];
      SortKeepsOrder(init);
      var sorted := SortNewestFirst(init);
      forall i | 0 <= i < |sorted| ensures sorted[i].key != gs[|gs| - 1].key {
        assert sorted[i] in multiset(init);
      }
      InsertKeepsOrder(gs[|gs| - 1], sorted);
    }
  }

  /** The direction of a month's spending against the month before it. */
  datatype Trend = Increase | Decrease | Neutral

  /** `n < x` for a finite right operand: NaN compares false. */
  predicate Below(n: Number, x: real) {
    match n
    case NaN => false
    case PosInf => false
    case NegInf => true
    case Finite(v) => v < x
  }

  /**
   * `((cur - prev) / prev) * 100` in IEEE arithmetic: a zero previous total
   * gives an infinity of the sign of the change, or NaN for no change.
   */
  function ChangePercent(cur: real, prev: real): (p: Number)
    ensures prev != 0.0 ==> p == Finite((cur - prev) / prev * 100.0)
    ensures prev == 0.0 ==> (p.PosInf? <==> cur > 0.0) && (p.NegInf? <==> cur < 0.0) && (p.NaN? <==> cur == 0.0)
  {
    if prev != 0.0 then Finite((cur - prev) / prev * 100.0)
    else if cur > 0.0 then PosInf
    else if cur < 0.0 then NegInf
    else NaN
  }

  /** `allMonths.findIndex(m => m.monthKey === key)`, -1 when absent. */
  function FindIndex(all: seq<MonthGroup>, key: MonthKey): (i: int)
    ensures -1 <= i < |all|
    ensures i >= 0 ==> all[i].key == key && forall j :: 0 <= j < i ==> all[j].key != key
    ensures i == -1 ==> forall j :: 0 <= j < |all| ==> all[j].key != key
  {
    if all == [] then -1
    else if all[0].key == key then 0
    else
      var i := FindIndex(all[1..], key);
      if i == -1 then -1 else i + 1
  }

  /** The trend a change percentage denotes: beyond ±10 %. */
  function TrendOf(p: Number): Trend {
    if Above(p, 10.0) then Increase
    else if Below(p, -10.0) then Decrease
    else Neutral
  }

  /**
   * `getMonthTrend(month, allMonths)`: neutral for the last (oldest) month or
   * one not in the list, otherwise the trend against the next (older) month.
   */
  function MonthTrend(month: MonthGroup, all: seq<MonthGroup>): (t: Trend)
    ensures var i := FindIndex(all, month.key);
      (i == -1 || i == |all| - 1) ==> t == Neutral
    ensures var i := FindIndex(all, month.key);
      0 <= i < |all| - 1 ==> t == TrendOf(ChangePercent(month.totalAmount, all[i + 1].totalAmount))
  {
    var i := FindIndex(all, month.key);
    if i == |all| - 1 || i == -1 then Neutral
    else TrendOf(ChangePercent(month.totalAmount, all[i + 1].totalAmount))
  }

  /**
   * With a positive previous total, an increase means more than 110 % of it
   * and a decrease less than 90 % of it.
   */
  lemma TrendAgainstPositive(cur: real, prev: real)
    requires prev > 0.0
    ensures TrendOf(ChangePercent(cur, prev)) == Increase <==> cur > 1.1 * prev
    ensures TrendOf(ChangePercent(cur, prev)) == Decrease <==> cur < 0.9 * prev
  {
    var ratio := (cur - prev) / prev;
    assert ChangePercent(cur, prev) == Finite(ratio * 100.0);
    RatioBounds(cur, prev);
  }

  lemma RatioBounds(cur: real, prev: real)
    requires prev > 0.0
    ensures (cur - prev) / prev > 0.1 <==> cur > 1.1 * prev
    ensures (cur - prev) / prev < -0.1 <==> cur < 0.9 * prev
  {
    var ratio := (cur - prev) / prev;
    assert ratio * prev == cur - prev;
    var lo: real := -0.1;
    ScaleIff(ratio, 0.1, prev);
    ScaleIff(ratio, lo, prev);
    assert lo * prev == -0.1 * prev;
  }

  lemma ScaleIff(a: real, b: real, k: real)
    requires k > 0.0
    ensures a * k > b * k <==> a > b
    ensures a * k < b * k <==> a < b
  {
  }

  /** After a month with no spending, any spending is an increase. */
  lemma TrendAfterZero(cur: real)
    ensures TrendOf(ChangePercent(cur, 0.0)) == Increase <==> cur > 0.0
    ensures TrendOf(ChangePercent(cur, 0.0)) == Neutral <==> cur == 0.0
  {
  }

  const TrendSuffix := "% from previous month"

  /**
   * `getTrendText(trend, month, allMonths)`, given `Number.prototype.toFixed(1)`:
   * empty for neutral or when there is no next entry, otherwise the signed
   * percentage and the fixed suffix ('+' only for an increase).
   */
  function TrendText(trend: Trend, month: MonthGroup, all: seq<MonthGroup>, toFixed1: Number -> string): (s: string)
    ensures trend == Neutral ==> s == ""
    ensures var i := FindIndex(all, month.key) + 1;
      trend != Neutral && i < |all| ==>
        var digits := toFixed1(ChangePercent(month.totalAmount, all[i].totalAmount));
        s == (if trend == Increase then "+" else "") + digits + TrendSuffix
    ensures FindIndex(all, month.key) + 1 >= |all| ==> s == ""
  {
    if trend == Neutral then ""
    else
      var i := FindIndex(all, month.key) + 1;
      if i >= |all| then ""
      else
        var digits := toFixed1(ChangePercent(month.totalAmount, all[i].totalAmount));
        if trend == Increase then "+" + digits + TrendSuffix else digits + TrendSuffix
  }

  /**
   * For the trend the month list itself computes, a caption is shown exactly
   * when the trend is not neutral, and it is measured against the same month.
   */
  lemma CaptionMatchesTrend(month: MonthGroup, all: seq<MonthGroup>, toFixed1: Number -> string)
    ensures var t := MonthTrend(month, all);
      (TrendText(t, month, all, toFixed1) == "") <==> t == Neutral
  {
  }
}
