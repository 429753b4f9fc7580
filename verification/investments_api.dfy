/**
 * The investments endpoints: owner-scoped create, read, partial update and
 * delete, and the per-user summary (totals, status counts, the group-by-type
 * dictionary, the five most recent investments and the upcoming maturities).
 */
module InvestmentsApi {
  import opened Wrappers
  import opened Schemas
  import opened Tables
  import opened Aggregates

  /**
   * A row of the `investments` table. `status` and `is_sip` are nullable
   * columns: an update may store null in them.
   */
  datatype Investment = Investment(
    id: nat, name: string, investmentType: InvestmentType, amount: real, date: Date,
    status: Option<InvestmentStatus>,
    description: Option<string>, institution: Option<string>, accountNumber: Option<string>,
    folioNumber: Option<string>, units: Option<real>, nav: Option<real>, maturityDate: Option<Date>,
    interestRate: Option<real>, frequency: Option<string>, isSip: Option<bool>,
    sipAmount: Option<real>, sipFrequency: Option<string>, userId: nat)

  const InvestmentNotFound := HttpError(404, "Investment not found")

  function OwnedInvestment(id: int, owner: nat): Investment -> bool {
    (i: Investment) => i.id == id && i.userId == owner
  }

  function OwnedBy(owner: nat): Investment -> bool {
    (i: Investment) => i.userId == owner
  }

  /** The new row `create_investment` builds: every field of the request, and the owner. */
  function NewInvestment(id: nat, input: InvestmentCreate, owner: nat): Investment {
    Investment(id, input.name, input.investmentType, input.amount, input.date, Some(input.status),
      input.description, input.institution, input.accountNumber, input.folioNumber, input.units, input.nav,
      input.maturityDate, input.interestRate, input.frequency, Some(input.isSip), input.sipAmount,
      input.sipFrequency, owner)
  }

  /**
   * The response model `Investment` requires a status and a boolean
   * `is_sip`; a row holding null in either fails validation with a 500.
   */
  function AsResponse(row: Investment): (r: Result<Investment, HttpError>)
    ensures r.Success? <==> row.status.Some? && row.isSip.Some?
    ensures r.Success? ==> r.value == row
    ensures r.Failure? ==> r.error == InternalError
  {
    if row.status.Some? && row.isSip.Some? then Success(row) else Failure(InternalError)
  }

  /** A freshly created row always passes response validation. */
  lemma CreatedRowIsValid(id: nat, input: InvestmentCreate, owner: nat)
    ensures AsResponse(NewInvestment(id, input, owner)) == Success(NewInvestment(id, input, owner))
    ensures NewInvestment(id, input, owner).userId == owner
  {
  }

  /**
   * The `setattr` loop of `update_investment`, field by field: a field that
   * was sent is overwritten (null included), the rest keep their values.
   * The four NOT NULL columns make the commit fail when set to null: None.
   */
  function UpdatedInvestment(row: Investment, u: InvestmentUpdate): (r: Option<Investment>)
    ensures r.None? <==>
      u.name == Given(None) || u.investmentType == Given(None) || u.amount == Given(None) || u.date == Given(None)
    ensures r.Some? ==> r.value.id == row.id && r.value.userId == row.userId
    ensures r.Some? ==>
      && (u.name.Unset? ==> r.value.name == row.name)
      && (u.investmentType.Unset? ==> r.value.investmentType == row.investmentType)
      && (u.amount.Unset? ==> r.value.amount == row.amount)
      && (u.date.Unset? ==> r.value.date == row.date)
      && (u.name.Given? ==> Some(r.value.name) == u.name.value)
      && (u.investmentType.Given? ==> Some(r.value.investmentType) == u.investmentType.value)
      && (u.amount.Given? ==> Some(r.value.amount) == u.amount.value)
      && (u.date.Given? ==> Some(r.value.date) == u.date.value)
      && r.value.status == Apply(u.status, row.status)
      && r.value.description == Apply(u.description, row.description)
      && r.value.institution == Apply(u.institution, row.institution)
      && r.value.accountNumber == Apply(u.accountNumber, row.accountNumber)
      && r.value.folioNumber == Apply(u.folioNumber, row.folioNumber)
      && r.value.units == Apply(u.units, row.units)
      && r.value.nav == Apply(u.nav, row.nav)
      && r.value.maturityDate == Apply(u.maturityDate, row.maturityDate)
      && r.value.interestRate == Apply(u.interestRate, row.interestRate)
      && r.value.frequency == Apply(u.frequency, row.frequency)
      && r.value.isSip == Apply(u.isSip, row.isSip)
      && r.value.sipAmount == Apply(u.sipAmount, row.sipAmount)
      && r.value.sipFrequency == Apply(u.sipFrequency, row.sipFrequency)
  {
    var name := Apply(u.name, Some(row.name));
    var investmentType := Apply(u.investmentType, Some(row.investmentType));
    var amount := Apply(u.amount, Some(row.amount));
    var date := Apply(u.date, Some(row.date));
    if name.None? || investmentType.None? || amount.None? || date.None? then None
    else Some(row.(
      name := name.value, investmentType := investmentType.value, amount := amount.value, date := date.value,
      status := Apply(u.status, row.status), description := Apply(u.description, row.description),
      institution := Apply(u.institution, row.institution), accountNumber := Apply(u.accountNumber, row.accountNumber),
      folioNumber := Apply(u.folioNumber, row.folioNumber), units := Apply(u.units, row.units),
      nav := Apply(u.nav, row.nav), maturityDate := Apply(u.maturityDate, row.maturityDate),
      interestRate := Apply(u.interestRate, row.interestRate), frequency := Apply(u.frequency, row.frequency),
      isSip := Apply(u.isSip, row.isSip), sipAmount := Apply(u.sipAmount, row.sipAmount),
      sipFrequency := Apply(u.sipFrequency, row.sipFrequency)))
  }

  /** An update that sends nothing leaves the row as it was. */
  lemma EmptyUpdateChangesNothing(row: Investment)
    ensures UpdatedInvestment(row, EmptyInvestmentUpdate) == Some(row)
  {
  }

  /** Sending `status` or `is_sip` as null is stored, but the response then fails validation. */
  lemma NullStatusIsStoredButNotReturned(row: Investment)
    ensures var u := EmptyInvestmentUpdate.(status := Given(None));
      UpdatedInvestment(row, u) == Some(row.(status := None)) &&
      AsResponse(row.(status := None)) == Failure(InternalError)
  {
  }

  // ---------------------------------------------------------------------
  // The summary
  // ---------------------------------------------------------------------

  function AmountOf(i: Investment): real {
    i.amount
  }

  function TypeOf(i: Investment): InvestmentType {
    i.investmentType
  }

  /** `inv.sip_amount or 0`: None and 0.0 both count as zero. */
  function SipAmountOf(i: Investment): real {
    if i.sipAmount.Some? then i.sipAmount.value else 0.0
  }

  /** `if inv.is_sip`: only a stored true counts. */
  predicate IsSip(i: Investment) {
    i.isSip == Some(true)
  }

  /** How the three status counts file a row; null and unknown statuses fall in none. */
  datatype StatusGroup = ActiveGroup | PausedGroup | CompletedGroup | NoGroup

  const StatusGroups: seq<StatusGroup> := [ActiveGroup, PausedGroup, CompletedGroup, NoGroup]

  function StatusGroupOf(i: Investment): StatusGroup {
    match i.status
    case Some(Active) => ActiveGroup
    case Some(Paused) => PausedGroup
    case Some(Completed) => CompletedGroup
    case Some(Sold) => CompletedGroup
    case Some(Matured) => CompletedGroup
    case None => NoGroup
  }

  /** One element of a group's `investments` list. */
  datatype Brief = Brief(id: nat, name: string, amount: real, date: Date, status: Option<InvestmentStatus>)

  function BriefOf(i: Investment): Brief {
    Brief(i.id, i.name, i.amount, i.date, i.status)
  }

  function Briefs(xs: seq<Investment>): (r: seq<Brief>)
    ensures |r| == |xs| && forall k :: 0 <= k < |xs| ==> r[k] == BriefOf(xs[k])
  {
    seq(|xs|, k requires 0 <= k < |xs| => BriefOf(xs[k]))
  }

  /** One value of the `investments_by_type` dictionary. */
  datatype TypeGroup = TypeGroup(count: nat, totalAmount: real, investments: seq<Brief>)

  /** The group of type `t` after the rows `xs`: their number, their total, and each one in order. */
  function GroupOf(xs: seq<Investment>, t: InvestmentType): TypeGroup {
    var of := Filter(xs, TypeOf, t);
    TypeGroup(|of|, Sum(of, AmountOf), Briefs(of))
  }

  /**
   * The dictionary after the rows `seen`: its keys in insertion order (the
   * order of first occurrence) and each key's group.
   */
  ghost predicate Grouped(seen: seq<Investment>, order: seq<InvestmentType>, groups: map<InvestmentType, TypeGroup>) {
    && order == Keys(seen, TypeOf)
    && (forall t :: t in groups <==> t in order)
    && (forall t :: t in groups ==> groups[t] == GroupOf(seen, t))
  }

  /** `investments_by_type[inv_type]` after one more row of that type. */
  function Bump(g: TypeGroup, x: Investment): TypeGroup {
    TypeGroup(g.count + 1, g.totalAmount + x.amount, g.investments + [BriefOf(x)])
  }

  /** The `for inv in investments` loop that fills `investments_by_type`. */
  method GroupByType(xs: seq<Investment>) returns (order: seq<InvestmentType>, groups: map<InvestmentType, TypeGroup>)
    ensures Grouped(xs, order, groups)
  {
    order, groups := [], map[];
    for i := 0 to |xs|
      invariant Grouped(xs[..i], order, groups)
    {
      var t := xs[i].investmentType;
      GroupNext(xs, i, order, groups);
      var g := if t in groups then groups[t] else TypeGroup(0, 0.0, []);
      if t !in groups {
        order := order + [t];
      }
      groups := groups[t := Bump(g, xs[i])];
    }
    assert xs[..|xs|] == xs;
  }

  /** `GroupStep` at position `i` of the whole list. */
  lemma GroupNext(xs: seq<Investment>, i: nat, order: seq<InvestmentType>, groups: map<InvestmentType, TypeGroup>)
    requires i < |xs| && Grouped(xs[..i], order, groups)
    ensures var t := xs[i].investmentType;
      Grouped(xs[..i + 1], if t in groups then order else order + [t],
              groups[t := Bump(if t in groups then groups[t] else TypeGroup(0, 0.0, []), xs[i])])
  {
    TakeSnoc(xs, i);
    GroupStep(xs[..i], xs[i], order, groups);
  }

  /** The loop body keeps `Grouped`, whether the row's type is new or already a key. */
  lemma GroupStep(seen: seq<Investment>, x: Investment, order: seq<InvestmentType>, groups: map<InvestmentType, TypeGroup>)
    requires Grouped(seen, order, groups)
    ensures var t := x.investmentType;
      Grouped(seen + [x], if t in groups then order else order + [t],
              groups[t := Bump(if t in groups then groups[t] else TypeGroup(0, 0.0, []), x)])
  {
    var t := x.investmentType;
    var g := Bump(if t in groups then groups[t] else TypeGroup(0, 0.0, []), x);
    GroupKeysStep(seen, x, order, groups, g);
    if t !in groups {
      NoRowsOfType(seen, t);
    }
    GroupValuesStep(seen, x, groups);
    GroupedOf(seen + [x], if t in groups then order else order + [t], groups[t := g]);
  }

  lemma GroupedOf(seen: seq<Investment>, order: seq<InvestmentType>, groups: map<InvestmentType, TypeGroup>)
    requires order == Keys(seen, TypeOf)
    requires forall t :: t in groups <==> t in order
    requires forall t :: t in groups ==> groups[t] == GroupOf(seen, t)
    ensures Grouped(seen, order, groups)
  {
  }

  /** The key list grows by the row's type exactly when the type is new. */
  lemma GroupKeysStep(seen: seq<Investment>, x: Investment, order: seq<InvestmentType>,
                      groups: map<InvestmentType, TypeGroup>, g: TypeGroup)
    requires order == Keys(seen, TypeOf) && (forall t :: t in groups <==> t in order)
    ensures var t := x.investmentType;
      var order' := if t in groups then order else order + [t];
      && order' == Keys(seen + [x], TypeOf)
      && (forall u :: u in groups[t := g] <==> u in order')
  {
    KeysSnoc(seen, x, TypeOf);
  }

  /** Every group, the row's own included, is still the group of its type. */
  lemma GroupValuesStep(seen: seq<Investment>, x: Investment, groups: map<InvestmentType, TypeGroup>)
    requires forall u :: u in groups ==> groups[u] == GroupOf(seen, u)
    requires x.investmentType !in groups ==> GroupOf(seen, x.investmentType) == TypeGroup(0, 0.0, [])
    ensures var t := x.investmentType;
      var groups' := groups[t := Bump(if t in groups then groups[t] else TypeGroup(0, 0.0, []), x)];
      forall u :: u in groups' ==> groups'[u] == GroupOf(seen + [x], u)
  {
    var t := x.investmentType;
    forall u | u in groups || u == t
      ensures GroupOf(seen + [x], u) == if u == t then Bump(GroupOf(seen, t), x) else GroupOf(seen, u)
    {
      GroupOfSnoc(seen, x, u);
    }
  }

  /** A type that is not among the keys of `seen` has the empty group. */
  lemma NoRowsOfType(seen: seq<Investment>, t: InvestmentType)
    requires t !in Keys(seen, TypeOf)
    ensures GroupOf(seen, t) == TypeGroup(0, 0.0, [])
  {
    assert forall i :: 0 <= i < |seen| ==> TypeOf(seen[i]) != t;
    assert Filter(seen, TypeOf, t) == [];
  }

  /** One more row changes only the group of its own type. */
  lemma GroupOfSnoc(seen: seq<Investment>, x: Investment, t: InvestmentType)
    ensures GroupOf(seen + [x], t) == if t == x.investmentType then Bump(GroupOf(seen, t), x) else GroupOf(seen, t)
  {
    FilterSnoc(seen, x, TypeOf, t);
    var of := Filter(seen, TypeOf, t);
    if t == x.investmentType {
      SumSnoc(of, x, AmountOf);
      assert Briefs(of + [x]) == Briefs(of) + [BriefOf(x)];
    } else {
      assert of + [] == of;
    }
  }

  /** One element of `recent_investments`. */
  datatype Recent = Recent(id: nat, name: string, amount: real, date: Date, investmentType: InvestmentType,
                           status: Option<InvestmentStatus>)

  /** One element of `upcoming_maturities`. */
  datatype Upcoming = Upcoming(id: nat, name: string, amount: real, maturityDate: Date, daysRemaining: int)

  /** The stable sort by date, newest first, cut to five rows. */
  function RecentRows(xs: seq<Investment>): seq<Investment> {
    var newest := SortBy(xs, (i: Investment) => -(i.date.ordinal as real));
    if |newest| <= 5 then newest else newest[..5]
  }

  /** A row listed among the upcoming maturities: Active, maturing today or later. */
  predicate Maturing(i: Investment, today: Date) {
    i.status == Some(Active) && i.maturityDate.Some? && i.maturityDate.value.ordinal >= today.ordinal
  }

  /** The upcoming rows, stably sorted by maturity date, earliest first. */
  function UpcomingRows(xs: seq<Investment>, today: Date): seq<Investment> {
    SortBy(Where(xs, (i: Investment) => Maturing(i, today)),
           (i: Investment) => if i.maturityDate.Some? then i.maturityDate.value.ordinal as real else 0.0)
  }

  function UpcomingOf(i: Investment, today: Date): Upcoming
    requires i.maturityDate.Some?
  {
    Upcoming(i.id, i.name, i.amount, i.maturityDate.value, i.maturityDate.value.ordinal - today.ordinal)
  }

  datatype Summary = Summary(
    totalInvestments: nat, totalAmount: real, totalSipAmount: real,
    activeInvestments: nat, pausedInvestments: nat, completedInvestments: nat,
    typeOrder: seq<InvestmentType>, investmentsByType: map<InvestmentType, TypeGroup>,
    recentInvestments: seq<Recent>, upcomingMaturities: seq<Upcoming>)

  /** The recent rows the summary lists: at most five, newest first, the newest of all. */
  lemma {:induction false} RecentAreTheLatest(xs: seq<Investment>)
    ensures var r := RecentRows(xs);
      && |r| == (if |xs| < 5 then |xs| else 5)
      && (forall a, b :: 0 <= a < b < |r| ==> r[a].date.ordinal >= r[b].date.ordinal)
      && (forall x :: x in r ==> x in xs)
      && (forall x, y :: x in xs && x !in r && y in r ==> x.date.ordinal <= y.date.ordinal)
  {
    var key := (i: Investment) => -(i.date.ordinal as real);
    var newest := SortBy(xs, key);
    var r := RecentRows(xs);
    forall x | x in r
      ensures x in xs
    {
      assert x in newest;
      assert x in multiset(newest);
    }
    forall a, b | 0 <= a < b < |r|
      ensures r[a].date.ordinal >= r[b].date.ordinal
    {
      assert r[a] == newest[a] && r[b] == newest[b];
      assert key(newest[a]) <= key(newest[b]);
    }
    forall x, y | x in xs && x !in r && y in r
      ensures x.date.ordinal <= y.date.ordinal
    {
      assert x in multiset(newest);
      var j :| 0 <= j < |newest| && newest[j] == x;
      var k :| 0 <= k < |r| && r[k] == y;
      assert newest[k] == y;
      assert j >= |r|;
      assert key(newest[k]) <= key(newest[j]);
    }
  }

  function MaturityKey(i: Investment): real {
    if i.maturityDate.Some? then i.maturityDate.value.ordinal as real else 0.0
  }

  /** The upcoming maturities are exactly the Active rows maturing on or after today. */
  lemma UpcomingAreExactlyTheMaturing(xs: seq<Investment>, today: Date)
    ensures forall x :: x in UpcomingRows(xs, today) <==> x in xs && Maturing(x, today)
  {
    var matching := Where(xs, (i: Investment) => Maturing(i, today));
    var r := UpcomingRows(xs, today);
    assert multiset(r) == multiset(matching);
    forall x
      ensures x in r <==> x in xs && Maturing(x, today)
    {
      assert x in r <==> x in multiset(r);
      assert x in matching <==> x in multiset(matching);
    }
  }

  /** They come earliest first, and none has a negative day count. */
  lemma UpcomingInMaturityOrder(xs: seq<Investment>, today: Date)
    ensures var r := UpcomingRows(xs, today);
      && SortedBy(r, MaturityKey)
      && (forall a :: 0 <= a < |r| ==> r[a].maturityDate.Some? && UpcomingOf(r[a], today).daysRemaining >= 0)
  {
    var r := UpcomingRows(xs, today);
    UpcomingAreExactlyTheMaturing(xs, today);
    assert forall a :: 0 <= a < |r| ==> r[a] in r;
  }

  /**
   * The `upcoming_maturities` list: one entry per upcoming row, earliest
   * maturity first, each counting the days from today to its maturity.
   */
  function UpcomingList(xs: seq<Investment>, today: Date): (r: seq<Upcoming>)
    ensures |r| == |UpcomingRows(xs, today)|
    ensures forall a, b :: 0 <= a < b < |r| ==> r[a].maturityDate.ordinal <= r[b].maturityDate.ordinal
    ensures forall a :: 0 <= a < |r| ==>
      && r[a].daysRemaining == r[a].maturityDate.ordinal - today.ordinal >= 0
      && r[a].id == UpcomingRows(xs, today)[a].id
  {
    var rows := UpcomingRows(xs, today);
    UpcomingInMaturityOrder(xs, today);
    assert forall a, b :: 0 <= a < b < |rows| ==> MaturityKey(rows[a]) <= MaturityKey(rows[b]);
    seq(|rows|, k requires 0 <= k < |rows| => UpcomingOf(rows[k], today))
  }

  /** The `recent_investments` list: at most five entries, newest first. */
  function RecentList(xs: seq<Investment>): (r: seq<Recent>)
    ensures |r| == (if |xs| < 5 then |xs| else 5)
    ensures forall a, b :: 0 <= a < b < |r| ==> r[a].date.ordinal >= r[b].date.ordinal
    ensures forall a :: 0 <= a < |r| ==> r[a].id == RecentRows(xs)[a].id
  {
    var rows := RecentRows(xs);
    RecentAreTheLatest(xs);
    seq(|rows|, k requires 0 <= k < |rows| =>
      Recent(rows[k].id, rows[k].name, rows[k].amount, rows[k].date, rows[k].investmentType, rows[k].status))
  }

  /** Nothing limits the list to the next 30 days: a maturity a year away is listed. */
  lemma UpcomingHasNoHorizon(x: Investment, today: Date)
    requires x.status == Some(Active) && x.maturityDate == Some(Date(today.ordinal + 365))
    ensures x in UpcomingRows([x], today)
    ensures UpcomingOf(x, today).daysRemaining == 365
  {
    UpcomingAreExactlyTheMaturing([x], today);
  }

  /**
   * The three status counts never exceed the total: the groups partition the
   * rows, and rows with a null status fall in none of the three.
   */
  lemma StatusCountsWithinTotal(xs: seq<Investment>)
    ensures |Filter(xs, StatusGroupOf, ActiveGroup)| + |Filter(xs, StatusGroupOf, PausedGroup)|
      + |Filter(xs, StatusGroupOf, CompletedGroup)| <= |xs|
  {
    PartitionCount(xs, StatusGroupOf, StatusGroups);
    assert StatusGroups[..3][..2][..1][..0] == [];
  }

  /** The per-type counts add up to the number of rows and the per-type totals to the total amount. */
  lemma ByTypeAddsUp(xs: seq<Investment>, order: seq<InvestmentType>, groups: map<InvestmentType, TypeGroup>)
    requires Grouped(xs, order, groups)
    ensures GroupCounts(xs, TypeOf, order) == |xs|
    ensures GroupSums(xs, TypeOf, AmountOf, order) == Sum(xs, AmountOf)
    ensures forall t :: t in groups ==> groups[t].count == |Filter(xs, TypeOf, t)| && groups[t].totalAmount == Sum(Filter(xs, TypeOf, t), AmountOf)
  {
    PartitionCount(xs, TypeOf, order);
    PartitionSum(xs, TypeOf, AmountOf, order);
  }

  class InvestmentTable {
    var rows: seq<Investment>
    var nextId: nat

    ghost predicate Valid()
      reads this
    {
      && (forall i :: 0 <= i < |rows| ==> rows[i].id < nextId)
      && (forall i, j :: 0 <= i < j < |rows| ==> rows[i].id != rows[j].id)
    }

    constructor()
      ensures rows == [] && Valid()
    {
      rows := [];
      nextId := 1;
    }

    /** `create_investment` */
    method Create(input: InvestmentCreate, owner: nat) returns (r: Result<Investment, HttpError>)
      requires Valid()
      modifies this
      ensures Valid()
      ensures rows == old(rows) + [NewInvestment(old(nextId), input, owner)]
      ensures r == Success(NewInvestment(old(nextId), input, owner))
    {
      var row := NewInvestment(nextId, input, owner);
      rows := rows + [row];
      nextId := nextId + 1;
      CreatedRowIsValid(row.id, input, owner);
      r := AsResponse(row);
    }

    /** `read_investments`: the owner's rows, paged; one row failing validation fails the list. */
    function ReadAll(owner: nat, skip: nat, limit: nat): (r: Result<seq<Investment>, HttpError>)
      reads this
      ensures r.Success? ==> r.value == Page(Where(rows, OwnedBy(owner)), skip, limit)
      ensures r.Failure? <==> exists x :: x in Page(Where(rows, OwnedBy(owner)), skip, limit) && AsResponse(x).Failure?
    {
      var page := Page(Where(rows, OwnedBy(owner)), skip, limit);
      if forall k :: 0 <= k < |page| ==> AsResponse(page[k]).Success? then Success(page)
      else Failure(InternalError)
    }

    /** `read_investment` */
    function Read(id: int, owner: nat): (r: Result<Investment, HttpError>)
      reads this
      ensures (forall x :: x in rows ==> !(x.id == id && x.userId == owner)) <==> r == Failure(InvestmentNotFound)
      ensures r.Success? ==> r.value in rows && r.value.id == id && r.value.userId == owner
      ensures var i := FindFirst(rows, OwnedInvestment(id, owner));
        i.Some? ==>
          && (r.Success? <==> rows[i.value].status.Some? && rows[i.value].isSip.Some?)
          && (r.Success? ==> r.value == rows[i.value])
          && (r.Failure? ==> r.error == InternalError)
    {
      var i := FindFirst(rows, OwnedInvestment(id, owner));
      if i.None? then Failure(InvestmentNotFound) else AsResponse(rows[i.value])
    }

    /**
     * `update_investment`: 404 for a row the user does not own; nulling a
     * NOT NULL column fails the commit and changes nothing; otherwise the
     * row is replaced by the patched one, which is then validated.
     */
    method Update(id: int, owner: nat, u: InvestmentUpdate) returns (r: Result<Investment, HttpError>)
      requires Valid()
      modifies this
      ensures Valid() && nextId == old(nextId)
      ensures var i := FindFirst(old(rows), OwnedInvestment(id, owner));
        && (i.None? ==> r == Failure(InvestmentNotFound) && rows == old(rows))
        && (i.Some? && UpdatedInvestment(old(rows)[i.value], u).None? ==> r == Failure(InternalError) && rows == old(rows))
        && (i.Some? && UpdatedInvestment(old(rows)[i.value], u).Some? ==>
              var updated := UpdatedInvestment(old(rows)[i.value], u).value;
              rows == old(rows)[i.value := updated] && r == AsResponse(updated))
    {
      var i := FindFirst(rows, OwnedInvestment(id, owner));
      if i.None? {
        return Failure(InvestmentNotFound);
      }
      var updated := UpdatedInvestment(rows[i.value], u);
      if updated.None? {
        return Failure(InternalError);
      }
      rows := rows[i.value := updated.value];
      r := AsResponse(updated.value);
    }

    /** `delete_investment` */
    method Delete(id: int, owner: nat) returns (r: Result<(), HttpError>)
      requires Valid()
      modifies this
      ensures Valid() && nextId == old(nextId)
      ensures var i := FindFirst(old(rows), OwnedInvestment(id, owner));
        && (i.None? ==> r == Failure(InvestmentNotFound) && rows == old(rows))
        && (i.Some? ==> r == Success(()) && rows == RemoveAt(old(rows), i.value))
    {
      var i := FindFirst(rows, OwnedInvestment(id, owner));
      if i.None? {
        return Failure(InvestmentNotFound);
      }
      rows := RemoveAt(rows, i.value);
      r := Success(());
    }

    /**
     * `get_investments_summary` for the user `owner` on the day `today`:
     * all zeros and empty collections without investments; otherwise the
     * count, the sums, the three status counts, the by-type dictionary, the
     * five most recent and the upcoming maturities.
     */
    method GetSummary(owner: nat, today: Date) returns (s: Summary)
      ensures var mine := Where(rows, OwnedBy(owner));
        && (mine == [] ==> s == Summary(0, 0.0, 0.0, 0, 0, 0, [], map[], [], []))
        && s.totalInvestments == |mine|
        && s.totalAmount == Sum(mine, AmountOf)
        && s.totalSipAmount == Sum(Where(mine, IsSip), SipAmountOf)
        && s.activeInvestments == |Filter(mine, StatusGroupOf, ActiveGroup)|
        && s.pausedInvestments == |Filter(mine, StatusGroupOf, PausedGroup)|
        && s.completedInvestments == |Filter(mine, StatusGroupOf, CompletedGroup)|
        && Grouped(mine, s.typeOrder, s.investmentsByType)
        && s.recentInvestments == RecentList(mine)
        && s.upcomingMaturities == UpcomingList(mine, today)
    {
      var mine := Where(rows, OwnedBy(owner));
      if mine == [] {
        return Summary(0, 0.0, 0.0, 0, 0, 0, [], map[], [], []);
      }
      var order, groups := GroupByType(mine);
      s := Summary(
        |mine|, Sum(mine, AmountOf), Sum(Where(mine, IsSip), SipAmountOf),
        |Filter(mine, StatusGroupOf, ActiveGroup)|, |Filter(mine, StatusGroupOf, PausedGroup)|,
        |Filter(mine, StatusGroupOf, CompletedGroup)|,
        order, groups, RecentList(mine), UpcomingList(mine, today));
    }
  }
}
