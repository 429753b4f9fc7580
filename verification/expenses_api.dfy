/**
 * The expenses endpoints: creation with category resolution, owner-scoped
 * read, update and delete, the filtered, sorted and paged list, the
 * per-category list and the summary. The category table is read through
 * `categories`, the rows of `CategoriesApi.CategoryTable`.
 */
module ExpensesApi {
  import opened Wrappers
  import opened Js
  import opened Schemas
  import opened Tables
  import opened Aggregates
  import opened CategoriesApi

  datatype Expense = Expense(
    id: nat, description: string, amount: real, date: Date, categoryId: int, userId: nat, notes: Option<string>)

  /** `ExpenseResponse`: the row, its category, and `category_name` taken from it. */
  datatype ExpenseResponse = ExpenseResponse(expense: Expense, category: Category, categoryName: string)

  const ExpenseNotFound := HttpError(404, "Expense not found")

  function CategoryIdNotFound(id: int): HttpError {
    HttpError(404, "Category with ID " + IntToString(id) + " not found")
  }

  function CategoryNameNotFound(name: Option<string>): HttpError {
    HttpError(404, "Category '" + PyText(name) + "' not found")
  }

  function OwnedExpense(id: int, owner: nat): Expense -> bool {
    (e: Expense) => e.id == id && e.userId == owner
  }

  /** The category with that id, whoever owns it (the `expense.category` relationship). */
  function CategoryById(categories: seq<Category>, id: int): (r: Option<Category>)
    ensures r.Some? ==> r.value in categories && r.value.id == id
    ensures r.None? ==> forall c :: c in categories ==> c.id != id
  {
    var i := FindFirst(categories, (c: Category) => c.id == id);
    if i.Some? then Some(categories[i.value]) else None
  }

  /**
   * The category lookup shared by create and update: by id among the owner's
   * categories when `category_id` is truthy, else by name when
   * `category_name` is truthy, else no lookup at all (None).
   */
  function Resolve(categories: seq<Category>, owner: nat, categoryId: Option<int>, categoryName: Option<string>)
    : (r: Result<Option<Category>, HttpError>)
    ensures r.Success? && r.value.Some? ==> r.value.value in categories && r.value.value.userId == owner
    ensures r.Success? && r.value.None? <==> !TruthyId(categoryId) && !TruthyText(categoryName)
    ensures TruthyId(categoryId) ==>
      && (r.Success? ==> r.value.Some? && r.value.value.id == categoryId.value)
      && (r.Failure? <==> forall c :: c in categories ==> !(c.id == categoryId.value && c.userId == owner))
      && (r.Failure? ==> r.error == CategoryIdNotFound(categoryId.value))
    ensures !TruthyId(categoryId) && TruthyText(categoryName) ==>
      && (r.Success? ==> r.value.Some? && r.value.value.name == categoryName.value)
      && (r.Failure? <==> forall c :: c in categories ==> !(c.name == categoryName.value && c.userId == owner))
      && (r.Failure? ==> r.error == CategoryNameNotFound(categoryName))
  {
    if TruthyId(categoryId) then
      var i := FindFirst(categories, OwnedCategory(categoryId.value, owner));
      if i.Some? then Success(Some(categories[i.value])) else Failure(CategoryIdNotFound(categoryId.value))
    else if TruthyText(categoryName) then
      var i := FindFirst(categories, (c: Category) => c.name == categoryName.value && c.userId == owner);
      if i.Some? then Success(Some(categories[i.value])) else Failure(CategoryNameNotFound(categoryName))
    else Success(None)
  }

  /**
   * `create_expense`'s category: as `Resolve`, and a request naming no
   * category at all fails with the name message, which prints `None`.
   */
  function CreateCategory(categories: seq<Category>, owner: nat, input: ExpenseCreate): (r: Result<Category, HttpError>)
    ensures r.Success? ==> r.value in categories && r.value.userId == owner
    ensures !TruthyId(input.categoryId) && !TruthyText(input.categoryName) ==>
      r == Failure(CategoryNameNotFound(input.categoryName))
    ensures TruthyId(input.categoryId) || TruthyText(input.categoryName) ==>
      var res := Resolve(categories, owner, input.categoryId, input.categoryName);
      && (r.Failure? <==> res.Failure?)
      && (r.Failure? ==> r.error == res.error)
      && (r.Success? ==> res == Success(Some(r.value)))
  {
    var res := Resolve(categories, owner, input.categoryId, input.categoryName);
    if res.Failure? then Failure(res.error)
    else if res.value.None? then Failure(CategoryNameNotFound(input.categoryName))
    else Success(res.value.value)
  }

  /** A create request without any category is always refused, whatever the user owns. */
  lemma CreateNeedsSomeCategory(categories: seq<Category>, owner: nat, input: ExpenseCreate)
    requires input.categoryId.None? && input.categoryName.None?
    ensures CreateCategory(categories, owner, input) == Failure(HttpError(404, "Category 'None' not found"))
  {
    assert PyText(input.categoryName) == "None";
    assert "Category '" + "None" + "' not found" == "Category 'None' not found";
  }

  /** The response for one row: its category by id, or a server error when there is none. */
  function Response(e: Expense, categories: seq<Category>): Result<ExpenseResponse, HttpError> {
    var c := CategoryById(categories, e.categoryId);
    if c.None? then Failure(InternalError) else Success(ExpenseResponse(e, c.value, c.value.name))
  }

  /**
   * The responses of a list endpoint: one per row, in order, unless some row
   * has no category, which fails the whole request.
   */
  function Responses(es: seq<Expense>, categories: seq<Category>): Result<seq<ExpenseResponse>, HttpError> {
    if forall k :: 0 <= k < |es| ==> Response(es[k], categories).Success? then
      Success(seq(|es|, k requires 0 <= k < |es| => Response(es[k], categories).value))
    else Failure(InternalError)
  }

  /** The append loop that converts queried rows to responses. */
  method ToResponses(es: seq<Expense>, categories: seq<Category>) returns (r: Result<seq<ExpenseResponse>, HttpError>)
    ensures r == Responses(es, categories)
  {
    var out: seq<ExpenseResponse> := [];
    var i := 0;
    while i < |es|
      invariant 0 <= i <= |es| && |out| == i
      invariant forall k :: 0 <= k < i ==> Response(es[k], categories) == Success(out[k])
    {
      var one := Response(es[i], categories);
      if one.Failure? {
        assert !Response(es[i], categories).Success?;
        return Failure(InternalError);
      }
      out := out + [one.value];
      i := i + 1;
    }
    assert out == seq(|es|, k requires 0 <= k < |es| => Response(es[k], categories).value);
    r := Success(out);
  }

  /** The query parameters of `get_expenses_list`. */
  datatype ListQuery = ListQuery(
    categoryId: Option<int>, startDate: Option<string>, endDate: Option<string>,
    minAmount: Option<real>, maxAmount: Option<real>,
    sortBy: string, sortOrder: string, skip: nat, limit: nat)

  /**
   * The filters of `get_expenses_list`: the owner always, the category when
   * its id is truthy, the dates (inclusive) when the strings are non-empty,
   * the amounts (inclusive) when given. `parseDate` is the database's cast
   * of the query string to a date.
   */
  predicate Matches(e: Expense, owner: nat, q: ListQuery, parseDate: string -> Date) {
    && e.userId == owner
    && (TruthyId(q.categoryId) ==> e.categoryId == q.categoryId.value)
    && (TruthyText(q.startDate) ==> e.date.ordinal >= parseDate(q.startDate.value).ordinal)
    && (TruthyText(q.endDate) ==> e.date.ordinal <= parseDate(q.endDate.value).ordinal)
    && (q.minAmount.Some? ==> e.amount >= q.minAmount.value)
    && (q.maxAmount.Some? ==> e.amount <= q.maxAmount.value)
  }

  /**
   * The sort key of `get_expenses_list`: `sort_by` picks the column and any
   * `sort_order` other than "asc" sorts descending (a negated key).
   * `collate` ranks descriptions in the database's collation. An unknown
   * `sort_by` adds no ORDER BY.
   */
  function SortKey(sortBy: string, sortOrder: string, collate: string -> real): Option<Expense -> real> {
    var sign := if sortOrder == "asc" then 1.0 else -1.0;
    if sortBy == "date" then Some((e: Expense) => sign * e.date.ordinal as real)
    else if sortBy == "amount" then Some((e: Expense) => sign * e.amount)
    else if sortBy == "description" then Some((e: Expense) => sign * collate(e.description))
    else None
  }

  /**
   * The matching rows in the order of the query, before OFFSET and LIMIT:
   * every match, as often as it is stored, sorted by the key when there is
   * one and in storage order otherwise.
   */
  function ListOrder(rows: seq<Expense>, owner: nat, q: ListQuery, parseDate: string -> Date, collate: string -> real)
    : (ordered: seq<Expense>)
    ensures multiset(ordered) == multiset(Where(rows, (e: Expense) => Matches(e, owner, q, parseDate)))
    ensures forall e :: e in ordered <==> e in rows && Matches(e, owner, q, parseDate)
    ensures SortKey(q.sortBy, q.sortOrder, collate).Some? ==> SortedBy(ordered, SortKey(q.sortBy, q.sortOrder, collate).value)
    ensures SortKey(q.sortBy, q.sortOrder, collate).None? ==> ordered == Where(rows, (e: Expense) => Matches(e, owner, q, parseDate))
  {
    var matching := Where(rows, (e: Expense) => Matches(e, owner, q, parseDate));
    var key := SortKey(q.sortBy, q.sortOrder, collate);
    var ordered := if key.Some? then SortBy(matching, key.value) else matching;
    assert forall e :: e in ordered <==> e in matching by {
      forall e
        ensures e in ordered <==> e in matching
      {
        assert e in ordered <==> e in multiset(ordered);
        assert e in matching <==> e in multiset(matching);
      }
    }
    ordered
  }

  /**
   * The rows `get_expenses_list` returns, before conversion to responses:
   * the window of `limit` rows starting `skip` rows into the ordered matches.
   */
  function ListRows(rows: seq<Expense>, owner: nat, q: ListQuery, parseDate: string -> Date, collate: string -> real)
    : (r: seq<Expense>)
    ensures |r| <= q.limit
    ensures forall e :: e in r ==> e in rows && Matches(e, owner, q, parseDate)
    ensures var ordered := ListOrder(rows, owner, q, parseDate, collate);
      && |r| == (if q.skip >= |ordered| then 0 else if |ordered| - q.skip < q.limit then |ordered| - q.skip else q.limit)
      && forall i :: 0 <= i < |r| ==> r[i] == ordered[q.skip + i]
  {
    var ordered := ListOrder(rows, owner, q, parseDate, collate);
    var page := Page(ordered, q.skip, q.limit);
    assert forall e :: e in page ==> e in ordered by {
      forall e | e in page
        ensures e in ordered
      {
        var k :| 0 <= k < |page| && page[k] == e;
        assert ordered[q.skip + k] == e;
      }
    }
    page
  }

  /** Whatever the column and the direction, the list comes sorted by the query's key. */
  lemma ListSortedByKey(rows: seq<Expense>, owner: nat, q: ListQuery, parseDate: string -> Date, collate: string -> real)
    requires SortKey(q.sortBy, q.sortOrder, collate).Some?
    ensures SortedBy(ListRows(rows, owner, q, parseDate, collate), SortKey(q.sortBy, q.sortOrder, collate).value)
  {
    var key := SortKey(q.sortBy, q.sortOrder, collate).value;
    var ordered := ListOrder(rows, owner, q, parseDate, collate);
    var r := ListRows(rows, owner, q, parseDate, collate);
    forall i, j | 0 <= i < j < |r|
      ensures key(r[i]) <= key(r[j])
    {
      assert r[i] == ordered[q.skip + i] && r[j] == ordered[q.skip + j];
    }
  }

  /** Sorted by amount, ascending when asked, largest first otherwise. */
  lemma AmountOrder(rows: seq<Expense>, owner: nat, q: ListQuery, parseDate: string -> Date, collate: string -> real)
    requires q.sortBy == "amount"
    ensures var r := ListRows(rows, owner, q, parseDate, collate);
      && (q.sortOrder == "asc" ==> forall i, j :: 0 <= i < j < |r| ==> r[i].amount <= r[j].amount)
      && (q.sortOrder != "asc" ==> forall i, j :: 0 <= i < j < |r| ==> r[i].amount >= r[j].amount)
  {
    var sign := if q.sortOrder == "asc" then 1.0 else -1.0;
    var key := (e: Expense) => sign * e.amount;
    assert SortKey(q.sortBy, q.sortOrder, collate) == Some(key);
    ListSortedByKey(rows, owner, q, parseDate, collate);
    var r := ListRows(rows, owner, q, parseDate, collate);
    forall i, j | 0 <= i < j < |r|
      ensures sign * r[i].amount <= sign * r[j].amount
    {
      assert key(r[i]) <= key(r[j]);
    }
  }

  /** Sorted by date, descending, unless asked otherwise: the default order of the list. */
  lemma DefaultOrderIsNewestFirst(rows: seq<Expense>, owner: nat, q: ListQuery, parseDate: string -> Date, collate: string -> real)
    requires q.sortBy == "date" && q.sortOrder != "asc"
    ensures var r := ListRows(rows, owner, q, parseDate, collate);
      forall i, j :: 0 <= i < j < |r| ==> r[i].date.ordinal >= r[j].date.ordinal
  {
    var key := (e: Expense) => -1.0 * e.date.ordinal as real;
    assert SortKey(q.sortBy, q.sortOrder, collate) == Some(key);
    ListSortedByKey(rows, owner, q, parseDate, collate);
    var r := ListRows(rows, owner, q, parseDate, collate);
    forall i, j | 0 <= i < j < |r|
      ensures r[i].date.ordinal >= r[j].date.ordinal
    {
      assert key(r[i]) <= key(r[j]);
    }
  }

  /** With no paging cut, every matching row is listed, each as often as it is stored. */
  lemma ListKeepsEveryMatch(rows: seq<Expense>, owner: nat, q: ListQuery, parseDate: string -> Date, collate: string -> real)
    requires q.skip == 0 && q.limit >= |rows|
    ensures multiset(ListRows(rows, owner, q, parseDate, collate)) ==
      multiset(Where(rows, (e: Expense) => Matches(e, owner, q, parseDate)))
  {
    var matching := Where(rows, (e: Expense) => Matches(e, owner, q, parseDate));
    var key := SortKey(q.sortBy, q.sortOrder, collate);
    var ordered := if key.Some? then SortBy(matching, key.value) else matching;
    assert Page(ordered, 0, q.limit) == ordered;
  }

  /** The earliest date of a non-empty list. */
  function MinDate(es: seq<Expense>): (d: Date)
    requires es != []
    ensures exists i :: 0 <= i < |es| && es[i].date == d
    ensures forall i :: 0 <= i < |es| ==> d.ordinal <= es[i].date.ordinal
  {
    if |es| == 1 then es[0].date
    else
      var rest := MinDate(es[1..]);
      assert forall i :: 1 <= i < |es| ==> es[1..][i - 1] == es[i];
      if es[0].date.ordinal <= rest.ordinal then es[0].date else rest
  }

  /** The latest date of a non-empty list. */
  function MaxDate(es: seq<Expense>): (d: Date)
    requires es != []
    ensures exists i :: 0 <= i < |es| && es[i].date == d
    ensures forall i :: 0 <= i < |es| ==> es[i].date.ordinal <= d.ordinal
  {
    if |es| == 1 then es[0].date
    else
      var rest := MaxDate(es[1..]);
      assert forall i :: 1 <= i < |es| ==> es[1..][i - 1] == es[i];
      if es[0].date.ordinal >= rest.ordinal then es[0].date else rest
  }

  function ExpenseAmount(e: Expense): real {
    e.amount
  }

  /**
   * `get_expenses_summary`: over the owner's rows, the earliest and latest
   * date (None when there are none), their number and the sum of their
   * amounts (`SUM` of no rows is NULL, and `or 0.0` makes it 0.0).
   */
  function Summary(rows: seq<Expense>, owner: nat): (s: ExpenseSummary)
    ensures var mine := Where(rows, (e: Expense) => e.userId == owner);
      && s.totalExpenses == |mine|
      && s.totalAmount == Sum(mine, ExpenseAmount)
      && (s.firstExpenseDate.None? <==> mine == [])
      && (s.latestExpenseDate.None? <==> mine == [])
      && (mine != [] ==> s.firstExpenseDate.value.ordinal <= s.latestExpenseDate.value.ordinal)
      && (mine != [] ==>
            && (exists e :: e in mine && e.date == s.firstExpenseDate.value)
            && (exists e :: e in mine && e.date == s.latestExpenseDate.value)
            && (forall e :: e in mine ==> s.firstExpenseDate.value.ordinal <= e.date.ordinal <= s.latestExpenseDate.value.ordinal))
  {
    var mine := Where(rows, (e: Expense) => e.userId == owner);
    if mine == [] then ExpenseSummary(None, None, 0, 0.0)
    else
      var first, latest := MinDate(mine), MaxDate(mine);
      ExpenseSummary(Some(first), Some(latest), |mine|, Sum(mine, ExpenseAmount))
  }

  /** Every one of the owner's expenses falls between the summary's first and latest date. */
  lemma SummaryDatesBracket(rows: seq<Expense>, owner: nat, e: Expense)
    requires e in rows && e.userId == owner
    ensures var s := Summary(rows, owner);
      s.firstExpenseDate.Some? && s.firstExpenseDate.value.ordinal <= e.date.ordinal <= s.latestExpenseDate.value.ordinal
  {
    var mine := Where(rows, (x: Expense) => x.userId == owner);
    assert e in mine;
    var k :| 0 <= k < |mine| && mine[k] == e;
  }

  /**
   * The `setattr` loop of `update_expense`: description, amount and date are
   * always sent; the notes when sent; the category id is the resolved
   * category's when there is one (and `category_name` is dropped), otherwise
   * the one sent, otherwise unchanged. None means the new `category_id` is
   * null.
   */
  function UpdatedExpense(e: Expense, input: ExpenseUpdate, resolved: Option<Category>): (r: Option<Expense>)
    ensures resolved.Some? ==> r == Some(e.(description := input.description, amount := input.amount, date := input.date,
                                            notes := Apply(input.notes, e.notes), categoryId := resolved.value.id))
    ensures resolved.None? && input.categoryId.Unset? ==> r.Some? && r.value.categoryId == e.categoryId
    ensures r.Some? ==> r.value.id == e.id && r.value.userId == e.userId
    ensures r.Some? && input.notes.Unset? ==> r.value.notes == e.notes
    ensures r.Some? ==> && r.value.description == input.description && r.value.amount == input.amount
                        && r.value.date == input.date && r.value.notes == Apply(input.notes, e.notes)
    ensures resolved.None? && input.categoryId.Given? && input.categoryId.value.Some? ==>
              r.Some? && r.value.categoryId == input.categoryId.value.value
    ensures resolved.None? ==> (r.None? <==> input.categoryId == Given(None))
  {
    var categoryId := if resolved.Some? then Some(resolved.value.id) else Apply(input.categoryId, Some(e.categoryId));
    if categoryId.None? then None
    else Some(e.(description := input.description, amount := input.amount, date := input.date,
                 notes := Apply(input.notes, e.notes), categoryId := categoryId.value))
  }

  function Flatten<T>(p: Patch<Option<T>>): Option<T> {
    if p.Given? then p.value else None
  }

  class ExpenseTable {
    var rows: seq<Expense>
    var nextId: nat

    ghost predicate Valid()
      reads this
    {
      && (forall i :: 0 <= i < |rows| ==> rows[i].id < nextId)
      && (forall i, j :: 0 <= i < j < |rows| ==> rows[i].id != rows[j].id)
    }

    constructor()
      ensures rows == [] && Valid()
    {
      rows := [];
      nextId := 1;
    }

    /** `create_expense`: a row for the current user under the resolved category. */
    method Create(input: ExpenseCreate, owner: nat, categories: seq<Category>) returns (r: Result<ExpenseResponse, HttpError>)
      requires Valid()
      modifies this
      ensures Valid()
      ensures CreateCategory(categories, owner, input).Failure? ==>
        r == Failure(CreateCategory(categories, owner, input).error) && rows == old(rows)
      ensures CreateCategory(categories, owner, input).Success? ==>
        var c := CreateCategory(categories, owner, input).value;
        var e := Expense(old(nextId), input.description, input.amount, input.date, c.id, owner, input.notes);
        rows == old(rows) + [e] && r == Success(ExpenseResponse(e, c, c.name))
    {
      var category := CreateCategory(categories, owner, input);
      if category.Failure? {
        return Failure(category.error);
      }
      var c := category.value;
      var e := Expense(nextId, input.description, input.amount, input.date, c.id, owner, input.notes);
      rows := rows + [e];
      nextId := nextId + 1;
      r := Success(ExpenseResponse(e, c, c.name));
    }

    /** `read_expense` */
    function Read(id: int, owner: nat, categories: seq<Category>): (r: Result<ExpenseResponse, HttpError>)
      reads this
      ensures (forall e :: e in rows ==> !(e.id == id && e.userId == owner)) ==> r == Failure(ExpenseNotFound)
      ensures r.Success? ==> r.value.expense in rows && r.value.expense.id == id && r.value.expense.userId == owner
      ensures var i := FindFirst(rows, OwnedExpense(id, owner));
        i.Some? ==>
          && (r.Success? <==> CategoryById(categories, rows[i.value].categoryId).Some?)
          && (r.Success? ==>
                && r.value.expense == rows[i.value]
                && Some(r.value.category) == CategoryById(categories, rows[i.value].categoryId)
                && r.value.categoryName == r.value.category.name)
          && (r.Failure? ==> r.error == InternalError)
    {
      var i := FindFirst(rows, OwnedExpense(id, owner));
      if i.None? then Failure(ExpenseNotFound) else Response(rows[i.value], categories)
    }

    /** `read_expenses`: the owner's rows, paged, as responses. */
    method ReadAll(owner: nat, skip: nat, limit: nat, categories: seq<Category>) returns (r: Result<seq<ExpenseResponse>, HttpError>)
      ensures r == Responses(Page(Where(rows, (e: Expense) => e.userId == owner), skip, limit), categories)
    {
      r := ToResponses(Page(Where(rows, (e: Expense) => e.userId == owner), skip, limit), categories);
    }

    /** `get_expenses_list` */
    method List(owner: nat, q: ListQuery, parseDate: string -> Date, collate: string -> real, categories: seq<Category>)
      returns (r: Result<seq<ExpenseResponse>, HttpError>)
      ensures r == Responses(ListRows(rows, owner, q, parseDate, collate), categories)
    {
      r := ToResponses(ListRows(rows, owner, q, parseDate, collate), categories);
    }

    /** `get_expenses_by_category`: the owner's category of that name first, then its rows. */
    method ByCategory(name: string, owner: nat, skip: nat, limit: nat, categories: seq<Category>)
      returns (r: Result<seq<ExpenseResponse>, HttpError>)
      ensures var i := FindFirst(categories, (c: Category) => c.name == name && c.userId == owner);
        && (i.None? ==> r == Failure(CategoryNameNotFound(Some(name))))
        && (i.Some? ==> r == Responses(Page(Where(rows, (e: Expense) => e.categoryId == categories[i.value].id && e.userId == owner), skip, limit), categories))
    {
      var i := FindFirst(categories, (c: Category) => c.name == name && c.userId == owner);
      if i.None? {
        return Failure(CategoryNameNotFound(Some(name)));
      }
      var id := categories[i.value].id;
      r := ToResponses(Page(Where(rows, (e: Expense) => e.categoryId == id && e.userId == owner), skip, limit), categories);
    }

    /**
     * `update_expense`: 404 for a row the user does not own, then the
     * category lookup's 404s; a commit whose `category_id` is null or names
     * no category fails and changes nothing.
     */
    method Update(id: int, owner: nat, input: ExpenseUpdate, categories: seq<Category>) returns (r: Result<ExpenseResponse, HttpError>)
      requires Valid()
      modifies this
      ensures Valid() && nextId == old(nextId)
      ensures FindFirst(old(rows), OwnedExpense(id, owner)).None? ==> r == Failure(ExpenseNotFound) && rows == old(rows)
      ensures r.Failure? ==> rows == old(rows)
      ensures FindFirst(old(rows), OwnedExpense(id, owner)).Some? ==>
        var i := FindFirst(old(rows), OwnedExpense(id, owner)).value;
        var resolved := Resolve(categories, owner, Flatten(input.categoryId), Flatten(input.categoryName));
        && (resolved.Failure? ==> r == Failure(resolved.error))
        && (resolved.Success? && UpdatedExpense(old(rows)[i], input, resolved.value).None? ==> r == Failure(InternalError))
        && (resolved.Success? && UpdatedExpense(old(rows)[i], input, resolved.value).Some? ==>
              var c := CategoryById(categories, UpdatedExpense(old(rows)[i], input, resolved.value).value.categoryId);
              && (c.None? ==> r == Failure(InternalError))
              && (c.Some? ==> r.Success?))
      ensures r.Success? ==>
        var i := FindFirst(old(rows), OwnedExpense(id, owner)).value;
        var resolved := Resolve(categories, owner, Flatten(input.categoryId), Flatten(input.categoryName));
        && resolved.Success?
        && UpdatedExpense(old(rows)[i], input, resolved.value) == Some(r.value.expense)
        && rows == old(rows)[i := r.value.expense]
        && Some(r.value.category) == CategoryById(categories, r.value.expense.categoryId)
    {
      var i := FindFirst(rows, OwnedExpense(id, owner));
      if i.None? {
        return Failure(ExpenseNotFound);
      }
      var resolved := Resolve(categories, owner, Flatten(input.categoryId), Flatten(input.categoryName));
      if resolved.Failure? {
        return Failure(resolved.error);
      }
      var updated := UpdatedExpense(rows[i.value], input, resolved.value);
      if updated.None? {
        return Failure(InternalError);
      }
      var c := CategoryById(categories, updated.value.categoryId);
      if c.None? {
        return Failure(InternalError);
      }
      rows := rows[i.value := updated.value];
      r := Success(ExpenseResponse(updated.value, c.value, c.value.name));
    }

    /** `delete_expense` */
    method Delete(id: int, owner: nat) returns (r: Result<(), HttpError>)
      requires Valid()
      modifies this
      ensures Valid() && nextId == old(nextId)
      ensures var i := FindFirst(old(rows), OwnedExpense(id, owner));
        && (i.None? ==> r == Failure(ExpenseNotFound) && rows == old(rows))
        && (i.Some? ==> r == Success(()) && rows == RemoveAt(old(rows), i.value))
    {
      var i := FindFirst(rows, OwnedExpense(id, owner));
      if i.None? {
        return Failure(ExpenseNotFound);
      }
      rows := RemoveAt(rows, i.value);
      r := Success(());
    }
  }
}
