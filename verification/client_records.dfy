/**
 * The expense record as the client receives it from the expenses API: the
 * fields the client-side aggregations read. Dates are calendar dates; the
 * month key is what `dayjs(date).format('YYYY-MM')` denotes.
 */
module ClientRecords {
  import opened Wrappers

  datatype CivilDate = CivilDate(year: int, month: int, day: int)

  /** A year-month, the key `'YYYY-MM'` of the monthly view. */
  datatype MonthKey = MonthKey(year: int, month: int)

  /**
   * One expense: `category_name` and the nested `category.name` are both
   * optional in the client's view (None is `undefined`).
   */
  datatype ClientExpense = ClientExpense(
    id: int,
    description: string,
    amount: real,
    date: CivilDate,
    categoryName: Option<string>,
    nestedCategoryName: Option<string>)

  function MonthOf(e: ClientExpense): MonthKey {
    MonthKey(e.date.year, e.date.month)
  }

  function AmountOf(e: ClientExpense): real {
    e.amount
  }

  /** `expense.category_name || expense.category?.name` */
  function Label(e: ClientExpense): Option<string> {
    if e.categoryName.Some? && e.categoryName.value != "" then e.categoryName else e.nestedCategoryName
  }

  /**
   * `a.monthKey.localeCompare(b.monthKey) > 0` for 'YYYY-MM' keys with
   * four-digit years: year first, then month.
   */
  predicate Later(a: MonthKey, b: MonthKey) {
    a.year > b.year || (a.year == b.year && a.month > b.month)
  }
}
