/**
 * The request and response shapes of the backend. Dates are Python `date`
 * values, kept as their proleptic Gregorian ordinal so that comparison and
 * subtraction are those of `date`. A field that a request may leave out is a
 * `Patch`: `Unset` when the client did not send it (so `exclude_unset`
 * drops it), `Given` when it did, possibly with null.
 */
module Schemas {
  import opened Wrappers

  datatype Date = Date(ordinal: int)

  datatype Patch<T> = Unset | Given(value: T)

  /** `setattr(row, field, value)` when the field was sent; the current value otherwise. */
  function Apply<T>(p: Patch<T>, current: T): T {
    if p.Given? then p.value else current
  }

  /** An HTTP error response: its status code and `detail`. */
  datatype HttpError = HttpError(status: int, detail: string)

  /** What an exception escaping an endpoint (a failed commit, say) becomes. */
  const InternalError := HttpError(500, "Internal Server Error")

  datatype InvestmentType =
    | Sip | Stocks | Lic | MutualFunds | FixedDeposit | Gold
    | RealEstate | Crypto | Bonds | Ppf | Nps | OtherType

  const AllInvestmentTypes: seq<InvestmentType> :=
    [Sip, Stocks, Lic, MutualFunds, FixedDeposit, Gold, RealEstate, Crypto, Bonds, Ppf, Nps, OtherType]

  /** The string value of each `InvestmentType` member. */
  function TypeLabel(t: InvestmentType): string {
    match t
    case Sip => "SIP"
    case Stocks => "Stocks"
    case Lic => "LIC"
    case MutualFunds => "Mutual Funds"
    case FixedDeposit => "Fixed Deposit"
    case Gold => "Gold"
    case RealEstate => "Real Estate"
    case Crypto => "Cryptocurrency"
    case Bonds => "Bonds"
    case Ppf => "PPF"
    case Nps => "NPS"
    case OtherType => "Other"
  }

  /** Validation of a request string against the enumeration: by value. */
  function ParseType(s: string): (t: Option<InvestmentType>)
    ensures t.Some? ==> TypeLabel(t.value) == s
  {
    if s == "SIP" then Some(Sip)
    else if s == "Stocks" then Some(Stocks)
    else if s == "LIC" then Some(Lic)
    else if s == "Mutual Funds" then Some(MutualFunds)
    else if s == "Fixed Deposit" then Some(FixedDeposit)
    else if s == "Gold" then Some(Gold)
    else if s == "Real Estate" then Some(RealEstate)
    else if s == "Cryptocurrency" then Some(Crypto)
    else if s == "Bonds" then Some(Bonds)
    else if s == "PPF" then Some(Ppf)
    else if s == "NPS" then Some(Nps)
    else if s == "Other" then Some(OtherType)
    else None
  }

  /** Every type's value parses back to that type, and there are exactly twelve of them. */
  lemma TypeLabelsRoundTrip(t: InvestmentType)
    ensures ParseType(TypeLabel(t)) == Some(t)
    ensures t in AllInvestmentTypes && |AllInvestmentTypes| == 12
    ensures forall i, j :: 0 <= i < j < |AllInvestmentTypes| ==> AllInvestmentTypes[i] != AllInvestmentTypes[j]
  {
  }

  datatype InvestmentStatus = Active | Paused | Completed | Sold | Matured

  const AllInvestmentStatuses: seq<InvestmentStatus> := [Active, Paused, Completed, Sold, Matured]

  function StatusLabel(s: InvestmentStatus): string {
    match s
    case Active => "Active"
    case Paused => "Paused"
    case Completed => "Completed"
    case Sold => "Sold"
    case Matured => "Matured"
  }

  function ParseStatus(s: string): (r: Option<InvestmentStatus>)
    ensures r.Some? ==> StatusLabel(r.value) == s
  {
    if s == "Active" then Some(Active)
    else if s == "Paused" then Some(Paused)
    else if s == "Completed" then Some(Completed)
    else if s == "Sold" then Some(Sold)
    else if s == "Matured" then Some(Matured)
    else None
  }

  lemma StatusLabelsRoundTrip(s: InvestmentStatus)
    ensures ParseStatus(StatusLabel(s)) == Some(s)
    ensures s in AllInvestmentStatuses && |AllInvestmentStatuses| == 5
  {
  }

  /** `InvestmentBase` / `InvestmentCreate`. */
  datatype InvestmentCreate = InvestmentCreate(
    name: string,
    investmentType: InvestmentType,
    amount: real,
    date: Date,
    status: InvestmentStatus,
    description: Option<string>,
    institution: Option<string>,
    accountNumber: Option<string>,
    folioNumber: Option<string>,
    units: Option<real>,
    nav: Option<real>,
    maturityDate: Option<Date>,
    interestRate: Option<real>,
    frequency: Option<string>,
    isSip: bool,
    sipAmount: Option<real>,
    sipFrequency: Option<string>)

  /** A create request that sends only the four required fields: every default applies. */
  function MinimalInvestment(name: string, investmentType: InvestmentType, amount: real, date: Date): (i: InvestmentCreate)
    ensures i.status == Active && !i.isSip && i.sipAmount.None? && i.sipFrequency.None?
    ensures i.maturityDate.None? && i.units.None? && i.nav.None? && i.interestRate.None?
  {
    InvestmentCreate(name, investmentType, amount, date, Active, None, None, None, None, None, None, None, None, None, false, None, None)
  }

  /** `InvestmentUpdate`: every field may be left out, or sent (null included). */
  datatype InvestmentUpdate = InvestmentUpdate(
    name: Patch<Option<string>>,
    investmentType: Patch<Option<InvestmentType>>,
    amount: Patch<Option<real>>,
    date: Patch<Option<Date>>,
    status: Patch<Option<InvestmentStatus>>,
    description: Patch<Option<string>>,
    institution: Patch<Option<string>>,
    accountNumber: Patch<Option<string>>,
    folioNumber: Patch<Option<string>>,
    units: Patch<Option<real>>,
    nav: Patch<Option<real>>,
    maturityDate: Patch<Option<Date>>,
    interestRate: Patch<Option<real>>,
    frequency: Patch<Option<string>>,
    isSip: Patch<Option<bool>>,
    sipAmount: Patch<Option<real>>,
    sipFrequency: Patch<Option<string>>)

  const EmptyInvestmentUpdate := InvestmentUpdate(Unset, Unset, Unset, Unset, Unset, Unset, Unset, Unset, Unset,
                                                  Unset, Unset, Unset, Unset, Unset, Unset, Unset, Unset)

  /**
   * `ExpenseCreate`: the three `ExpenseBase` fields are required, the notes
   * and both category fields optional, and nothing demands one of the two
   * category fields (that validator is commented out).
   */
  datatype ExpenseCreate = ExpenseCreate(
    description: string, amount: real, date: Date, notes: Option<string>,
    categoryId: Option<int>, categoryName: Option<string>)

  /**
   * `ExpenseUpdate` extends `ExpenseBase`, so description, amount and date
   * are required in an update too; only the rest can be left out.
   */
  datatype ExpenseUpdate = ExpenseUpdate(
    description: string, amount: real, date: Date, notes: Patch<Option<string>>,
    categoryId: Patch<Option<int>>, categoryName: Patch<Option<string>>)

  datatype CategoryIn = CategoryIn(name: string, description: Patch<Option<string>>, color: Patch<Option<string>>)

  datatype UserCreate = UserCreate(email: string, username: string, fullName: Option<string>, password: string)

  datatype UserUpdate = UserUpdate(
    email: Patch<Option<string>>, username: Patch<Option<string>>,
    fullName: Patch<Option<string>>, isActive: Patch<Option<string>>)

  datatype Token = Token(accessToken: string, tokenType: string, expiresIn: int, refreshToken: string)

  datatype ExpenseSummary = ExpenseSummary(
    firstExpenseDate: Option<Date>, latestExpenseDate: Option<Date>, totalExpenses: nat, totalAmount: real)

  /** Python truthiness of an optional id: None and 0 are falsy. */
  predicate TruthyId(v: Option<int>) {
    v.Some? && v.value != 0
  }

  /** Python truthiness of an optional string: None and "" are falsy. */
  predicate TruthyText(v: Option<string>) {
    v.Some? && v.value != ""
  }

  /** `f"{v}"` for an optional string: None prints as `None`. */
  function PyText(v: Option<string>): string {
    if v.Some? then v.value else "None"
  }
}
