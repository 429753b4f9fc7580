/**
 * The investment form: a record of seventeen inputs, an error map that
 * `validateForm` rebuilds check by check, and the payload `handleSubmit`
 * sends.
 */
module InvestmentForm {
  import opened Wrappers
  import opened Js
  import opened ClientRecords
  import opened FormInputs

  datatype Field =
    | Name | InvestmentType | Amount | Date | Status | Description | Institution
    | AccountNumber | FolioNumber | Units | Nav | MaturityDate | InterestRate
    | Frequency | IsSip | SipAmount | SipFrequency

  /** What an input hands to `handleChange`. */
  datatype Input = TextIn(s: string) | NumberIn(v: NumberInput) | DateIn(d: Option<CivilDate>) | FlagIn(b: bool)

  datatype InvestmentData = InvestmentData(
    name: string, investmentType: string, amount: NumberInput, date: Option<CivilDate>,
    status: string, description: string, institution: string, accountNumber: string,
    folioNumber: string, units: NumberInput, nav: NumberInput, maturityDate: Option<CivilDate>,
    interestRate: NumberInput, frequency: string, isSip: bool, sipAmount: NumberInput,
    sipFrequency: string)

  /** The form as it opens: empty inputs, today's date, status 'Active', SIP off. */
  function InitialData(today: CivilDate): (data: InvestmentData)
    ensures data.date == Some(today) && data.status == "Active" && !data.isSip && data.maturityDate.None?
    ensures data.name == "" && data.amount == Typed("") && data.sipAmount == Typed("")
  {
    InvestmentData("", "", Typed(""), Some(today), "Active", "", "", "", "", Typed(""), Typed(""),
                   None, Typed(""), "", false, Typed(""), "")
  }

  /** The kind of input each field takes. */
  predicate Fits(f: Field, i: Input) {
    match f
    case Amount | Units | Nav | InterestRate | SipAmount => i.NumberIn?
    case Date | MaturityDate => i.DateIn?
    case IsSip => i.FlagIn?
    case _ => i.TextIn?
  }

  /** `formData[field]` */
  function Get(data: InvestmentData, f: Field): (i: Input)
    ensures Fits(f, i)
  {
    match f
    case Name => TextIn(data.name)
    case InvestmentType => TextIn(data.investmentType)
    case Amount => NumberIn(data.amount)
    case Date => DateIn(data.date)
    case Status => TextIn(data.status)
    case Description => TextIn(data.description)
    case Institution => TextIn(data.institution)
    case AccountNumber => TextIn(data.accountNumber)
    case FolioNumber => TextIn(data.folioNumber)
    case Units => NumberIn(data.units)
    case Nav => NumberIn(data.nav)
    case MaturityDate => DateIn(data.maturityDate)
    case InterestRate => NumberIn(data.interestRate)
    case Frequency => TextIn(data.frequency)
    case IsSip => FlagIn(data.isSip)
    case SipAmount => NumberIn(data.sipAmount)
    case SipFrequency => TextIn(data.sipFrequency)
  }

  /** `{ ...formData, [field]: value }`: that field changes and no other. */
  function With(data: InvestmentData, f: Field, i: Input): (r: InvestmentData)
    requires Fits(f, i)
  {
    match f
    case Name => data.(name := i.s)
    case InvestmentType => data.(investmentType := i.s)
    case Amount => data.(amount := i.v)
    case Date => data.(date := i.d)
    case Status => data.(status := i.s)
    case Description => data.(description := i.s)
    case Institution => data.(institution := i.s)
    case AccountNumber => data.(accountNumber := i.s)
    case FolioNumber => data.(folioNumber := i.s)
    case Units => data.(units := i.v)
    case Nav => data.(nav := i.v)
    case MaturityDate => data.(maturityDate := i.d)
    case InterestRate => data.(interestRate := i.v)
    case Frequency => data.(frequency := i.s)
    case IsSip => data.(isSip := i.b)
    case SipAmount => data.(sipAmount := i.v)
    case SipFrequency => data.(sipFrequency := i.s)
  }

  /** Setting one field leaves every other field as it was. */
  lemma WithChangesOnlyThatField(data: InvestmentData, f: Field, i: Input, g: Field)
    requires Fits(f, i)
    ensures Get(With(data, f, i), g) == if g == f then i else Get(data, g)
  {
  }

  /** `!value || value <= 0` */
  predicate MissingAmount(v: NumberInput, toNumber: string -> Number) {
    !Truthy(v) || NotPositive(v, toNumber)
  }

  const NameRequired := "Investment name is required"
  const TypeRequired := "Investment type is required"
  const AmountRequired := "Amount must be greater than 0"
  const DateRequired := "Date is required"
  const SipAmountRequired := "SIP amount is required when SIP is enabled"
  const SipFrequencyRequired := "SIP frequency is required when SIP is enabled"

  /** One check of the chain: records `message` under `f` when `failed`. */
  function Check(errors: map<Field, string>, failed: bool, f: Field, message: string): map<Field, string> {
    if failed then errors[f := message] else errors
  }


  /**
   * The error map `validateForm` builds: one entry per failed check, and only
   * the six checked fields can appear. The SIP checks apply only when SIP is
   * on, whatever the investment type.
   */
  function FormErrors(data: InvestmentData, toNumber: string -> Number): (r: map<Field, string>)
    ensures Name in r <==> Blank(data.name)
    ensures InvestmentType in r <==> data.investmentType == ""
    ensures Amount in r <==> MissingAmount(data.amount, toNumber)
    ensures Date in r <==> data.date.None?
    ensures SipAmount in r <==> data.isSip && MissingAmount(data.sipAmount, toNumber)
    ensures SipFrequency in r <==> data.isSip && data.sipFrequency == ""
  {
    var name := Check(map[], Blank(data.name), Name, NameRequired);
    var kind := Check(name, data.investmentType == "", InvestmentType, TypeRequired);
    var amount := Check(kind, MissingAmount(data.amount, toNumber), Amount, AmountRequired);
    var date := Check(amount, data.date.None?, Date, DateRequired);
    var sip := Check(date, data.isSip && MissingAmount(data.sipAmount, toNumber), SipAmount, SipAmountRequired);
    Check(sip, data.isSip && data.sipFrequency == "", SipFrequency, SipFrequencyRequired)
  }

  /** Only the six checked fields can carry an error, and each carries its message. */
  lemma ErrorsOnCheckedFields(data: InvestmentData, toNumber: string -> Number, f: Field)
    requires f in FormErrors(data, toNumber)
    ensures f in {Name, InvestmentType, Amount, Date, SipAmount, SipFrequency}
    ensures FormErrors(data, toNumber)[f] == match f
      case Name => NameRequired
      case InvestmentType => TypeRequired
      case Amount => AmountRequired
      case Date => DateRequired
      case SipAmount => SipAmountRequired
      case _ => SipFrequencyRequired
  {
  }

  /** The form passes exactly when every required value is there and positive. */
  lemma FormValidIff(data: InvestmentData, toNumber: string -> Number)
    ensures FormErrors(data, toNumber) == map[] <==>
      && !Blank(data.name) && data.investmentType != ""
      && !MissingAmount(data.amount, toNumber) && data.date.Some?
      && (data.isSip ==> !MissingAmount(data.sipAmount, toNumber) && data.sipFrequency != "")
  {
    var r := FormErrors(data, toNumber);
    if r != map[] {
      var f :| f in r;
    }
  }

  /** With SIP off, the SIP inputs are never checked. */
  lemma SipInputsIgnoredWhenOff(data: InvestmentData, toNumber: string -> Number, sipAmount: NumberInput, sipFrequency: string)
    requires !data.isSip
    ensures FormErrors(data.(sipAmount := sipAmount, sipFrequency := sipFrequency), toNumber) == FormErrors(data, toNumber)
  {
  }

  /** What `handleSubmit` sends; the dates are what `format('YYYY-MM-DD')` renders. */
  datatype InvestmentPayload = InvestmentPayload(
    name: string, investmentType: string, amount: Number, date: CivilDate,
    status: string, description: string, institution: string, accountNumber: string,
    folioNumber: string, units: Option<Number>, nav: Option<Number>, maturityDate: Option<CivilDate>,
    interestRate: Option<Number>, frequency: string, isSip: bool, sipAmount: Option<Number>,
    sipFrequency: string)

  /** `value ? parseFloat(value) : null` */
  function OptionalNumber(v: NumberInput, parseFloat: string -> Number): (r: Option<Number>)
    ensures r.None? <==> !Truthy(v)
    ensures r.Some? ==> r.value == Parse(v, parseFloat)
  {
    if Truthy(v) then Some(Parse(v, parseFloat)) else None
  }

  /**
   * The payload of `handleSubmit`: the form's values, with the amount parsed,
   * the optional numbers parsed or null, and the date formatted (the form has
   * passed validation, so there is one).
   */
  function Payload(data: InvestmentData, parseFloat: string -> Number): (p: InvestmentPayload)
    requires data.date.Some?
    ensures p.amount == Parse(data.amount, parseFloat) && p.date == data.date.value
    ensures p.maturityDate == data.maturityDate
    ensures p.units == OptionalNumber(data.units, parseFloat) && p.nav == OptionalNumber(data.nav, parseFloat)
    ensures p.interestRate == OptionalNumber(data.interestRate, parseFloat)
    ensures p.sipAmount == OptionalNumber(data.sipAmount, parseFloat)
    ensures p.name == data.name && p.investmentType == data.investmentType && p.status == data.status
    ensures p.isSip == data.isSip && p.sipFrequency == data.sipFrequency && p.frequency == data.frequency
    ensures p.description == data.description && p.institution == data.institution
    ensures p.accountNumber == data.accountNumber && p.folioNumber == data.folioNumber
  {
    InvestmentPayload(
      data.name, data.investmentType, Parse(data.amount, parseFloat), data.date.value,
      data.status, data.description, data.institution, data.accountNumber, data.folioNumber,
      OptionalNumber(data.units, parseFloat), OptionalNumber(data.nav, parseFloat),
      data.maturityDate, OptionalNumber(data.interestRate, parseFloat), data.frequency,
      data.isSip, OptionalNumber(data.sipAmount, parseFloat), data.sipFrequency)
  }

  /** The API call a submission makes. */
  datatype InvestmentCall =
    | NoCall
    | CreateInvestment(payload: InvestmentPayload)
    | UpdateInvestment(id: int, payload: InvestmentPayload)

  class InvestmentFormState {
    const toNumber: string -> Number
    const parseFloat: string -> Number
    var formData: InvestmentData
    var errors: map<Field, string>
    var isSubmitting: bool

    constructor(toNumber: string -> Number, parseFloat: string -> Number, today: CivilDate)
      ensures formData == InitialData(today) && errors == map[] && !isSubmitting
      ensures this.toNumber == toNumber && this.parseFloat == parseFloat
    {
      this.toNumber := toNumber;
      this.parseFloat := parseFloat;
      formData := InitialData(today);
      errors := map[];
      isSubmitting := false;
    }

    /**
     * `handleChange(field, value)`: sets that one field; a shown error on it
     * is blanked (the key stays, with an empty message).
     */
    method HandleChange(field: Field, value: Input)
      requires Fits(field, value)
      modifies this`formData, this`errors
      ensures formData == With(old(formData), field, value)
      ensures errors == if field in old(errors) && old(errors)[field] != "" then old(errors)[field := ""] else old(errors)
    {
      formData := With(formData, field, value);
      if field in errors && errors[field] != "" {
        errors := errors[field := ""];
      }
    }

    /** `validateForm`: replaces the error map and reports whether it is empty. */
    method ValidateForm() returns (ok: bool)
      modifies this`errors
      ensures errors == FormErrors(formData, toNumber)
      ensures ok <==> errors == map[]
    {
      var newErrors := FormErrors(formData, toNumber);
      errors := newErrors;
      ok := |newErrors| == 0;
    }

    /**
     * `handleSubmit`: an invalid form makes no call and leaves `isSubmitting`
     * alone; a valid one updates the current investment when there is one and
     * creates otherwise, and `isSubmitting` ends false.
     */
    method HandleSubmit(currentInvestment: Option<int>) returns (call: InvestmentCall)
      modifies this`errors, this`isSubmitting
      ensures errors == FormErrors(formData, toNumber)
      ensures call == NoCall <==> errors != map[]
      ensures errors == map[] ==>
        (formData.date.Some? && call ==
         if currentInvestment.Some? then UpdateInvestment(currentInvestment.value, Payload(formData, parseFloat))
         else CreateInvestment(Payload(formData, parseFloat)))
      ensures isSubmitting == if call == NoCall then old(isSubmitting) else false
    {
      var ok := ValidateForm();
      if !ok {
        return NoCall;
      }
      FormValidIff(formData, toNumber);
      isSubmitting := true;
      var investmentData := Payload(formData, parseFloat);
      if currentInvestment.Some? {
        call := UpdateInvestment(currentInvestment.value, investmentData);
      } else {
        call := CreateInvestment(investmentData);
      }
      isSubmitting := false;
    }
  }
}
