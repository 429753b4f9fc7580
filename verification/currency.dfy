/**
 * Indian-rupee money rules of the client (currencyUtils.js): the amount
 * range check, the K / L / C (thousand, lakh, crore) readable format, the
 * summary-card format and the lenient parser.
 *
 * Amounts are JavaScript numbers (`Js.Number`) with finite values kept as
 * exact reals. `Intl.NumberFormat('en-IN', …)` and `parseFloat` are
 * parameters: formatting results are first computed as a `Shown` value and
 * then rendered to text with the Intl formatter supplied.
 */
module Currency {
  import opened Wrappers
  import opened Js

  const NonPositiveMessage := "Amount must be greater than ₹0"
  const CapMessage := "Amount cannot exceed ₹99,99,99,999.99"
  /** The largest amount accepted: ₹99,99,99,999.99. */
  const Cap: real := 999999999.99

  /** `{isValid, message}` */
  datatype Validation = Validation(isValid: bool, message: string)

  /** `validateINRAmount(amount)`. Comparisons with NaN are false, so NaN passes. */
  function ValidateINRAmount(amount: Number): (r: Validation)
    ensures AtMost(amount, 0.0) ==> r == Validation(false, NonPositiveMessage)
    ensures Above(amount, Cap) ==> r == Validation(false, CapMessage)
    ensures r.isValid <==> !AtMost(amount, 0.0) && !Above(amount, Cap)
    ensures r.isValid ==> r.message == ""
  {
    if AtMost(amount, 0.0) then Validation(false, NonPositiveMessage)
    else if Above(amount, Cap) then Validation(false, CapMessage)
    else Validation(true, "")
  }

  /** A finite amount is accepted exactly when it lies in (0, Cap]. */
  lemma ValidFiniteAmounts(v: real)
    ensures ValidateINRAmount(Finite(v)).isValid <==> 0.0 < v <= Cap
  {
  }

  /** The three units of the readable format. */
  datatype Unit = Thousand | Lakh | Crore

  function UnitValue(u: Unit): (x: real)
    ensures x >= 1000.0
  {
    match u
    case Thousand => 1000.0
    case Lakh => 100000.0
    case Crore => 10000000.0
  }

  function Suffix(u: Unit): string {
    match u
    case Thousand => "K"
    case Lakh => "L"
    case Crore => "C"
  }

  /**
   * What a formatter shows, before rendering:
   * `Inr(a)` is `formatINR(a)`, `WholeZero` the literal '₹0',
   * `Bucket(n, u, rem)` is `₹{n}{suffix}` followed, when `rem` is not zero,
   * by a space and `formatINR(rem)`, and `InfiniteCrores` is what +Infinity
   * produces in the crore branch ('₹InfinityC ' followed by `formatINR(NaN)`).
   */
  datatype Shown = Inr(amount: Option<Number>) | WholeZero | Bucket(count: nat, unit: Unit, remainder: real) | InfiniteCrores

  /** An amount that `formatINR` and friends treat as "no amount": null, undefined or NaN. */
  predicate Missing(amount: Option<Number>) {
    amount.None? || amount.value.NaN?
  }

  /** `formatINR(amount)` with the currency symbol, given the Intl formatter. */
  function FormatINR(amount: Option<Number>, intl: Number -> string): (s: string)
    ensures Missing(amount) ==> s == "₹0.00"
    ensures !Missing(amount) ==> s == intl(amount.value)
  {
    if Missing(amount) then "₹0.00" else intl(amount.value)
  }

  /**
   * `formatINRReadable(amount)`: plain below 1000, otherwise the whole number
   * of thousands, lakhs or crores followed by the rest.
   */
  function FormatINRReadable(amount: Option<Number>): (r: Shown)
    ensures Missing(amount) ==> r == WholeZero
    ensures amount == Some(NegInf) ==> r == Inr(amount)
    ensures amount == Some(PosInf) ==> r == InfiniteCrores
    ensures forall v: real :: amount == Some(Finite(v)) && v < 1000.0 ==> r == Inr(amount)
    ensures forall v: real :: amount == Some(Finite(v)) && v >= 1000.0 ==>
      && r.Bucket? && r.count >= 1
      && r.count as real * UnitValue(r.unit) + r.remainder == v
      && 0.0 <= r.remainder < UnitValue(r.unit)
      && (r.unit == Thousand <==> v < 100000.0)
      && (r.unit == Crore <==> v >= 10000000.0)
  {
    if Missing(amount) then WholeZero
    else match amount.value
      case NegInf => Inr(amount)
      case PosInf => InfiniteCrores
      case Finite(v) =>
        if v < 1000.0 then Inr(amount)
        else
          var u := if v < 100000.0 then Thousand else if v < 10000000.0 then Lakh else Crore;
          var count := Bucketed(v, UnitValue(u));
          Bucket(count, u, v - count as real * UnitValue(u))
  }

  /** `Math.floor(v / unit)` for `v >= unit`, with the division identity it satisfies. */
  function Bucketed(v: real, unit: real): (count: nat)
    requires unit > 0.0 && v >= unit
    ensures count >= 1
    ensures count as real * unit <= v < (count + 1) as real * unit
  {
    FloorBounds(v, unit);
    (v / unit).Floor
  }

  lemma FloorBounds(v: real, unit: real)
    requires unit > 0.0 && v >= unit
    ensures (v / unit).Floor >= 1
    ensures (v / unit).Floor as real * unit <= v < ((v / unit).Floor + 1) as real * unit
  {
    var q := v / unit;
    var c := q.Floor;
    assert q * unit == v;
    var next: real := c as real + 1.0;
    assert q < next;
    MultiplyStrict(q, next, unit);
    assert v < next * unit;
    assert (c + 1) as real == next;
    assert 1.0 <= q by {
      if q < 1.0 {
        MultiplyStrict(q, 1.0, unit);
      }
    }
    MultiplyMonotone(c as real, q, unit);
  }

  lemma MultiplyMonotone(a: real, b: real, k: real)
    requires a <= b && k > 0.0
    ensures a * k <= b * k
  {
  }

  lemma MultiplyStrict(a: real, b: real, k: real)
    requires a < b && k > 0.0
    ensures a * k < b * k
  {
  }

  /** The text a `Shown` value renders to. */
  function Render(shown: Shown, intl: Number -> string): string {
    match shown
    case Inr(amount) => FormatINR(amount, intl)
    case WholeZero => "₹0"
    case Bucket(count, unit, remainder) =>
      var head := "₹" + NatToString(count) + Suffix(unit);
      if remainder == 0.0 then head else head + " " + FormatINR(Some(Finite(remainder)), intl)
    case InfiniteCrores => "₹InfinityC " + FormatINR(Some(NaN), intl)
  }

  /**
   * A whole number of units is shown as `₹{n}{suffix}` alone, and the digits
   * shown times the unit give back the amount.
   */
  lemma WholeBucketRoundTrip(v: real, r: Shown, intl: Number -> string)
    requires v >= 1000.0 && r == FormatINRReadable(Some(Finite(v))) && r.remainder == 0.0
    ensures Render(r, intl) == "₹" + NatToString(r.count) + Suffix(r.unit)
    ensures DigitsValue(NatToString(r.count)) as real * UnitValue(r.unit) == v
  {
    ReadableBucket(v);
    WholeBucket(r, v, intl);
  }

  lemma ReadableBucket(v: real)
    requires v >= 1000.0
    ensures var r := FormatINRReadable(Some(Finite(v)));
      r.Bucket? && r.count as real * UnitValue(r.unit) + r.remainder == v
  {
  }

  lemma WholeBucket(r: Shown, v: real, intl: Number -> string)
    requires r.Bucket? && r.count as real * UnitValue(r.unit) + r.remainder == v && r.remainder == 0.0
    ensures Render(r, intl) == "₹" + NatToString(r.count) + Suffix(r.unit)
    ensures DigitsValue(NatToString(r.count)) as real * UnitValue(r.unit) == v
  {
    NatToStringRoundTrip(r.count);
  }

  /** `formatSummaryAmount(amount)`: the readable form from one lakh up, `formatINR` below. */
  function FormatSummaryAmount(amount: Option<Number>): (r: Shown)
    ensures (amount == Some(PosInf) || exists v: real :: amount == Some(Finite(v)) && v >= 100000.0) ==>
      r == FormatINRReadable(amount)
    ensures !(amount == Some(PosInf) || exists v: real :: amount == Some(Finite(v)) && v >= 100000.0) ==>
      r == Inr(amount)
    ensures r.Bucket? ==> r.unit != Thousand
    ensures forall intl :: Missing(amount) ==> Render(r, intl) == "₹0.00"
  {
    if !Missing(amount) && (amount.value.PosInf? || (amount.value.Finite? && amount.value.v >= 100000.0)) then
      FormatINRReadable(amount)
    else
      Inr(amount)
  }

  /** The characters `parseINR` removes: the rupee sign, commas and `\s`. */
  predicate Stripped(c: char) {
    c == '₹' || c == ',' || IsSpace(c)
  }

  /** `s.replace(/[₹,\s]/g, '')` */
  function StripCurrency(s: string): (r: string)
    ensures |r| <= |s|
    ensures forall i :: 0 <= i < |r| ==> !Stripped(r[i])
    ensures (forall i :: 0 <= i < |s| ==> !Stripped(s[i])) ==> r == s
  {
    if s == [] then []
    else (if Stripped(s[0]) then [] else [s[0]]) + StripCurrency(s[1..])
  }

  /** Stripping works character by character, so it distributes over concatenation. */
  lemma {:induction false} StripCurrencyConcat(a: string, b: string)
    ensures StripCurrency(a + b) == StripCurrency(a) + StripCurrency(b)
    decreases |a|
  {
    if a != [] {
      assert (a + b)[1..] == a[1..] + b;
      StripCurrencyConcat(a[1..], b);
    } else {
      assert a + b == b;
    }
  }

  /**
   * `parseINR(text)`, given `parseFloat`: a falsy input and an unparsable
   * one both give 0; anything else is `parseFloat` of the stripped text.
   */
  function ParseINR(text: Option<string>, parseFloat: string -> Number): (n: Number)
    ensures !n.NaN?
    ensures (text.None? || text.value == "") ==> n == Finite(0.0)
    ensures text.Some? && text.value != "" ==>
      var parsed := parseFloat(StripCurrency(text.value));
      (if parsed.NaN? then n == Finite(0.0) else n == parsed)
  {
    if text.None? || text.value == "" then Finite(0.0)
    else
      var parsed := parseFloat(StripCurrency(text.value));
      if parsed.NaN? then Finite(0.0) else parsed
  }

  /**
   * Parsing ignores the currency decoration: the text and its stripped form
   * parse to the same number (given that `parseFloat("")` is NaN).
   */
  lemma ParseIgnoresDecoration(text: string, parseFloat: string -> Number)
    requires parseFloat("").NaN?
    ensures ParseINR(Some(text), parseFloat) == ParseINR(Some(StripCurrency(text)), parseFloat)
  {
  }

  /** A separator between two pieces of text (such as the commas of ₹1,23,456.78) is dropped and the pieces are joined. */
  lemma SeparatorDropped(a: string, sep: char, b: string)
    requires Stripped(sep)
    ensures StripCurrency(a + [sep] + b) == StripCurrency(a) + StripCurrency(b)
  {
    StripCurrencyConcat(a + [sep], b);
    StripCurrencyConcat(a, [sep]);
  }
}
