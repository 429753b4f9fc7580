/**
 * A numeric input of the client's forms: the text typed into an
 * `<input type="number">`, or the number loaded from a record being edited.
 * The forms test it for truthiness, compare it with 0 (which applies
 * `ToNumber` to a string) and read it with `parseFloat`; both conversions
 * are parameters.
 */
module FormInputs {
  import opened Js

  datatype NumberInput = Typed(text: string) | Loaded(n: Number)

  /** JavaScript truthiness: the empty text, 0 and NaN are falsy. */
  predicate Truthy(v: NumberInput) {
    match v
    case Typed(s) => |s| != 0
    case Loaded(n) => NumberTruthy(n)
  }

  /** `value <= 0` */
  predicate NotPositive(v: NumberInput, toNumber: string -> Number) {
    match v
    case Typed(s) => AtMost(toNumber(s), 0.0)
    case Loaded(n) => AtMost(n, 0.0)
  }

  /** `parseFloat(value)`: a loaded number is read back as itself. */
  function Parse(v: NumberInput, parseFloat: string -> Number): Number {
    match v
    case Typed(s) => parseFloat(s)
    case Loaded(n) => n
  }
}
