/**
 * The JavaScript values the sales component observes: `null`, numbers
 * (NaN included), the untyped property values of a fetched JSON record,
 * and the built-in number conversions, which are left abstract.
 */
module Js {

  /** A value of TypeScript type `T | null`. */
  datatype Nullable<+T> = Null | NonNull(value: T)

  /**
   * A JavaScript number. Only what the component can tell apart is kept:
   * NaN, the two infinities and a finite value (the sign of zero and the
   * rounding of a double are not modelled).
   */
  datatype Number = NaN | Infinity(negative: bool) | Finite(value: real)

  /** `isNaN(n)` on a value that is already a number. */
  predicate IsNaN(n: Number) {
    n.NaN?
  }

  /** `a === b` on two numbers: NaN is equal to nothing, itself included. */
  predicate StrictEquals(a: Number, b: Number) {
    !a.NaN? && a == b
  }

  /**
   * JavaScript truthiness of a `number | null`: `null`, `0` and `NaN` are
   * falsy, every other number (the infinities included) is truthy.
   */
  predicate Truthy(n: Nullable<Number>) {
    n.NonNull? && !n.value.NaN? && n.value != Finite(0.0)
  }

  /**
   * One property of an element of the fetched JSON array, before coercion.
   * `Other` stands for `null`, `undefined` (a missing property), a boolean
   * or an object, and carries what `String(v)` and `Number(v)` give for it.
   */
  datatype RawValue =
    | Str(text: string)
    | Num(number: Number)
    | Other(asString: string, asNumber: Number)

  /**
   * The built-in conversions, left abstract: `parseFloat` and `Number` on a
   * string, and `Number.prototype.toString`.
   */
  datatype Conversions = Conversions(
    parseFloat: string -> Number,
    toNumber: string -> Number,
    toText: Number -> string)

  /**
   * `parseFloat(v)`: the argument is first converted to a string, so a number
   * comes back as itself and any other value is parsed from its string form.
   * (`Number(parseFloat(v))` is the same number.) A number is taken back
   * unchanged here while `conv.parseFloat(conv.toText(n))` is left free: the
   * two are deliberately independent, so a round trip through the text form
   * is an assumption wherever it is used.
   */
  function ParseFloat(conv: Conversions, v: RawValue): Number {
    match v
    case Str(s) => conv.parseFloat(s)
    case Num(n) => n
    case Other(s, _) => conv.parseFloat(s)
  }

  /** `Number(v)`. */
  function ToNumber(conv: Conversions, v: RawValue): Number {
    match v
    case Str(s) => conv.toNumber(s)
    case Num(n) => n
    case Other(_, n) => n
  }
}
