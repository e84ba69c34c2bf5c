/**
 * The JavaScript value semantics the dashboard relies on: numbers that may be
 * null, missing or not-a-number, the coercions of the arithmetic operators and
 * of `x || 0`, and the two-decimal rounding of `toFixed(2)`.
 */
module Js {

  datatype Option<+T> = None | Some(value: T) {
    function GetOr(default: T): T {
      match this
      case Some(v) => v
      case None => default
    }
  }

  /**
   * A JavaScript number as the record store hands it over. `Null` is the
   * store's null, which arithmetic reads as 0; `Undefined` is a missing
   * property; `NaN` is the not-a-number value. A finite quotient by zero
   * (an infinity) is also represented by `NaN`: every use the core makes of
   * such a value treats the two alike.
   */
  datatype JsNumber = Num(v: real) | Null | Undefined | NaN

  /** Numeric coercion performed by `+`, `-`, `*` and `/`; `None` is NaN. */
  function ToNumber(x: JsNumber): Option<real> {
    match x
    case Num(v) => Some(v)
    case Null => Some(0.0)
    case _ => None
  }

  /** `isNaN(x)`: true exactly when numeric coercion fails. */
  predicate IsNaN(x: JsNumber) {
    ToNumber(x).None?
  }

  /** JavaScript truthiness of a number: non-zero and not NaN, null or undefined. */
  predicate Truthy(x: JsNumber) {
    x.Num? && x.v != 0.0
  }

  /** `x || 0` */
  function OrZero(x: JsNumber): real {
    if Truthy(x) then x.v else 0.0
  }

  function Add(a: JsNumber, b: JsNumber): JsNumber {
    match (ToNumber(a), ToNumber(b))
    case (Some(x), Some(y)) => Num(x + y)
    case _ => NaN
  }

  function Sub(a: JsNumber, b: JsNumber): JsNumber {
    match (ToNumber(a), ToNumber(b))
    case (Some(x), Some(y)) => Num(x - y)
    case _ => NaN
  }

  function Mul(a: JsNumber, b: JsNumber): JsNumber {
    match (ToNumber(a), ToNumber(b))
    case (Some(x), Some(y)) => Num(x * y)
    case _ => NaN
  }

  /** Division; a zero divisor gives an infinity or NaN, both represented by `NaN`. */
  function Div(a: JsNumber, b: JsNumber): JsNumber {
    match (ToNumber(a), ToNumber(b))
    case (Some(x), Some(y)) => if y == 0.0 then NaN else Num(x / y)
    case _ => NaN
  }

  /** The results of the arithmetic operators are numbers or NaN, never null or undefined. */
  lemma ArithmeticIsNumeric(a: JsNumber, b: JsNumber)
    ensures Add(a, b).Num? || Add(a, b).NaN?
    ensures Sub(a, b).Num? || Sub(a, b).NaN?
    ensures Mul(a, b).Num? || Mul(a, b).NaN?
    ensures Div(a, b).Num? || Div(a, b).NaN?
  {
  }

  /** A real that is a whole number of hundredths, as the text `toFixed(2)` denotes. */
  predicate IsCents(x: real) {
    (x * 100.0).Floor as real == x * 100.0
  }

  /**
   * The value denoted by `x.toFixed(2)`: `x` rounded to the nearest hundredth,
   * halves rounded away from zero. Decimal/binary conversion effects of the
   * floating-point original are not modelled.
   */
  function Round2(x: real): (r: real)
    ensures IsCents(r)
    ensures -0.005 <= r - x <= 0.005
    ensures x >= 0.0 ==> r >= 0.0
  {
    var n := if x >= 0.0 then (x * 100.0 + 0.5).Floor else -((-x) * 100.0 + 0.5).Floor;
    CentsOfInt(n);
    n as real / 100.0
  }

  lemma CentsOfInt(n: int)
    ensures IsCents(n as real / 100.0)
  {
    assert (n as real / 100.0) * 100.0 == n as real;
  }

  /** Rounding to hundredths leaves a whole number of hundredths unchanged. */
  lemma Round2OfCents(x: real)
    requires IsCents(x)
    ensures Round2(x) == x
  {
    var n := (x * 100.0).Floor;
    if x >= 0.0 {
      assert (x * 100.0 + 0.5).Floor == n;
    } else {
      assert ((-x) * 100.0 + 0.5).Floor == -n;
    }
  }

  /** `toFixed(2)` is idempotent. */
  lemma Round2Idempotent(x: real)
    ensures Round2(Round2(x)) == Round2(x)
  {
    Round2OfCents(Round2(x));
  }
}
