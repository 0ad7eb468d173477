/**
 * The float64 values the core manipulates, taken as exact reals extended with
 * the three IEEE-754 special values that the code relies on: metric slots start
 * as NaN, the best validation NLL starts as +infinity, the normal quantiles of
 * the levels 0 and 1 are -infinity and +infinity, and numpy turns a division by
 * zero into an infinity or NaN instead of raising. Rounding and signed zeros are
 * not modelled.
 */
module Floats {

  datatype Float = NaN | NegInf | PosInf | Num(v: real)

  /** IEEE-754 `a < b`: false as soon as either side is NaN. */
  predicate Less(a: Float, b: Float) {
    match a
    case NaN => false
    case NegInf => b.Num? || b.PosInf?
    case PosInf => false
    case Num(x) => b.PosInf? || (b.Num? && x < b.v)
  }

  /** IEEE-754 `a <= b`: false as soon as either side is NaN. */
  predicate AtMost(a: Float, b: Float) {
    Less(a, b) || (a == b && !a.NaN?)
  }

  /** IEEE-754 `a + b`. */
  function Add(a: Float, b: Float): (r: Float)
    ensures a.Num? && b.Num? ==> r == Num(a.v + b.v)
    ensures a.NaN? || b.NaN? ==> r.NaN?
  {
    match (a, b)
    case (NaN, _) => NaN
    case (_, NaN) => NaN
    case (PosInf, NegInf) => NaN
    case (NegInf, PosInf) => NaN
    case (PosInf, _) => PosInf
    case (_, PosInf) => PosInf
    case (NegInf, _) => NegInf
    case (_, NegInf) => NegInf
    case (Num(x), Num(y)) => Num(x + y)
  }

  /** IEEE-754 `a - b`. */
  function Sub(a: Float, b: Float): (r: Float)
    ensures a.Num? && b.Num? ==> r == Num(a.v - b.v)
    ensures a.NaN? || b.NaN? ==> r.NaN?
  {
    Add(a, Neg(b))
  }

  function Neg(a: Float): Float {
    match a
    case NaN => NaN
    case NegInf => PosInf
    case PosInf => NegInf
    case Num(x) => Num(-x)
  }

  /** IEEE-754 `a * a`: never negative, NaN only for NaN. */
  function Square(a: Float): (r: Float)
    ensures r.Num? <==> a.Num?
    ensures r.Num? ==> r.v >= 0.0
    ensures r.NaN? <==> a.NaN?
  {
    match a
    case NaN => NaN
    case NegInf => PosInf
    case PosInf => PosInf
    case Num(x) => Num(x * x)
  }

  /** IEEE-754 `a / b`; a zero divisor yields a signed infinity, or NaN for `0 / 0`. */
  function Div(a: Float, b: Float): (r: Float)
    ensures a.Num? && b.Num? && b.v != 0.0 ==> r == Num(a.v / b.v)
    ensures a.Num? && b == Num(0.0) ==>
      r == (if a.v > 0.0 then PosInf else if a.v < 0.0 then NegInf else NaN)
    ensures a.NaN? || b.NaN? ==> r.NaN?
  {
    match (a, b)
    case (NaN, _) => NaN
    case (_, NaN) => NaN
    case (Num(x), Num(y)) =>
      if y != 0.0 then Num(x / y)
      else if x > 0.0 then PosInf
      else if x < 0.0 then NegInf
      else NaN
    case (Num(_), _) => Num(0.0)
    case (_, Num(y)) =>
      // an infinity divided by a finite number keeps its magnitude
      if y < 0.0 then Neg(a) else a
    case (_, _) => NaN
  }

  /** `a <= b` is transitive, which is what makes a sorted list of bounds sorted. */
  lemma AtMostTransitive(a: Float, b: Float, c: Float)
    requires AtMost(a, b) && AtMost(b, c)
    ensures AtMost(a, c)
  {
  }

  /** `a < b` is transitive. */
  lemma LessTransitive(a: Float, b: Float, c: Float)
    requires Less(a, b) && Less(b, c)
    ensures Less(a, c)
  {
  }

  /** The product of two positive reals is positive. */
  lemma PositiveProduct(a: real, b: real)
    requires a > 0.0 && b > 0.0
    ensures a * b > 0.0
  {
  }
}
