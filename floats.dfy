/**
 * The part of IEEE-754 double arithmetic the rate estimator and the budget rely on:
 * division that may produce infinities or NaN, and the `>` comparison, which is false
 * whenever NaN is involved. Rounding is not modelled: finite values are exact reals.
 */
module Floats {

  datatype Float = Finite(v: real) | PosInf | NegInf | NaN

  /**
   * Quotient `a / b`. A zero divisor is +0: every divisor this model divides by is either
   * a positive number of seconds or a rate computed as `count / seconds`, whose zero is +0.
   */
  function Div(a: Float, b: Float): (q: Float)
    ensures a.NaN? || b.NaN? ==> q.NaN?
    ensures a.Finite? && b.Finite? && b.v != 0.0 ==> q == Finite(a.v / b.v)
    ensures a.Finite? && b.Finite? && b.v == 0.0 ==>
              q == (if a.v > 0.0 then PosInf else if a.v < 0.0 then NegInf else NaN)
  {
    match (a, b)
    case (NaN, _) => NaN
    case (_, NaN) => NaN
    case (Finite(x), Finite(y)) =>
      if y != 0.0 then Finite(x / y)
      else if x > 0.0 then PosInf
      else if x < 0.0 then NegInf
      else NaN
    case (Finite(_), _) => Finite(0.0)
    case (PosInf, Finite(y)) => if y >= 0.0 then PosInf else NegInf
    case (NegInf, Finite(y)) => if y >= 0.0 then NegInf else PosInf
    case (_, _) => NaN
  }

  /** `a > b` for a float `a` and a finite threshold `b`; false when `a` is NaN. */
  predicate Greater(a: Float, b: real)
  {
    match a
    case Finite(x) => x > b
    case PosInf => true
    case NegInf => false
    case NaN => false
  }
}
