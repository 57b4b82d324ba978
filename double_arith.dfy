/**
 * The part of IEEE-754 `Double` arithmetic that the percentage displays
 * reach: a division whose divisor may be zero, scaling by 100, and
 * Kotlin's `coerceAtMost` / `coerceAtLeast`. Finite values are exact reals;
 * rounding and the sign of zero are not modelled.
 */
module DoubleArith {

  datatype Double = Finite(value: real) | PosInf | NegInf | NaN

  /** `a / b`: a zero divisor gives an infinity with the sign of `a`, or NaN for 0 / 0. */
  function Divide(a: real, b: real): (r: Double)
    ensures b != 0.0 ==> r == Finite(a / b)
    ensures b == 0.0 ==> (r == PosInf <==> a > 0.0) && (r == NegInf <==> a < 0.0) && (r == NaN <==> a == 0.0)
  {
    if b != 0.0 then Finite(a / b)
    else if a > 0.0 then PosInf
    else if a < 0.0 then NegInf
    else NaN
  }

  /** `x * 100`. */
  function Times100(x: Double): (r: Double)
    ensures x.Finite? <==> r.Finite?
    ensures x.Finite? ==> r.value == x.value * 100.0
    ensures !x.Finite? ==> r == x
  {
    match x
    case Finite(v) => Finite(v * 100.0)
    case _ => x
  }

  /** `x > y`; every comparison with NaN is false. */
  predicate Greater(x: Double, y: real) {
    match x
    case Finite(v) => v > y
    case PosInf => true
    case _ => false
  }

  /** `x < y`; every comparison with NaN is false. */
  predicate Less(x: Double, y: real) {
    match x
    case Finite(v) => v < y
    case NegInf => true
    case _ => false
  }

  /** `coerceAtMost(max)`: `if (this > max) max else this`, so NaN passes through. */
  function CoerceAtMost(x: Double, max: real): (r: Double)
    ensures r != PosInf
    ensures r.Finite? ==> r.value <= max
    ensures x.Finite? ==> r == Finite(if x.value > max then max else x.value)
    ensures x == NaN <==> r == NaN
  {
    if Greater(x, max) then Finite(max) else x
  }

  /** `coerceAtLeast(min)`: `if (this < min) min else this`. */
  function CoerceAtLeast(x: Double, min: real): (r: Double)
    ensures r != NegInf
    ensures r.Finite? ==> r.value >= min
    ensures x.Finite? ==> r == Finite(if x.value < min then min else x.value)
    ensures x == NaN <==> r == NaN
  {
    if Less(x, min) then Finite(min) else x
  }
}
