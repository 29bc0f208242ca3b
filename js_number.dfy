/** The JavaScript `number` values that the reporting code can produce when it
    divides one task count by another and scales the result. Every operand is
    a non-negative count, so only three kinds of value arise: a finite
    non-negative real, +Infinity (a positive count over zero) and NaN (zero
    over zero). Negative infinity and negative zero never occur. */
module JsNumber {

  datatype Number = NaN | Infinity | Finite(value: real)

  /** JavaScript `a / b` on two non-negative integer counts. A finite
      quotient is the exact real quotient; floating-point rounding is not
      modelled. */
  function Divide(a: nat, b: nat): (r: Number)
    ensures r.Finite? <==> b > 0
    ensures r.Finite? ==> 0.0 <= r.value && r.value * (b as real) == a as real
    ensures r.NaN? <==> a == 0 && b == 0
  {
    if b > 0 then Finite(a as real / b as real)
    else if a == 0 then NaN
    else Infinity
  }

  /** JavaScript `x * k` for a positive finite constant `k`. */
  function Times(x: Number, k: real): (r: Number)
    requires k > 0.0
    ensures r.Finite? <==> x.Finite?
    ensures r.NaN? <==> x.NaN?
    ensures r.Finite? ==> r.value == x.value * k
  {
    match x
    case NaN => NaN
    case Infinity => Infinity
    case Finite(v) => Finite(v * k)
  }

  /** JavaScript truthiness: NaN and 0 are the falsy numbers. */
  predicate IsFalsy(x: Number)
  {
    x.NaN? || x == Finite(0.0)
  }

  /** JavaScript `x || 0`: a falsy left operand is replaced by 0. */
  function OrZero(x: Number): (r: Number)
    ensures !r.NaN?
    ensures IsFalsy(x) ==> r == Finite(0.0)
    ensures !IsFalsy(x) ==> r == x
  {
    if IsFalsy(x) then Finite(0.0) else x
  }

  /** JavaScript `x > y`: any comparison with NaN is false, and Infinity is
      greater than every finite number but not than itself. */
  predicate GreaterThan(x: Number, y: Number): (b: bool)
    ensures x.NaN? || y.NaN? ==> !b
    ensures x.Finite? && y.Finite? ==> (b <==> x.value > y.value)
    ensures x.Infinity? && y.Finite? ==> b
    ensures b ==> !y.Infinity?
  {
    match (x, y)
    case (Finite(a), Finite(b)) => a > b
    case (Infinity, Finite(_)) => true
    case _ => false
  }
}
