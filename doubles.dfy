/**
 * Java doubles as reals with one explicit "undefined" value.  NaN stands for
 * Double.NaN and also for the infinities a division by zero yields in IEEE-754
 * arithmetic: the model has no infinite values.
 */
module Doubles {

  datatype Dbl = Val(r: real) | NaN

  /** Java's `a * b`. */
  function Mul(a: Dbl, b: Dbl): Dbl {
    if a.Val? && b.Val? then Val(a.r * b.r) else NaN
  }

  /** Java's `a / b`, with a zero divisor giving the undefined value. */
  function Div(a: Dbl, b: Dbl): Dbl {
    if a.Val? && b.Val? && b.r != 0.0 then Val(a.r / b.r) else NaN
  }

  /** Java's `a <= b`: false whenever one side is NaN. */
  predicate Le(a: Dbl, b: Dbl) {
    a.Val? && b.Val? && a.r <= b.r
  }

  /** Java's `a == b` on primitive doubles: NaN equals nothing, itself included. */
  predicate NumEq(a: Dbl, b: Dbl) {
    a.Val? && b.Val? && a.r == b.r
  }

  /**
   * Double.compare: the total order of Double.compareTo, in which NaN is
   * greater than every number and equal to itself.
   */
  function Compare(a: Dbl, b: Dbl): (c: int)
    ensures -1 <= c <= 1
  {
    match (a, b)
    case (NaN, NaN) => 0
    case (NaN, Val(_)) => 1
    case (Val(_), NaN) => -1
    case (Val(x), Val(y)) => if x < y then -1 else if x > y then 1 else 0
  }

  lemma CompareAntisymmetric(a: Dbl, b: Dbl)
    ensures Compare(a, b) == -Compare(b, a)
    ensures Compare(a, b) == 0 <==> a == b
  {
  }

  lemma CompareTransitive(a: Dbl, b: Dbl, c: Dbl)
    ensures Compare(a, b) <= 0 && Compare(b, c) <= 0 ==> Compare(a, c) <= 0
  {
  }
}
