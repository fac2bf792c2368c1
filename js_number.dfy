/**
 * JavaScript numbers, as far as the LED bridge depends on them: NaN, the two
 * infinities and finite values. Finite values are exact reals; the rounding
 * of IEEE 754 binary64 arithmetic and the sign of zero are not represented.
 */
module JsNumber {

  datatype Num = NaN | PosInf | NegInf | Fin(value: real)

  /** `x >= c` in JavaScript, for a finite right operand: false whenever `x` is NaN. */
  predicate AtLeast(x: Num, c: real) {
    x.PosInf? || (x.Fin? && x.value >= c)
  }

  /** `x > c` in JavaScript, for a finite right operand. */
  predicate Above(x: Num, c: real) {
    x.PosInf? || (x.Fin? && x.value > c)
  }

  /** `x <= c` in JavaScript, for a finite right operand. */
  predicate AtMost(x: Num, c: real) {
    x.NegInf? || (x.Fin? && x.value <= c)
  }

  /** `x < c` in JavaScript, for a finite right operand. */
  predicate Below(x: Num, c: real) {
    x.NegInf? || (x.Fin? && x.value < c)
  }

  /** `x <= y` in JavaScript between two numbers (false when either is NaN). */
  predicate LessEq(x: Num, y: Num) {
    match (x, y)
    case (NaN, _) => false
    case (_, NaN) => false
    case (NegInf, _) => true
    case (_, PosInf) => true
    case (Fin(a), Fin(b)) => a <= b
    case _ => false
  }

  /** A usable RPM ceiling: strictly positive, possibly infinite. */
  predicate Positive(x: Num) {
    Above(x, 0.0)
  }

  /**
   * JavaScript's `a / b`. A finite non-zero divisor gives the exact quotient;
   * 0/0, Infinity/Infinity and anything involving NaN give NaN; a non-zero
   * finite value over zero gives an infinity of its sign; an infinity over a
   * finite value stays infinite; a finite value over an infinity gives zero.
   */
  function Div(a: Num, b: Num): (q: Num)
    ensures a.Fin? && b.Fin? && b.value != 0.0 ==> q.Fin? && q.value * b.value == a.value
    ensures q.NaN? <==> a.NaN? || b.NaN? || (a == Fin(0.0) && b == Fin(0.0)) || (!a.Fin? && !b.Fin?)
    ensures a.Fin? && b == Fin(0.0) && a.value > 0.0 ==> q == PosInf
    ensures a.Fin? && b == Fin(0.0) && a.value < 0.0 ==> q == NegInf
    ensures a.Fin? && (b.PosInf? || b.NegInf?) ==> q == Fin(0.0)
    ensures (a.PosInf? || a.NegInf?) && b.Fin? ==> !q.Fin? && (q.PosInf? <==> (a.PosInf? <==> b.value >= 0.0))
  {
    match (a, b)
    case (NaN, _) => NaN
    case (_, NaN) => NaN
    case (Fin(x), Fin(y)) =>
      if y != 0.0 then Fin(x / y)
      else if x > 0.0 then PosInf
      else if x < 0.0 then NegInf
      else NaN
    case (Fin(_), _) => Fin(0.0)
    case (_, Fin(y)) => if a.PosInf? == (y >= 0.0) then PosInf else NegInf
    case _ => NaN
  }

  /** Dividing a finite non-zero value by itself gives exactly 1. */
  lemma DivSelf(x: real)
    requires x != 0.0
    ensures Div(Fin(x), Fin(x)) == Fin(1.0)
  {
  }

  /** The real ceiling of `x`: the least integer not below it. */
  function Ceil(x: real): (n: int)
    ensures x <= n as real < x + 1.0
  {
    -((-x).Floor)
  }
}
