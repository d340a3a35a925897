/** The values a JavaScript `number` takes in the price pages, with the
    result of every computation kept exact: a finite rational, or one of
    the non-finite values an unguarded division by zero yields.  Rounding
    to double precision is not modelled. */
module JsNumber {

  datatype Num = Finite(value: real) | PosInfinity | NotANumber

  /** JavaScript truthiness of a number: `0` and `NaN` are falsy. */
  predicate Truthy(n: Num)
  {
    match n
    case Finite(v) => v != 0.0
    case PosInfinity => true
    case NotANumber => false
  }

  /** JavaScript `a > b`: false as soon as one side is `NaN`. */
  predicate Greater(a: Num, b: Num)
  {
    match (a, b)
    case (Finite(x), Finite(y)) => x > y
    case (PosInfinity, Finite(_)) => true
    case _ => false
  }

  /** `1 / x` on a non-negative JavaScript number. */
  function Reciprocal(x: Num): (r: Num)
    requires x.Finite? ==> x.value >= 0.0
    ensures x.Finite? && x.value > 0.0 ==> r.Finite? && r.value * x.value == 1.0
    ensures x == Finite(0.0) <==> r == PosInfinity
    ensures x == PosInfinity ==> r == Finite(0.0)
    ensures x == NotANumber ==> r == NotANumber
  {
    match x
    case Finite(v) => if v == 0.0 then PosInfinity else Finite(1.0 / v)
    case PosInfinity => Finite(0.0)
    case NotANumber => NotANumber
  }
}
