/**
 * JavaScript numbers as the dashboard uses them: a real value, NaN, or one of
 * the two infinities. Arithmetic is exact over the reals; IEEE-754 rounding,
 * overflow to infinity and the sign of zero are not modelled.
 */
module JsNumber {

  datatype Number = Finite(v: real) | NaN | PosInf | NegInf

  const Zero: Number := Finite(0.0)

  /** Sign of a non-NaN number: -1, 0 or 1 (an unsigned zero counts as 0). */
  function Sign(x: Number): (s: int)
    requires !x.NaN?
    ensures -1 <= s <= 1
    ensures x.Finite? ==> (s < 0 <==> x.v < 0.0) && (s == 0 <==> x.v == 0.0)
    ensures x == PosInf ==> s == 1
    ensures x == NegInf ==> s == -1
  {
    match x
    case Finite(v) => if v < 0.0 then -1 else if v == 0.0 then 0 else 1
    case PosInf => 1
    case NegInf => -1
  }

  /** The infinity of the given (non-zero) sign. */
  function Infinity(s: int): (r: Number)
    requires s != 0
    ensures r.PosInf? <==> s > 0
    ensures r.NegInf? <==> s < 0
  {
    if s > 0 then PosInf else NegInf
  }

  /** JavaScript truthiness of a number: every number except 0 and NaN is truthy. */
  predicate Truthy(x: Number)
    ensures x.NaN? ==> !Truthy(x)
    ensures x.Finite? ==> (Truthy(x) <==> x.v != 0.0)
    ensures x.PosInf? || x.NegInf? ==> Truthy(x)
  {
    x != Zero && !x.NaN?
  }

  /** `a + b` */
  function Add(a: Number, b: Number): (r: Number)
    ensures r.NaN? <==> a.NaN? || b.NaN? || (a.PosInf? && b.NegInf?) || (a.NegInf? && b.PosInf?)
    ensures a.Finite? && b.Finite? ==> r == Finite(a.v + b.v)
    ensures !r.NaN? && (a.PosInf? || b.PosInf?) ==> r == PosInf
    ensures !r.NaN? && (a.NegInf? || b.NegInf?) ==> r == NegInf
  {
    match (a, b)
    case (NaN, _) => NaN
    case (_, NaN) => NaN
    case (PosInf, NegInf) => NaN
    case (NegInf, PosInf) => NaN
    case (PosInf, _) => PosInf
    case (_, PosInf) => PosInf
    case (NegInf, _) => NegInf
    case (_, NegInf) => NegInf
    case (Finite(x), Finite(y)) => Finite(x + y)
  }

  /** `a * b` */
  function Mul(a: Number, b: Number): (r: Number)
    ensures r.NaN? <==> a.NaN? || b.NaN? || (!a.Finite? && b == Zero) || (a == Zero && !b.Finite?)
    ensures a.Finite? && b.Finite? ==> r == Finite(a.v * b.v)
    ensures !r.NaN? && !(a.Finite? && b.Finite?) ==> r == Infinity(Sign(a) * Sign(b))
  {
    if a.NaN? || b.NaN? then NaN
    else if a.Finite? && b.Finite? then Finite(a.v * b.v)
    else if Sign(a) * Sign(b) == 0 then NaN
    else Infinity(Sign(a) * Sign(b))
  }

  /** `a / b`; a zero divisor is taken to be +0. */
  function Div(a: Number, b: Number): (r: Number)
    ensures r.NaN? <==> a.NaN? || b.NaN? || (a == Zero && b == Zero) || (!a.Finite? && !b.Finite?)
    ensures a.Finite? && b.Finite? && b.v != 0.0 ==> r == Finite(a.v / b.v)
    ensures a.Finite? && !b.NaN? && !b.Finite? ==> r == Zero
    ensures a.Finite? && a.v != 0.0 && b == Zero ==> r == Infinity(Sign(a))
    ensures !a.NaN? && !a.Finite? && b.Finite? ==> r == Infinity(if b.v < 0.0 then -Sign(a) else Sign(a))
  {
    if a.NaN? || b.NaN? then NaN
    else if a.Finite? && b.Finite? then
      if b.v != 0.0 then Finite(a.v / b.v)
      else if a.v == 0.0 then NaN
      else Infinity(Sign(a))
    else if !a.Finite? && !b.Finite? then NaN
    else if a.Finite? then Zero
    else Infinity(if b.v < 0.0 then -Sign(a) else Sign(a))
  }

  /** `a < b`: false whenever either side is NaN. */
  predicate Less(a: Number, b: Number)
    ensures Less(a, b) ==> !a.NaN? && !b.NaN? && a != b
    ensures a.Finite? && b.Finite? ==> (Less(a, b) <==> a.v < b.v)
    ensures a.NegInf? && !b.NaN? && !b.NegInf? ==> Less(a, b)
    ensures b.PosInf? && !a.NaN? && !a.PosInf? ==> Less(a, b)
  {
    match (a, b)
    case (Finite(x), Finite(y)) => x < y
    case (NegInf, Finite(_)) => true
    case (NegInf, PosInf) => true
    case (Finite(_), PosInf) => true
    case _ => false
  }

  /** Without NaN, `<` is a strict total order: asymmetric, transitive and total. */
  lemma LessIsStrictTotalOrder(a: Number, b: Number, c: Number)
    ensures Less(a, b) ==> !Less(b, a)
    ensures Less(a, b) && Less(b, c) ==> Less(a, c)
    ensures !a.NaN? && !b.NaN? ==> Less(a, b) || Less(b, a) || a == b
  {
  }

  /** `a >= b`: false whenever either side is NaN. */
  predicate AtLeast(a: Number, b: Number)
    ensures a.NaN? || b.NaN? ==> !AtLeast(a, b)
    ensures a.Finite? && b.Finite? ==> (AtLeast(a, b) <==> a.v >= b.v)
    ensures b == Zero ==> (AtLeast(a, b) <==> a.PosInf? || (a.Finite? && a.v >= 0.0))
  {
    !a.NaN? && !b.NaN? && !Less(a, b)
  }

  /** `Math.min(a, b)`: NaN if either argument is NaN, otherwise the smaller one. */
  function Min(a: Number, b: Number): (r: Number)
    ensures r.NaN? <==> a.NaN? || b.NaN?
    ensures !r.NaN? ==> (r == a || r == b) && !Less(a, r) && !Less(b, r)
  {
    if a.NaN? || b.NaN? then NaN
    else if Less(b, a) then b
    else a
  }
}
