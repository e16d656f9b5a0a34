/** Double-precision numbers as the source's Python and TypeScript code sees them:
    a finite value, NaN or one of the two infinities.  Rounding is not modelled:
    a finite number is an exact real, and the operations below follow IEEE 754
    on the special values (NaN propagates, inf - inf is NaN, inf * 0 is NaN). */
module Floats {

  datatype Num = Finite(r: real) | NaN | PosInf | NegInf

  predicate IsFinite(x: Num) { x.Finite? }

  const Zero := Finite(0.0)

  /** Python `bool(x)` on a float: only zero is falsy (NaN is truthy). */
  predicate PyTruthy(x: Num) { x != Finite(0.0) }

  /** JavaScript `Boolean(x)` on a number: zero and NaN are falsy. */
  predicate JsTruthy(x: Num) { x != Finite(0.0) && x != NaN }

  function Add(a: Num, b: Num): (s: Num)
    ensures (a.NaN? || b.NaN?) ==> s.NaN?
    ensures (a.Finite? && b.Finite?) ==> s == Finite(a.r + b.r)
  {
    match (a, b)
    case (Finite(x), Finite(y)) => Finite(x + y)
    case (NaN, _) => NaN
    case (_, NaN) => NaN
    case (PosInf, NegInf) => NaN
    case (NegInf, PosInf) => NaN
    case (PosInf, _) => PosInf
    case (NegInf, _) => NegInf
    case (_, PosInf) => PosInf
    case (_, NegInf) => NegInf
  }

  /** The sign of a number that is not NaN: -1, 0 or 1. */
  function Sign(a: Num): int
    requires !a.NaN?
  {
    match a
    case Finite(x) => if x < 0.0 then -1 else if x == 0.0 then 0 else 1
    case PosInf => 1
    case NegInf => -1
  }

  function Mul(a: Num, b: Num): (p: Num)
    ensures (a.NaN? || b.NaN?) ==> p.NaN?
    ensures (a.Finite? && b.Finite?) ==> p == Finite(a.r * b.r)
    ensures b == Finite(1.0) ==> p == a
  {
    if a.NaN? || b.NaN? then NaN
    else if a.Finite? && b.Finite? then Finite(a.r * b.r)
    else if b == Finite(1.0) then a
    else
      var s := Sign(a) * Sign(b);
      if s == 0 then NaN else if s > 0 then PosInf else NegInf
  }

  /** `a > b`; every comparison with NaN is false. */
  predicate Gt(a: Num, b: Num)
  {
    match (a, b)
    case (Finite(x), Finite(y)) => x > y
    case (PosInf, Finite(_)) => true
    case (PosInf, NegInf) => true
    case (Finite(_), NegInf) => true
    case _ => false
  }

  /** `a <= b`; every comparison with NaN is false. */
  predicate Le(a: Num, b: Num)
  {
    !a.NaN? && !b.NaN? && !Gt(a, b)
  }

  predicate Positive(b: Num) { Gt(b, Finite(0.0)) }

  /** `a / b` for a non-zero divisor (the sign of a zero quotient is not modelled). */
  function Div(a: Num, b: Num): (q: Num)
    requires b != Finite(0.0)
    ensures (a.NaN? || b.NaN?) ==> q.NaN?
    ensures (a.Finite? && b.Finite?) ==> q == Finite(a.r / b.r)
    ensures b == Finite(1.0) ==> q == a
  {
    if a.NaN? || b.NaN? then NaN
    else if a.Finite? && b.Finite? then Finite(a.r / b.r)
    else if a.Finite? then Finite(0.0)
    else if b.Finite? then (if Sign(a) * Sign(b) > 0 then PosInf else NegInf)
    else NaN
  }

  /** `a / b` for a divisor the source has already checked to be `> 0`. */
  function DivPos(a: Num, b: Num): (q: Num)
    requires Positive(b)
    ensures a.NaN? ==> q.NaN?
    ensures (a.Finite? && b.Finite?) ==> q == Finite(a.r / b.r)
    ensures b == PosInf ==> (a.Finite? ==> q == Finite(0.0)) && (!a.Finite? ==> q == NaN)
  {
    Div(a, b)
  }

  /** JavaScript `Math.max(1, x)` for a number that is not NaN. */
  function MaxOne(x: Num): (m: Num)
    requires !x.NaN?
    ensures Le(Finite(1.0), m)
    ensures Le(Finite(1.0), x) ==> m == x
  {
    if Gt(x, Finite(1.0)) then x else Finite(1.0)
  }

  /** Python `int(x)` on a finite float: truncation toward zero. */
  function Trunc(r: real): (i: int)
    ensures r >= 0.0 ==> i as real <= r < i as real + 1.0
    ensures r < 0.0 ==> i as real - 1.0 < r <= i as real
  {
    if r >= 0.0 then r.Floor else -((-r).Floor)
  }
}
