/** Floating-point values as the bounds and the synergy coefficient see them,
    and the error outcome of the state-space operations. */
module Numbers {

  /** A double as far as this model needs one: a finite real, the two
      infinities, or not-a-number. */
  datatype Num = NaN | NegInf | Fin(r: real) | PosInf

  datatype Option<T> = None | Some(value: T)

  /** The outcome of an operation that raises a domain error on bad input. */
  datatype Result<T> = Ok(value: T) | DomainError

  /** IEEE division of two finite doubles: a finite quotient when the divisor
      is non-zero, a signed infinity for a non-zero dividend over zero, and
      not-a-number for zero over zero. */
  function Div(x: real, y: real): (q: Num)
    ensures y != 0.0 <==> q.Fin?
    ensures q.Fin? ==> q.r * y == x
    ensures q == PosInf <==> y == 0.0 && x > 0.0
    ensures q == NegInf <==> y == 0.0 && x < 0.0
    ensures q == NaN <==> y == 0.0 && x == 0.0
  {
    if y != 0.0 then Fin(x / y)
    else if x > 0.0 then PosInf
    else if x < 0.0 then NegInf
    else NaN
  }

  /** The natural logarithm lifted to doubles, given the logarithm `log` of
      the strictly positive reals: log(inf) = inf, log(0) = -inf, and the
      logarithm of a negative number, of -inf or of NaN is NaN. */
  function ExtLog(x: Num, log: real -> real): (y: Num)
    ensures y.Fin? <==> x.Fin? && x.r > 0.0
    ensures y == NegInf <==> x == Fin(0.0)
    ensures y == PosInf <==> x == PosInf
  {
    match x
    case PosInf => PosInf
    case Fin(v) => if v > 0.0 then Fin(log(v)) else if v == 0.0 then NegInf else NaN
    case NegInf => NaN
    case NaN => NaN
  }
}
