/** The part of IEEE 754 double arithmetic that the goodness-of-fit scores
    can reach: a division by zero gives an infinity or NaN, and these then
    flow through the subtractions, scalings and sums that follow. Finite
    values are exact reals, as everywhere else in the model; rounding and
    overflow are not represented. */
module FloatingPoint {

  /** A `Double` that may be non-finite. */
  datatype Float = Finite(value: real) | Infinity | MinusInfinity | NaN

  /** `x / y`: a zero divisor gives an infinity of the sign of `x`, and NaN
      for `0 / 0`. The divisors here are sums of squares or of absolute
      values, so a zero divisor is a positive zero. */
  function Quotient(x: real, y: real): Float
  {
    if y != 0.0 then Finite(x / y)
    else if x > 0.0 then Infinity
    else if x < 0.0 then MinusInfinity
    else NaN
  }

  /** `x - f`: subtracting an infinity gives the opposite infinity. */
  function Difference(x: real, f: Float): Float
  {
    match f
    case Finite(v) => Finite(x - v)
    case Infinity => MinusInfinity
    case MinusInfinity => Infinity
    case NaN => NaN
  }

  /** `c * f`: an infinity keeps or flips its sign with `c`, and `0 * inf`
      is NaN. */
  function Product(c: real, f: Float): Float
  {
    match f
    case Finite(v) => Finite(c * v)
    case Infinity => if c > 0.0 then Infinity else if c < 0.0 then MinusInfinity else NaN
    case MinusInfinity => if c > 0.0 then MinusInfinity else if c < 0.0 then Infinity else NaN
    case NaN => NaN
  }

  /** `f + g`: NaN absorbs everything, opposite infinities give NaN, and an
      infinity absorbs a finite value. */
  function FloatSum(f: Float, g: Float): Float
  {
    if f.NaN? || g.NaN? then NaN
    else if f.Finite? && g.Finite? then Finite(f.value + g.value)
    else if (f.Infinity? && g.MinusInfinity?) || (f.MinusInfinity? && g.Infinity?) then NaN
    else if f.Finite? then g
    else f
  }
}
