/**
 * Numbers as JavaScript and Python compare them. Both languages use IEEE
 * doubles; the model keeps NaN and the two infinities and represents every
 * finite value exactly, without rounding.
 */
module Numbers {

  datatype Float = NaN | Inf(negative: bool) | Finite(value: real)

  /** `if (x)` on a number: false for NaN and for zero. */
  predicate Truthy(x: Float)
  {
    match x
    case NaN => false
    case Inf(_) => true
    case Finite(v) => v != 0.0
  }

  /** `x < bound`; a comparison with NaN is false. */
  predicate Below(x: Float, bound: real)
  {
    match x
    case NaN => false
    case Inf(negative) => negative
    case Finite(v) => v < bound
  }

  /** `x > bound`; a comparison with NaN is false. */
  predicate Above(x: Float, bound: real)
  {
    match x
    case NaN => false
    case Inf(negative) => !negative
    case Finite(v) => v > bound
  }

  /** The range test both scripts and both servers write as `x < lo || x > hi`. */
  predicate OutOfRange(x: Float, lo: int, hi: int)
  {
    Below(x, lo as real) || Above(x, hi as real)
  }

  /** A Python `int`, or the result of `parseInt` read as a number. */
  function OfInt(n: int): Float
  {
    Finite(n as real)
  }

}
