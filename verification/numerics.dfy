/** The floating-point library the filter code calls, seen from exact reals.

    `double` values are modelled as Dafny reals and every arithmetic operation
    is exact. The transcendental functions of System.Math and
    System.Numerics.Complex are not defined here: a `MathLib` value carries
    them as arbitrary functions, and every design function takes one as a
    parameter. Nothing is assumed about them, so every property proved below
    holds whatever values they return. */
module Numerics {
  import opened Complexes

  /** The library functions the filter code uses (`cabs` is Complex.Abs).
      `nonFinite` stands for the
      infinity or NaN that an IEEE division by zero yields; the model does not
      say which one. */
  datatype MathLib = MathLib(
    sqrt: real -> real,
    pow: (real, real) -> real,
    exp: real -> real,
    log: real -> real,
    sin: real -> real,
    cos: real -> real,
    tan: real -> real,
    sinh: real -> real,
    cosh: real -> real,
    asin: real -> real,
    cabs: Complex -> real,
    csqrt: Complex -> Complex,
    clog: Complex -> Complex,
    cpow: (Complex, real) -> Complex,
    nonFinite: real)

  /** Math.PI, the double nearest to pi. */
  const PI: real := 3.141592653589793

  /** `x / y` on doubles. A zero divisor gives the non-finite stand-in. */
  function Quot(m: MathLib, x: real, y: real): real {
    if y == 0.0 then m.nonFinite else x / y
  }

  /** A quotient by a non-zero divisor times that divisor gives back the
      dividend. Stated apart from Quot so that the product stays out of
      every proof that does not ask for it. */
  lemma QuotCorrect(m: MathLib, x: real, y: real)
    ensures y != 0.0 ==> Quot(m, x, y) * y == x
    ensures y == 0.0 ==> Quot(m, x, y) == m.nonFinite
  {
  }

  /** The complex value whose parts are both the non-finite stand-in. */
  function NonFiniteComplex(m: MathLib): Complex {
    Complex(m.nonFinite, m.nonFinite)
  }

  /** `a / b` on System.Numerics.Complex. A zero divisor gives the non-finite
      stand-in in both parts. */
  function CQuot(m: MathLib, a: Complex, b: Complex): Complex {
    if IsZero(b) then NonFiniteComplex(m) else Div(a, b)
  }

  /** A complex quotient by a non-zero divisor times that divisor gives
      back the dividend. */
  lemma CQuotCorrect(m: MathLib, a: Complex, b: Complex)
    ensures !IsZero(b) ==> Mul(CQuot(m, a, b), b) == a
    ensures IsZero(b) ==> CQuot(m, a, b) == NonFiniteComplex(m)
  {
  }

  /** Math.Abs on doubles. */
  function Abs(x: real): (r: real)
    ensures r >= 0.0
    ensures r == x || r == -x
  {
    if x < 0.0 then -x else x
  }
}
