/** Exact complex arithmetic over Dafny reals.

    The source uses System.Numerics.Complex (a pair of doubles). Here a complex
    number is a pair of mathematical reals and every operation below is exact;
    rounding is not modelled. */
module Complexes {

  datatype Complex = Complex(re: real, im: real)

  const Zero: Complex := Complex(0.0, 0.0)
  const One: Complex := Complex(1.0, 0.0)
  const Two: Complex := Complex(2.0, 0.0)
  const I: Complex := Complex(0.0, 1.0)

  /** A real number seen as a complex number with zero imaginary part. */
  function OfReal(x: real): Complex {
    Complex(x, 0.0)
  }

  function Add(a: Complex, b: Complex): Complex {
    Complex(a.re + b.re, a.im + b.im)
  }

  function Sub(a: Complex, b: Complex): Complex {
    Complex(a.re - b.re, a.im - b.im)
  }

  function Neg(a: Complex): Complex {
    Complex(-a.re, -a.im)
  }

  function Mul(a: Complex, b: Complex): Complex {
    Complex(a.re * b.re - a.im * b.im, a.re * b.im + a.im * b.re)
  }

  /** Multiplication by a real scalar (the source's `double * Complex`). */
  function Scale(k: real, a: Complex): Complex {
    Complex(k * a.re, k * a.im)
  }

  function Conj(a: Complex): Complex {
    Complex(a.re, -a.im)
  }

  /** A product of two reals. Squares are written through this function so
      that the solver treats `x * x` as a product of two operands. */
  function Prod(x: real, y: real): real {
    x * y
  }

  function Sq(x: real): real {
    Prod(x, x)
  }

  /** Squared modulus, re^2 + im^2. */
  function Norm(a: Complex): real {
    Sq(a.re) + Sq(a.im)
  }

  /** A complex number has magnitude zero exactly when both parts are zero. */
  predicate IsZero(a: Complex) {
    a.re == 0.0 && a.im == 0.0
  }

  lemma ProdPositive(x: real, y: real)
    requires (x > 0.0 && y > 0.0) || (x < 0.0 && y < 0.0)
    ensures Prod(x, y) > 0.0
  {
  }

  lemma SqPositive(x: real)
    ensures Sq(x) >= 0.0
    ensures x != 0.0 ==> Sq(x) > 0.0
  {
    if x != 0.0 {
      ProdPositive(x, x);
    }
  }

  /** The squared modulus is positive exactly off zero. */
  lemma NormPositive(a: Complex)
    ensures Norm(a) >= 0.0
    ensures !IsZero(a) <==> Norm(a) > 0.0
  {
    SqPositive(a.re);
    SqPositive(a.im);
  }

  /** Exact division; the divisor must be non-zero. */
  function Div(a: Complex, b: Complex): (q: Complex)
    requires !IsZero(b)
    ensures Mul(q, b) == a
  {
    NormPositive(b);
    var n := Norm(b);
    var q := Complex((a.re * b.re + a.im * b.im) / n, (a.im * b.re - a.re * b.im) / n);
    DivCorrect(a, b, q, n);
    q
  }

  lemma DivCorrect(a: Complex, b: Complex, q: Complex, n: real)
    requires n == Norm(b) && n > 0.0
    requires q == Complex((a.re * b.re + a.im * b.im) / n, (a.im * b.re - a.re * b.im) / n)
    ensures Mul(q, b) == a
  {
    var x := a.re * b.re + a.im * b.im;
    var y := a.im * b.re - a.re * b.im;
    assert q.re * n == x;
    assert q.im * n == y;
    assert (x * b.re - y * b.im) == a.re * n;
    assert (x * b.im + y * b.re) == a.im * n;
    assert Mul(q, b).re * n == a.re * n;
    assert Mul(q, b).im * n == a.im * n;
  }

  /** A quotient is determined by the equation it solves. */
  lemma DivUnique(a: Complex, b: Complex, w: Complex)
    requires !IsZero(b)
    requires Mul(w, b) == a
    ensures Div(a, b) == w
  {
    var q := Div(a, b);
    assert Mul(Sub(q, w), b) == Zero by {
      assert Mul(Sub(q, w), b).re == Mul(q, b).re - Mul(w, b).re;
      assert Mul(Sub(q, w), b).im == Mul(q, b).im - Mul(w, b).im;
    }
    ZeroProduct(Sub(q, w), b);
  }

  /** There are no zero divisors. */
  lemma ZeroProduct(a: Complex, b: Complex)
    requires Mul(a, b) == Zero
    requires !IsZero(b)
    ensures IsZero(a)
  {
    var n := Norm(b);
    NormPositive(b);
    assert a.re * n == Mul(a, b).re * b.re + Mul(a, b).im * b.im;
    assert a.im * n == Mul(a, b).im * b.re - Mul(a, b).re * b.im;
  }

  /** Natural power by repeated multiplication, x^k = x^(k-1) * x. */
  function PowN(x: Complex, k: nat): Complex {
    if k == 0 then One else Mul(PowN(x, k - 1), x)
  }

  // Ring laws, each a polynomial identity on the components.

  lemma MulComm(a: Complex, b: Complex)
    ensures Mul(a, b) == Mul(b, a)
  {
  }

  lemma MulAssoc(a: Complex, b: Complex, c: Complex)
    ensures Mul(Mul(a, b), c) == Mul(a, Mul(b, c))
  {
    assert Mul(Mul(a, b), c).re == Mul(a, Mul(b, c)).re;
    assert Mul(Mul(a, b), c).im == Mul(a, Mul(b, c)).im;
  }

  lemma MulOne(a: Complex)
    ensures Mul(a, One) == a && Mul(One, a) == a
  {
  }

  lemma MulZero(a: Complex)
    ensures Mul(a, Zero) == Zero && Mul(Zero, a) == Zero
  {
  }

  lemma AddZero(a: Complex)
    ensures Add(a, Zero) == a && Add(Zero, a) == a
  {
  }

  lemma DistribRight(a: Complex, b: Complex, c: Complex)
    ensures Mul(Add(a, b), c) == Add(Mul(a, c), Mul(b, c))
  {
  }

  lemma DistribLeft(a: Complex, b: Complex, c: Complex)
    ensures Mul(a, Add(b, c)) == Add(Mul(a, b), Mul(a, c))
  {
  }

  lemma ConjMul(a: Complex, b: Complex)
    ensures Conj(Mul(a, b)) == Mul(Conj(a), Conj(b))
  {
  }

  lemma ConjInvolutive(a: Complex)
    ensures Conj(Conj(a)) == a
  {
  }
}
