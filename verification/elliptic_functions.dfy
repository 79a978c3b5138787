/** The special functions behind the elliptic prototype (the private helpers
    of Elliptic.cs): 10^x - 1, the complete elliptic integral K(m), the
    degree equation, the Jacobi functions sn, cn, dn and the inverse of sn.

    Every helper is modelled step for step, but the library functions it
    calls (sqrt, exp, pow, sin, asin, complex log and sqrt) come from the
    abstract `MathLib`, so what is proved here is guard behaviour, iteration
    bounds and the shape of each computation, never numeric accuracy. */
module EllipticFunctions {
  import opened Complexes
  import opened Numerics
  import opened FilterTypes

  // ---------------------------------------------------------------------
  // 10^x - 1
  // ---------------------------------------------------------------------

  /** Below this magnitude of ln(10) x a short series replaces exp. */
  const SeriesThreshold: real := 0.00001

  /** The third-order Maclaurin polynomial of e^v - 1. */
  function ExpMinus1Series(v: real): real {
    v + 0.5 * Prod(v, v) + (1.0 / 6.0) * Prod(Prod(v, v), v)
  }

  /** ln(10) x, the exponent of 10^x as a power of e. */
  function Exponent(m: MathLib, x: real): real {
    m.log(10.0) * x
  }

  /** Pow10Minus1 as the source writes it: the exponent `value = ln(10) x`
      selects the branch, but the series is then evaluated at `x` instead
      of at `value`. */
  function Pow10Minus1AsWritten(m: MathLib, x: real): real {
    var value := Exponent(m, x);
    if Abs(value) < SeriesThreshold then ExpMinus1Series(x) else m.exp(value) - 1.0
  }

  /** Pow10Minus1 with the series evaluated at the exponent it was meant
      for; both branches then approximate e^(ln(10) x) - 1. */
  function Pow10Minus1(m: MathLib, x: real): real {
    var value := Exponent(m, x);
    if Abs(value) < SeriesThreshold then ExpMinus1Series(value) else m.exp(value) - 1.0
  }

  /** The two readings differ only in the series branch: whenever
      |ln(10) x| >= 10^-5 they return the same value, and in the series
      branch the difference is exactly that of the series at x and at
      ln(10) x. */
  lemma Pow10Minus1Agreement(m: MathLib, x: real)
    ensures Abs(Exponent(m, x)) >= SeriesThreshold ==> Pow10Minus1(m, x) == Pow10Minus1AsWritten(m, x)
    ensures Abs(Exponent(m, x)) < SeriesThreshold ==>
              Pow10Minus1(m, x) - Pow10Minus1AsWritten(m, x) == ExpMinus1Series(Exponent(m, x)) - ExpMinus1Series(x)
  {
  }

  /** The series branch agrees with the exponent to first order:
      |result - ln(10) x| <= (ln(10) x)^2 whenever that branch is taken.
      This is what 10^x - 1 = ln(10) x + O(x^2) demands. */
  lemma Pow10Minus1FirstOrder(m: MathLib, x: real)
    requires Abs(Exponent(m, x)) < SeriesThreshold
    ensures var v := Exponent(m, x);
            Abs(Pow10Minus1(m, x) - v) <= Prod(v, v)
  {
    SeriesRemainder(Exponent(m, x));
  }

  /** For |v| < 1 the series exceeds v by at most v^2. */
  lemma SeriesRemainder(v: real)
    requires Abs(v) < 1.0
    ensures Abs(ExpMinus1Series(v) - v) <= Prod(v, v)
  {
    var s := Prod(v, v);
    SqPositive(v);
    CubeBound(s, v);
    assert ExpMinus1Series(v) - v == 0.5 * s + (1.0 / 6.0) * Prod(s, v);
  }

  /** A non-negative s times a v of magnitude below one stays within s. */
  lemma CubeBound(s: real, v: real)
    requires s >= 0.0 && Abs(v) < 1.0
    ensures -s <= Prod(s, v) <= s
  {
    SignedProduct(s, 1.0 - v);
    SignedProduct(s, 1.0 + v);
    assert Prod(s, 1.0 - v) == s - Prod(s, v);
    assert Prod(s, 1.0 + v) == s + Prod(s, v);
  }

  lemma SignedProduct(s: real, t: real)
    requires s >= 0.0 && t > 0.0
    ensures Prod(s, t) >= 0.0
  {
  }

  /** The series branch of the code as written misses the first-order
      behaviour: with ln(10) at its double value and x = 10^-6 the result
      is about 1.0 * 10^-6 instead of about 2.3 * 10^-6. */
  lemma Pow10Minus1AsWrittenMissesFirstOrder(m: MathLib)
    requires m.log(10.0) == 2.302585092994046
    ensures var x := 0.000001;
            var v := Exponent(m, x);
            && Abs(v) < SeriesThreshold
            && Abs(Pow10Minus1AsWritten(m, x) - v) > Prod(v, v)
  {
  }

  // ---------------------------------------------------------------------
  // Complete elliptic integral of the first kind
  // ---------------------------------------------------------------------

  /** The arithmetic-geometric mean iteration of EllipK: at most 20 steps,
      stopping early once the next pair differs by less than 10^-15. The
      result is the `a` of the last pair kept. */
  function Agm(m: MathLib, a: real, b: real, step: nat): real
    decreases 20 - step
  {
    if step >= 20 then a
    else
      var an := (a + b) / 2.0;
      var bn := m.sqrt(a * b);
      if Abs(an - bn) < 0.000000000000001 then a else Agm(m, an, bn, step + 1)
  }

  /** EllipK: K(m) = pi / (2 AGM(1, sqrt(1 - m))) for m in [0, 1]. */
  function EllipK(m: MathLib, mm: real): (r: Result<real>)
    ensures r.Failure? <==> mm < 0.0 || mm > 1.0
    ensures r.Failure? ==> r.error == ArgumentOutOfRange("m")
  {
    if mm < 0.0 || mm > 1.0 then Failure(ArgumentOutOfRange("m"))
    else Success(Quot(m, PI, 2.0 * Agm(m, 1.0, m.sqrt(1.0 - mm), 0)))
  }

  /** With m = 0 the mean starts at a = b = 1 and stops at once, so
      K(0) = pi / 2 whenever the library's sqrt(1) is 1. */
  lemma EllipKAtZero(m: MathLib)
    requires m.sqrt(1.0) == 1.0
    ensures EllipK(m, 0.0) == Success(PI / 2.0)
  {
    assert Agm(m, 1.0, 1.0, 0) == 1.0;
  }

  // ---------------------------------------------------------------------
  // Degree equation
  // ---------------------------------------------------------------------

  /** ELLIPDEGMAXM, the last index of the numerator series. */
  const DegreeTerms: int := 7

  /** The sum of q^(j (j + 1)) for j = 0 .. hi, accumulated from 0. */
  function NumeratorSum(m: MathLib, q: real, hi: int): real
    decreases hi + 1
  {
    if hi < 0 then 0.0 else NumeratorSum(m, q, hi - 1) + m.pow(q, (hi * (hi + 1)) as real)
  }

  /** 1 plus the sum of 2 q^(j^2) for j = 1 .. hi. */
  function DenominatorSum(m: MathLib, q: real, hi: int): real
    decreases hi
  {
    if hi < 1 then 1.0 else DenominatorSum(m, q, hi - 1) + 2.0 * m.pow(q, (hi * hi) as real)
  }

  /** EllipDeg: the modulus m solving the degree equation for order n, from
      the nome q = q1^(1 / n) of m1. */
  function EllipDeg(m: MathLib, n: int, m1: real): (r: Result<real>)
    ensures r.Failure? <==> m1 <= 0.0 || m1 >= 1.0
    ensures r.Failure? ==> r.error == ArgumentOutOfRange("m1")
  {
    if m1 <= 0.0 || m1 >= 1.0 then Failure(ArgumentOutOfRange("m1"))
    else
      var k1 := EllipK(m, m1).value;
      var k1p := EllipK(m, 1.0 - m1).value;
      var q1 := m.exp(Quot(m, -PI * k1p, k1));
      var q := m.pow(q1, Quot(m, 1.0, n as real));
      var num := NumeratorSum(m, q, DegreeTerms);
      var den := DenominatorSum(m, q, DegreeTerms + 1);
      Success(16.0 * q * m.pow(Quot(m, num, den), 4.0))
  }

  /** The two integrals EllipDeg computes cannot fail: for m1 in (0, 1)
      both m1 and its complement 1 - m1 lie in [0, 1]. */
  lemma EllipDegIntegralsDefined(m: MathLib, m1: real)
    requires 0.0 < m1 < 1.0
    ensures EllipK(m, m1).Success? && EllipK(m, 1.0 - m1).Success?
  {
  }

  // ---------------------------------------------------------------------
  // Jacobi elliptic functions
  // ---------------------------------------------------------------------

  /** sn, cn, dn and the amplitude am of one argument. */
  datatype Jacobi = Jacobi(sn: real, cn: real, dn: real, am: real)

  /** The descending AGM of EllipJ: the list `aa` of means and the list
      `cc` of half-differences grow by one entry per step, for at most 16
      steps, while |c_i| > 10^-12. */
  function Descend(m: MathLib, aa: seq<real>, cc: seq<real>, b: real): (r: (seq<real>, seq<real>))
    requires 1 <= |aa| == |cc| <= 17
    ensures 1 <= |r.0| == |r.1| <= 17
    ensures aa <= r.0 && cc <= r.1
    ensures var i := |r.1| - 1; i == 16 || Abs(r.1[i]) <= 0.000000000001
    ensures forall i :: |cc| - 1 <= i < |r.1| - 1 ==> Abs(r.1[i]) > 0.000000000001
    decreases 17 - |aa|
  {
    var i := |aa| - 1;
    if i < 16 && Abs(cc[i]) > 0.000000000001 then
      var next := cc + [(aa[i] - b) / 2.0];
      var r := Descend(m, aa + [(aa[i] + b) / 2.0], next, m.sqrt(aa[i] * b));
      assert r.1[i] == cc[i] by {
        assert next <= r.1;
      }
      r
    else (aa, cc)
  }

  /** 2^n, the `twon` factor. */
  function TwoPow(n: nat): real {
    if n == 0 then 1.0 else 2.0 * TwoPow(n - 1)
  }

  /** The back substitution phi := (asin(c_j / a_j sin phi) + phi) / 2 for
      j = n down to 1. */
  function Ascend(m: MathLib, aa: seq<real>, cc: seq<real>, phi: real, n: nat): real
    requires n < |aa| && n < |cc|
    decreases n
  {
    if n == 0 then phi
    else Ascend(m, aa, cc, (m.asin(Quot(m, cc[n], aa[n]) * m.sin(phi)) + phi) / 2.0, n - 1)
  }

  /** The Jacobi values of u for parameter m, computed without the guard. */
  function JacobiOf(m: MathLib, u: real, mm: real): Jacobi {
    var d := Descend(m, [1.0], [m.sqrt(mm)], m.sqrt(1.0 - mm));
    var i := |d.0| - 1;
    var phi := Ascend(m, d.0, d.1, TwoPow(i) * d.0[i] * u, i);
    var sn := m.sin(phi);
    Jacobi(sn, m.cos(phi), m.sqrt(1.0 - mm * Prod(sn, sn)), phi)
  }

  /** EllipJ for one argument u and parameter m in [0, 1]. */
  function EllipJ(m: MathLib, u: real, mm: real): (r: Result<Jacobi>)
    ensures r.Failure? <==> mm < 0.0 || mm > 1.0
    ensures r.Failure? ==> r.error == ArgumentOutOfRange("m")
    ensures r.Success? ==> r.value == JacobiOf(m, u, mm)
  {
    if mm < 0.0 || mm > 1.0 then Failure(ArgumentOutOfRange("m"))
    else Success(JacobiOf(m, u, mm))
  }

  /** With m = 0 there is nothing to descend, and the Jacobi functions are
      the circular ones: sn = sin u, cn = cos u, dn = 1, am = u, whenever
      the library's sqrt(0) is 0 and sqrt(1) is 1. */
  lemma EllipJAtZero(m: MathLib, u: real)
    requires m.sqrt(0.0) == 0.0 && m.sqrt(1.0) == 1.0
    ensures EllipJ(m, u, 0.0) == Success(Jacobi(m.sin(u), m.cos(u), 1.0, u))
  {
    assert Descend(m, [1.0], [0.0], 1.0) == ([1.0], [0.0]);
  }

  /** The array form of EllipJ: one call per argument, left to right. The
      guard depends on m alone, so the first call already fails when any
      would; an empty argument list makes no call and so cannot fail. */
  function EllipJAll(m: MathLib, us: seq<real>, mm: real): (r: Result<seq<Jacobi>>)
    ensures r.Failure? <==> |us| > 0 && (mm < 0.0 || mm > 1.0)
    ensures r.Success? ==> |r.value| == |us| && forall i :: 0 <= i < |us| ==> r.value[i] == JacobiOf(m, us[i], mm)
  {
    if |us| == 0 then Success([])
    else if mm < 0.0 || mm > 1.0 then Failure(ArgumentOutOfRange("m"))
    else Success(seq(|us|, i requires 0 <= i < |us| => JacobiOf(m, us[i], mm)))
  }

  // ---------------------------------------------------------------------
  // Inverse of sn
  // ---------------------------------------------------------------------

  /** ARC_JAC_SN_MAXITER. */
  const LandenLimit: int := 10

  /** sqrt((1 - k)(1 + k)), the complementary modulus. */
  function Complement(m: MathLib, k: real): real {
    m.sqrt((1.0 - k) * (1.0 + k))
  }

  /** One descending Landen transformation k -> (1 - k') / (1 + k'). */
  function LandenStep(m: MathLib, k: real): real {
    var kp := Complement(m, k);
    Quot(m, 1.0 - kp, 1.0 + kp)
  }

  /** The transformation as a function value, the form the loop below
      takes it in. */
  function Transformation(m: MathLib): real -> real {
    k => LandenStep(m, k)
  }

  /** The j-th modulus of the sequence that starts at k and applies `step`
      between terms. */
  function LandenTerm(step: real -> real, k: real, j: nat): real {
    if j == 0 then k else step(LandenTerm(step, k, j - 1))
  }

  /** The first n terms k_0 .. k_(n-1). */
  function LandenTerms(step: real -> real, k: real, n: nat): (r: seq<real>)
    ensures |r| == n
    ensures forall j :: 0 <= j < n ==> r[j] == LandenTerm(step, k, j)
  {
    if n == 0 then [] else LandenTerms(step, k, n - 1) + [LandenTerm(step, k, n - 1)]
  }

  /** The Landen loop of ArcJacSn: extend `ks` until its last entry is zero,
      failing once more than ten transformations were needed. */
  function Landen(step: real -> real, ks: seq<real>): (r: Result<seq<real>>)
    requires 1 <= |ks| <= LandenLimit + 1
    ensures r.Success? ==> ks <= r.value && |r.value| <= LandenLimit + 1 && r.value[|r.value| - 1] == 0.0
    ensures r.Failure? ==> r.error == InvalidOperation("Landen transformation not converging.")
    decreases LandenLimit + 1 - |ks|
  {
    var last := ks[|ks| - 1];
    if last == 0.0 then Success(ks)
    else if |ks| > LandenLimit then Failure(InvalidOperation("Landen transformation not converging."))
    else Landen(step, ks + [step(last)])
  }

  /** Started on the first n terms, none of k_0 .. k_(n-2) zero, the loop
      succeeds exactly when one of the terms k_(n-1) .. k_10 is zero, and it
      then returns the terms up to the first zero one. */
  lemma {:induction false} LandenConverges(step: real -> real, k: real, n: nat)
    requires 1 <= n <= LandenLimit + 1
    requires forall j :: 0 <= j < n - 1 ==> LandenTerm(step, k, j) != 0.0
    ensures var r := Landen(step, LandenTerms(step, k, n));
            && (r.Success? <==> exists j :: n - 1 <= j <= LandenLimit && LandenTerm(step, k, j) == 0.0)
            && (r.Failure? ==> r.error == InvalidOperation("Landen transformation not converging."))
            && (r.Success? ==>
                  && 1 <= |r.value| <= LandenLimit + 1
                  && r.value == LandenTerms(step, k, |r.value|)
                  && r.value[|r.value| - 1] == 0.0)
    decreases LandenLimit + 1 - n
  {
    var ks := LandenTerms(step, k, n);
    if ks[n - 1] == 0.0 {
      assert LandenTerm(step, k, n - 1) == 0.0;
    } else if n > LandenLimit {
      assert LandenTerm(step, k, n - 1) != 0.0;
    } else {
      var next := LandenTerms(step, k, n + 1);
      assert ks + [step(ks[n - 1])] == next;
      assert Landen(step, ks) == Landen(step, next);
      assert LandenTerm(step, k, n - 1) != 0.0;
      LandenConverges(step, k, n + 1);
    }
  }

  /** 0.5 log((1 + z) / (1 - z)). */
  function Atanh(m: MathLib, z: Complex): Complex {
    Scale(0.5, m.clog(CQuot(m, Add(One, z), Sub(One, z))))
  }

  /** -i log(i z + sqrt(1 - z^2)). */
  function Asin(m: MathLib, z: Complex): Complex {
    Mul(Neg(I), m.clog(Add(Mul(I, z), m.csqrt(Sub(One, Mul(z, z))))))
  }

  /** The product of 1 + k_i over i = 1 .. |ks| - 1, times pi / 2. */
  function LandenProduct(ks: seq<real>): real
    decreases |ks|
  {
    if |ks| <= 1 then PI / 2.0 else LandenProduct(ks[..|ks| - 1]) * (1.0 + ks[|ks| - 1])
  }

  /** The ascending sequence w_{i+1} = 2 w_i / ((1 + k_{i+1})(1 + sqrt(1 - (k_i w_i)^2)))
      for i = 0 .. n - 1, starting from w; the result is w_n. */
  function Descent(m: MathLib, ks: seq<real>, w: Complex, n: nat): Complex
    requires n < |ks|
  {
    if n == 0 then w
    else
      var wn := Descent(m, ks, w, n - 1);
      var kw := Scale(ks[n - 1], wn);
      var denominator := Scale(1.0 + ks[n], Add(One, m.csqrt(Mul(Sub(One, kw), Add(One, kw)))));
      CQuot(m, Scale(2.0, wn), denominator)
  }

  /** A value that is either a complex number or Complex.NaN. */
  datatype Value = Number(z: Complex) | NotANumber

  /** ArcJacSn: the inverse of sn for parameter m, through k = sqrt(m). A
      modulus above one gives NaN, a modulus of one gives atanh. */
  function ArcJacSn(m: MathLib, w: Complex, mm: real): (r: Result<Value>)
    ensures m.sqrt(mm) > 1.0 ==> r == Success(NotANumber)
    ensures m.sqrt(mm) == 1.0 ==> r == Success(Number(Atanh(m, w)))
    ensures r.Failure? <==> m.sqrt(mm) < 1.0 && Landen(Transformation(m), [m.sqrt(mm)]).Failure?
    ensures r.Failure? ==> r.error == InvalidOperation("Landen transformation not converging.")
  {
    var k := m.sqrt(mm);
    if k > 1.0 then Success(NotANumber)
    else if k == 1.0 then Success(Number(Atanh(m, w)))
    else
      var ks :- Landen(Transformation(m), [k]);
      Success(Number(FromModuli(m, ks, w)))
  }

  /** The value K u of ArcJacSn once the moduli are known, where K is the
      Landen product and u = (2 / pi) asin of the last ascending term. */
  function FromModuli(m: MathLib, ks: seq<real>, w: Complex): Complex
    requires |ks| >= 1
  {
    Scale(LandenProduct(ks), Scale(2.0 / PI, Asin(m, Descent(m, ks, w, |ks| - 1))))
  }

  /** Below modulus one, ArcJacSn succeeds exactly when one of the Landen
      terms k_0 .. k_10 is zero, and otherwise reports non-convergence. */
  lemma ArcJacSnSucceedsIffZeroTerm(m: MathLib, w: Complex, mm: real)
    requires m.sqrt(mm) < 1.0
    ensures ArcJacSn(m, w, mm).Success? <==>
              exists j :: 0 <= j <= LandenLimit && LandenTerm(Transformation(m), m.sqrt(mm), j) == 0.0
    ensures ArcJacSn(m, w, mm).Failure? ==>
              ArcJacSn(m, w, mm).error == InvalidOperation("Landen transformation not converging.")
  {
    var k := m.sqrt(mm);
    assert [k] == LandenTerms(Transformation(m), k, 1);
    LandenConverges(Transformation(m), k, 1);
  }

  /** ArcJacSc1: the imaginary part of ArcJacSn(i w, m), rejected when the
      real part is not negligible. A NaN passes the check, because every
      comparison with NaN is false, and comes back as the non-finite
      stand-in. */
  function ArcJacSc1(m: MathLib, w: real, mm: real): (r: Result<real>)
    ensures ArcJacSn(m, Complex(0.0, w), mm).Failure? ==> r == Failure(ArcJacSn(m, Complex(0.0, w), mm).error)
    ensures ArcJacSn(m, Complex(0.0, w), mm) == Success(NotANumber) ==> r == Success(m.nonFinite)
    ensures ArcJacSn(m, Complex(0.0, w), mm).Success? && ArcJacSn(m, Complex(0.0, w), mm).value.Number? ==>
              var z := ArcJacSn(m, Complex(0.0, w), mm).value.z;
              && (Abs(z.re) > 0.00000000000001 <==> r.Failure?)
              && (r.Failure? ==> r.error == InvalidOperation("Real part is not negligible."))
              && (r.Success? ==> r.value == z.im)
    ensures r.Failure? ==> r.error in {InvalidOperation("Landen transformation not converging."),
                                       InvalidOperation("Real part is not negligible.")}
  {
    var v :- ArcJacSn(m, Complex(0.0, w), mm);
    match v
    case NotANumber => Success(m.nonFinite)
    case Number(z) =>
      if Abs(z.re) > 0.00000000000001 then Failure(InvalidOperation("Real part is not negligible."))
      else Success(z.im)
  }
}
