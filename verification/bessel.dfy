/** The Bessel family (Bessel.cs): the prototype poles are the roots of the
    reverse Bessel polynomial, found by Durand-Kerner iteration and scaled so
    that the group delay is normalised. */
module Bessel {
  import opened Complexes
  import opened Numerics
  import opened FilterTypes
  import opened Polynomials
  import FilterTools

  // ---------------------------------------------------------------------------
  // Exact integer coefficients

  /** n!, with every n <= 1 giving 1. */
  function Factorial(n: int): (r: nat)
    ensures r >= 1
    decreases n
  {
    if n <= 1 then 1 else n * Factorial(n - 1)
  }

  /** Bessel.Factorial: the product 2 * 3 * ... * n, accumulated upwards. */
  method ComputeFactorial(n: int) returns (r: nat)
    ensures r == Factorial(n)
  {
    var acc: int := 1;
    var i := 2;
    while i <= n
      invariant 2 <= i <= if n >= 2 then n + 1 else 2
      invariant acc == Factorial(i - 1)
    {
      acc := i * acc;
      i := i + 1;
    }
    r := acc;
  }

  function Pow2(k: nat): (r: nat)
    ensures r >= 1
  {
    if k == 0 then 1 else 2 * Pow2(k - 1)
  }

  /** 2^(n - i) i! (n - i)!, which is never zero. */
  function Denominator(n: nat, i: nat): (d: int)
    requires i <= n
    ensures d >= 1
  {
    var x := Pow2(n - i);
    var y := Factorial(i);
    var z := Factorial(n - i);
    PositiveProduct(x, y, z);
    x * y * z
  }

  lemma PositiveProduct(x: int, y: int, z: int)
    requires x >= 1 && y >= 1 && z >= 1
    ensures x * y * z >= 1
  {
    assert x * y >= 1;
  }

  /** The i-th coefficient (2n - i)! / (2^(n - i) i! (n - i)!), divided as
      integers. */
  function BesselCoefficient(n: nat, i: nat): int
    requires i <= n
  {
    Factorial(2 * n - i) / Denominator(n, i)
  }

  /** Bessel.BesselPoly: the coefficients a[0..n], lowest power first. */
  function BesselPoly(n: nat): (a: seq<real>)
    ensures |a| == n + 1
    ensures forall i :: 0 <= i <= n ==> a[i] == BesselCoefficient(n, i) as real
  {
    seq(n + 1, i requires 0 <= i <= n => BesselCoefficient(n, i) as real)
  }

  /** The highest coefficient is n! / n! = 1. */
  lemma BesselPolyMonic(n: nat)
    ensures BesselPoly(n)[n] == 1.0
  {
    assert Denominator(n, n) == Factorial(n);
  }

  /** The third-order polynomial 15 + 15 s + 6 s^2 + s^3. */
  lemma BesselPolyThree()
    ensures BesselPoly(3) == [15.0, 15.0, 6.0, 1.0]
  {
    assert BesselCoefficient(3, 0) == 15 && BesselCoefficient(3, 1) == 15;
    assert BesselCoefficient(3, 2) == 6 && BesselCoefficient(3, 3) == 1;
  }

  /** The list read back to front (the source's Reverse()). */
  function Reverse(s: seq<real>): (r: seq<real>)
    ensures |r| == |s|
    ensures forall i :: 0 <= i < |s| ==> r[i] == s[|s| - 1 - i]
  {
    seq(|s|, i requires 0 <= i < |s| => s[|s| - 1 - i])
  }

  /** Reversed, the Bessel coefficients start with 1: the polynomial handed to
      the root finder is monic. */
  lemma ReversedBesselPolyMonic(n: nat)
    ensures Reverse(BesselPoly(n))[0] == 1.0
  {
    BesselPolyMonic(n);
  }

  // ---------------------------------------------------------------------------
  // Polynomial evaluation and comparison

  /** Bessel.EvaluatePolynomial: Horner's scheme over real coefficients,
      highest power first. */
  method EvaluatePolynomial(c: seq<real>, x: Complex) returns (r: Complex)
    ensures r == PowerSum(Lift(c), x)
    ensures |c| == 0 ==> r == Zero
  {
    r := Zero;
    var i := 0;
    while i < |c|
      invariant 0 <= i <= |c|
      invariant r == Horner(Lift(c[..i]), x)
    {
      assert Lift(c[..i + 1])[..i] == Lift(c[..i]);
      r := Add(Mul(r, x), OfReal(c[i]));
      i := i + 1;
    }
    assert c[..i] == c;
    HornerIsPowerSum(Lift(c), x);
  }

  /** Two root lists agree within the tolerance at every index. */
  predicate Settled(m: MathLib, a: seq<Complex>, b: seq<Complex>, tol: real)
    requires |a| <= |b|
  {
    forall i :: 0 <= i < |a| ==> m.cabs(Sub(a[i], b[i])) <= tol
  }

  /** Bessel.ArraysAreEqual: the first index whose distance exceeds the
      tolerance answers false. */
  method ArraysAreEqual(m: MathLib, a: seq<Complex>, b: seq<Complex>, tol: real) returns (r: bool)
    requires |a| <= |b|
    ensures r <==> Settled(m, a, b, tol)
  {
    var i := 0;
    while i < |a|
      invariant 0 <= i <= |a|
      invariant forall j :: 0 <= j < i ==> m.cabs(Sub(a[j], b[j])) <= tol
    {
      if m.cabs(Sub(a[i], b[i])) > tol {
        return false;
      }
      i := i + 1;
    }
    return true;
  }

  // ---------------------------------------------------------------------------
  // Durand-Kerner root finding

  const RootFindingIterations: nat := 5000
  const StopTolerance: real := 0.00000001
  /** The starting point of the iteration: the powers of 0.4 + 0.9i. */
  const Seed: Complex := Complex(0.4, 0.9)

  /** The powers 1, z, z^2, ..., z^(n-1). */
  function Powers(z: Complex, n: nat): (r: seq<Complex>)
    ensures |r| == n
  {
    seq(n, j requires 0 <= j < n => PowN(z, j))
  }

  function InitialGuess(n: nat): (r: seq<Complex>)
    ensures |r| == n
  {
    Powers(Seed, n)
  }

  /** The product of (x[i] - x[j]) over j < n, j != i, each new factor
      multiplied on the left. */
  function DiffProduct(x: seq<Complex>, i: nat, n: nat): Complex
    requires i < |x| && n <= |x|
  {
    if n == 0 then One
    else if n - 1 != i then Mul(Sub(x[i], x[n - 1]), DiffProduct(x, i, n - 1))
    else DiffProduct(x, i, n - 1)
  }

  /** The product of differences vanishes exactly when x[i] repeats among
      the first n entries. */
  lemma {:induction false} DiffProductZero(x: seq<Complex>, i: nat, n: nat)
    requires i < |x| && n <= |x|
    ensures IsZero(DiffProduct(x, i, n)) <==> exists j :: 0 <= j < n && j != i && x[j] == x[i]
  {
    if n > 0 {
      DiffProductZero(x, i, n - 1);
      var rest := DiffProduct(x, i, n - 1);
      if n - 1 != i {
        var d := Sub(x[i], x[n - 1]);
        if IsZero(d) {
          MulZero(rest);
          assert x[n - 1] == x[i];
        } else if IsZero(rest) {
          MulZero(d);
        } else {
          MulComm(d, rest);
          if IsZero(Mul(d, rest)) {
            ZeroProduct(rest, d);
          }
        }
      }
    }
  }

  /** One sweep: every root moves by its polynomial value divided by the
      product of its differences to the others, all computed from the
      previous sweep. */
  function Step(m: MathLib, a: seq<real>, x: seq<Complex>): (r: seq<Complex>)
    ensures |r| == |x|
  {
    seq(|x|, i requires 0 <= i < |x| => Sub(x[i], CQuot(m, Horner(Lift(a), x[i]), DiffProduct(x, i, |x|))))
  }

  /** With distinct iterates, a sweep leaves x[i] where it is exactly when x[i]
      is a root of the polynomial. */
  lemma StepFixesExactlyRoots(m: MathLib, a: seq<real>, x: seq<Complex>, i: nat)
    requires i < |x|
    requires forall j :: 0 <= j < |x| && j != i ==> x[j] != x[i]
    ensures Step(m, a, x)[i] == x[i] <==> Horner(Lift(a), x[i]) == Zero
  {
    var d := DiffProduct(x, i, |x|);
    DiffProductZero(x, i, |x|);
    var q := CQuot(m, Horner(Lift(a), x[i]), d);
    assert Step(m, a, x)[i] == Sub(x[i], q);
    if Horner(Lift(a), x[i]) == Zero {
      ZeroProduct(q, d);
    } else if Sub(x[i], q) == x[i] {
      assert IsZero(q);
      MulZero(d);
    }
  }

  /** The iterate after n sweeps. */
  function Iterate(m: MathLib, a: seq<real>, x: seq<Complex>, n: nat): (r: seq<Complex>)
    ensures |r| == |x|
  {
    if n == 0 then x else Step(m, a, Iterate(m, a, x, n - 1))
  }

  /** Sweep s (counted from 1) changed no root by more than the tolerance. */
  predicate SettlesAt(m: MathLib, a: seq<real>, x: seq<Complex>, s: nat)
    requires s >= 1
  {
    Settled(m, Iterate(m, a, x, s - 1), Iterate(m, a, x, s), StopTolerance)
  }

  /** The sweep after which the loop stops, searching from sweep s: the first
      sweep that settles, or sweep 5001 when none does. */
  function StopSweep(m: MathLib, a: seq<real>, x: seq<Complex>, s: nat): (r: nat)
    requires 1 <= s <= RootFindingIterations + 1
    ensures s <= r <= RootFindingIterations + 1
    ensures r == RootFindingIterations + 1 || SettlesAt(m, a, x, r)
    ensures forall t :: s <= t < r ==> !SettlesAt(m, a, x, t)
    decreases RootFindingIterations + 1 - s
  {
    if s == RootFindingIterations + 1 || SettlesAt(m, a, x, s) then s
    else StopSweep(m, a, x, s + 1)
  }

  /** The roots the finder returns for coefficients a (highest power first). */
  function FoundRoots(m: MathLib, a: seq<real>): (r: seq<Complex>)
    requires |a| >= 2
    ensures |r| == |a| - 1
  {
    RootsFrom(m, a, InitialGuess(|a| - 1))
  }

  /** The iterate the loop stops at, starting from x. */
  function RootsFrom(m: MathLib, a: seq<real>, x: seq<Complex>): (r: seq<Complex>)
    ensures |r| == |x|
  {
    Iterate(m, a, x, StopSweep(m, a, x, 1))
  }

  /** Bessel.PolynomialRoots. An empty coefficient list asks for an array of
      length -1 (OverflowException); a constant writes the first entry of an
      empty array (IndexOutOfRangeException). */
  method PolynomialRoots(m: MathLib, a: seq<real>) returns (r: Result<seq<Complex>>)
    ensures |a| == 0 ==> r == Failure(Overflow)
    ensures |a| == 1 ==> r == Failure(IndexOutOfRange)
    ensures |a| >= 2 ==> r == Success(FoundRoots(m, a))
  {
    if |a| == 0 {
      return Failure(Overflow);
    }
    var n := |a| - 1;
    if n == 0 {
      return Failure(IndexOutOfRange);
    }
    var x := StartingRoots(n, Seed);
    r := Sweeps(m, a, x);
  }

  /** The first loop of PolynomialRoots: x[0] = 1, x[i] = x[i - 1] * z. */
  method StartingRoots(n: nat, z: Complex) returns (x: seq<Complex>)
    requires n >= 1
    ensures x == Powers(z, n)
  {
    x := [One];
    var i := 1;
    while i < n
      invariant 1 <= i <= n && |x| == i
      invariant forall j :: 0 <= j < i ==> x[j] == PowN(z, j)
    {
      x := x + [Mul(x[i - 1], z)];
      i := i + 1;
    }
  }

  /** The sweep loop of PolynomialRoots: sweep, count, stop once settled or
      once the count passes 5000. */
  method Sweeps(m: MathLib, a: seq<real>, x: seq<Complex>) returns (r: Result<seq<Complex>>)
    requires |x| >= 1
    ensures r == Success(RootsFrom(m, a, x))
  {
    var prev := x;
    var iter := 0;
    while true
      invariant 0 <= iter <= RootFindingIterations
      invariant prev == Iterate(m, a, x, iter)
      invariant StopSweep(m, a, x, 1) == StopSweep(m, a, x, iter + 1)
      decreases RootFindingIterations - iter
    {
      var roots := Step(m, a, prev);
      iter := iter + 1;
      assert roots == Iterate(m, a, x, iter);
      var same := ArraysAreEqual(m, prev, roots, StopTolerance);
      if iter > RootFindingIterations || same {
        return Success(roots);
      }
      prev := roots;
    }
  }

  /** The root finder stops at the first settled sweep, and never runs more
      than 5001 sweeps. */
  lemma FoundRootsStop(m: MathLib, a: seq<real>)
    requires |a| >= 2
    ensures var x := InitialGuess(|a| - 1);
            exists s :: 1 <= s <= RootFindingIterations + 1
              && FoundRoots(m, a) == Iterate(m, a, x, s)
              && (s == RootFindingIterations + 1 || SettlesAt(m, a, x, s))
              && (forall t :: 1 <= t < s ==> !SettlesAt(m, a, x, t))
  {
    var x := InitialGuess(|a| - 1);
    var s := StopSweep(m, a, x, 1);
    assert FoundRoots(m, a) == Iterate(m, a, x, s);
  }

  // ---------------------------------------------------------------------------
  // Prototype

  /** 1 / a[0]^(1/n), the factor every root is scaled by. */
  function PoleScale(m: MathLib, order: nat): real
    requires order >= 1
  {
    Quot(m, 1.0, m.pow(BesselPoly(order)[0], 1.0 / (order as real)))
  }

  /** The prototype's poles: root i of the reversed Bessel polynomial
      times the scale factor. */
  function Poles(m: MathLib, order: nat): (r: seq<Complex>)
    requires order >= 1
    ensures |r| == order
  {
    var roots := FoundRoots(m, Reverse(BesselPoly(order)));
    seq(order, i requires 0 <= i < order => Mul(roots[i], OfReal(PoleScale(m, order))))
  }

  /** The prototype Bessel.PrototypeAnalogLowPass returns, as a value. */
  function Prototype(m: MathLib, order: int): (r: Result<Zpk>)
    ensures r.Success? <==> 1 <= order <= 16
    ensures r.Success? ==> |r.value.p| == order
  {
    if order < 1 || order > 16 then Failure(ArgumentOutOfRange("filterOrder"))
    else Success(Zpk([], Poles(m, order), 1.0))
  }

  /** Bessel.GetPoles: the roots of the reversed Bessel polynomial, each
      multiplied by the scale factor. */
  method GetPoles(m: MathLib, order: nat) returns (poles: seq<Complex>)
    requires order >= 1
    ensures |poles| == order
    ensures forall i :: 0 <= i < order ==>
              poles[i] == Mul(FoundRoots(m, Reverse(BesselPoly(order)))[i], OfReal(PoleScale(m, order)))
    ensures poles == Poles(m, order)
  {
    var poly := BesselPoly(order);
    var roots := PolynomialRoots(m, Reverse(poly));
    var scale := Quot(m, 1.0, m.pow(poly[0], 1.0 / (order as real)));
    poles := roots.value;
    var i := 0;
    while i < |poles|
      invariant 0 <= i <= |poles| == order
      invariant forall j :: 0 <= j < i ==> poles[j] == Mul(roots.value[j], OfReal(scale))
      invariant forall j :: i <= j < |poles| ==> poles[j] == roots.value[j]
    {
      poles := poles[i := Mul(poles[i], OfReal(scale))];
      i := i + 1;
    }
    assert poles == Poles(m, order) by {
      var expected := Poles(m, order);
      assert |poles| == |expected|;
      forall j | 0 <= j < order
        ensures poles[j] == expected[j]
      {
      }
    }
  }

  /** Bessel.PrototypeAnalogLowPass. */
  method PrototypeAnalogLowPass(m: MathLib, order: int) returns (r: Result<Zpk>)
    ensures r.Failure? <==> order < 1 || order > 16
    ensures r.Failure? ==> r.error == ArgumentOutOfRange("filterOrder")
    ensures r.Success? ==> r.value.z == [] && r.value.k == 1.0 && |r.value.p| == order
    ensures r.Success? ==> forall i :: 0 <= i < order ==>
              r.value.p[i] == Mul(FoundRoots(m, Reverse(BesselPoly(order)))[i], OfReal(PoleScale(m, order)))
    ensures r == Prototype(m, order)
  {
    if order < 1 || order > 16 {
      return Failure(ArgumentOutOfRange("filterOrder"));
    }
    var poles := GetPoles(m, order);
    return Success(Zpk([], poles, 1.0));
  }

  /** Bessel.CalcZpk and Bessel.CalcTransferFunction together: the
      frequencies are checked before the order, then the pipeline runs. */
  method Calc(m: MathLib, t: FrequencyFilterType, fs: real, low: real, high: real, order: int)
    returns (r: Result<(Zpk, TransferFunction)>)
    ensures !FilterTools.FrequenciesAccepted(t, fs, low, high) ==>
              r == Failure(FilterTools.FrequencyVerification(t, fs, low, high).error)
    ensures FilterTools.FrequenciesAccepted(t, fs, low, high) && (order < 1 || order > 16) ==>
              r == Failure(ArgumentOutOfRange("filterOrder"))
    ensures r.Success? <==> FilterTools.FrequenciesAccepted(t, fs, low, high) && 1 <= order <= 16
    ensures r.Success? ==> r.value.1 == FilterTools.Zpk2Tf(r.value.0)
    ensures r.Success? ==> 1 <= |r.value.1.a| <= |r.value.1.b|
    ensures r == FilterTools.Design(m, FrequencySpec(t, low, high, order, fs), Prototype(m, order))
  {
    var proto := PrototypeAnalogLowPass(m, order);
    r := FilterTools.Design(m, FrequencySpec(t, low, high, order, fs), proto);
  }
}
