/** Complex polynomials as coefficient sequences, highest power first — the
    layout FilterTools.Zpk2Tf builds and Bessel.EvaluatePolynomial reads. */
module Polynomials {
  import opened Complexes

  /** Horner evaluation, folding the coefficients left to right:
      result := result * x + c[i]. */
  function Horner(c: seq<Complex>, x: Complex): Complex
    decreases |c|
  {
    if |c| == 0 then Zero else Add(Mul(Horner(c[..|c| - 1], x), x), c[|c| - 1])
  }

  /** The textbook reading of a coefficient list: sum of c[i] * x^(|c|-1-i). */
  function PowerSum(c: seq<Complex>, x: Complex): Complex
    decreases |c|
  {
    if |c| == 0 then Zero else Add(Mul(c[0], PowN(x, |c| - 1)), PowerSum(c[1..], x))
  }

  /** Real coefficients seen as complex ones. */
  function Lift(c: seq<real>): (r: seq<Complex>)
    ensures |r| == |c|
    ensures forall i :: 0 <= i < |c| ==> r[i] == OfReal(c[i])
  {
    seq(|c|, i requires 0 <= i < |c| => OfReal(c[i]))
  }

  /** Real parts of complex coefficients. */
  function RealParts(c: seq<Complex>): (r: seq<real>)
    ensures |r| == |c|
    ensures forall i :: 0 <= i < |c| ==> r[i] == c[i].re
  {
    seq(|c|, i requires 0 <= i < |c| => c[i].re)
  }

  /** Every coefficient multiplied by k. */
  function ScaleAll(k: Complex, c: seq<Complex>): (r: seq<Complex>)
    ensures |r| == |c|
    ensures forall i :: 0 <= i < |c| ==> r[i] == Mul(c[i], k)
  {
    seq(|c|, i requires 0 <= i < |c| => Mul(c[i], k))
  }

  /** Partial convolution sum: the terms a[j] * b[i - j] for j < n whose index
      i - j falls inside b, added in increasing j, starting from zero. */
  function ConvSum(a: seq<Complex>, b: seq<Complex>, i: int, n: nat): Complex
    requires n <= |a|
  {
    if n == 0 then Zero
    else if 0 <= i - (n - 1) < |b| then Add(ConvSum(a, b, i, n - 1), Mul(a[n - 1], b[i - (n - 1)]))
    else ConvSum(a, b, i, n - 1)
  }

  /** Polynomial product by convolution (FilterTools.Multiply). */
  function Multiply(a: seq<Complex>, b: seq<Complex>): (c: seq<Complex>)
    requires |a| + |b| >= 1
    ensures |c| == |a| + |b| - 1
  {
    seq(|a| + |b| - 1, i requires 0 <= i < |a| + |b| - 1 => ConvSum(a, b, i, |a|))
  }

  /** The linear factor x - r as a coefficient list. */
  function Linear(r: Complex): seq<Complex> {
    [One, Neg(r)]
  }

  /** Terms whose index j lies |b| or more below i contribute nothing. */
  lemma {:induction false} ConvSumBelow(a: seq<Complex>, b: seq<Complex>, i: int, n: nat)
    requires n <= |a| && n + |b| <= i + 1
    ensures ConvSum(a, b, i, n) == Zero
  {
    if n > 0 {
      ConvSumBelow(a, b, i, n - 1);
    }
  }

  /** Terms whose index j lies above i contribute nothing. */
  lemma {:induction false} ConvSumAbove(a: seq<Complex>, b: seq<Complex>, i: int, n: nat)
    requires 0 <= i < n <= |a|
    ensures ConvSum(a, b, i, n) == ConvSum(a, b, i, i + 1)
  {
    if n > i + 1 {
      ConvSumAbove(a, b, i, n - 1);
    }
  }

  /** Against a two-coefficient factor, coefficient i of the product has at
      most the two terms a[i-1] * b[1] and a[i] * b[0]. */
  lemma TwoTermSum(a: seq<Complex>, b: seq<Complex>, i: int)
    requires |b| == 2 && 0 <= i <= |a|
    ensures ConvSum(a, b, i, |a|)
      == Add(if i >= 1 then Mul(a[i - 1], b[1]) else Zero, if i < |a| then Mul(a[i], b[0]) else Zero)
  {
    if i >= 1 {
      ConvSumBelow(a, b, i, i - 1);
      assert ConvSum(a, b, i, i) == Add(Zero, Mul(a[i - 1], b[1]));
    }
    if i < |a| {
      ConvSumAbove(a, b, i, |a|);
      if i == 0 {
        assert ConvSum(a, b, i, i) == Zero;
      }
      assert ConvSum(a, b, i, i + 1) == Add(ConvSum(a, b, i, i), Mul(a[i], b[0]));
    }
  }

  /** The coefficients of a * (x - r): a shifted up one place minus r times a. */
  function TimesLinear(a: seq<Complex>, r: Complex): (c: seq<Complex>)
    ensures |c| == |a| + 1
  {
    seq(|a| + 1, i requires 0 <= i < |a| + 1 =>
      Add(if i >= 1 then Mul(a[i - 1], Neg(r)) else Zero, if i < |a| then a[i] else Zero))
  }

  lemma MultiplyLinear(a: seq<Complex>, r: Complex)
    ensures Multiply(a, Linear(r)) == TimesLinear(a, r)
  {
    var b := Linear(r);
    var c := Multiply(a, b);
    var t := TimesLinear(a, r);
    forall i | 0 <= i < |c|
      ensures c[i] == t[i]
    {
      var low := if i >= 1 then Mul(a[i - 1], Neg(r)) else Zero;
      var high := if i < |a| then a[i] else Zero;
      assert t[i] == Add(low, high);
      assert c[i] == ConvSum(a, b, i, |a|);
      TwoTermSum(a, b, i);
      if i < |a| {
        MulOne(a[i]);
      }
      assert ConvSum(a, b, i, |a|) == Add(low, high);
    }
  }

  /** Appending a zero coefficient multiplies the polynomial by x. */
  lemma HornerShift(a: seq<Complex>, x: Complex)
    ensures Horner(a + [Zero], x) == Mul(Horner(a, x), x)
  {
    assert (a + [Zero])[..|a|] == a;
  }

  /** A leading zero coefficient does not change the value. */
  lemma {:induction false} HornerLeadingZero(a: seq<Complex>, x: Complex)
    ensures Horner([Zero] + a, x) == Horner(a, x)
    decreases |a|
  {
    if |a| > 0 {
      var front := a[..|a| - 1];
      assert ([Zero] + a)[..|a|] == [Zero] + front;
      HornerLeadingZero(front, x);
    } else {
      MulZero(x);
    }
  }

  /** Horner evaluation is linear in the coefficients. */
  lemma {:induction false} HornerAdd(u: seq<Complex>, v: seq<Complex>, x: Complex)
    requires |u| == |v|
    ensures Horner(seq(|u|, i requires 0 <= i < |u| => Add(u[i], v[i])), x) == Add(Horner(u, x), Horner(v, x))
    decreases |u|
  {
    var w := seq(|u|, i requires 0 <= i < |u| => Add(u[i], v[i]));
    if |u| > 0 {
      var n := |u| - 1;
      assert w[..n] == seq(n, i requires 0 <= i < n => Add(u[..n][i], v[..n][i]));
      HornerAdd(u[..n], v[..n], x);
      DistribRight(Horner(u[..n], x), Horner(v[..n], x), x);
    }
  }

  lemma {:induction false} HornerScale(u: seq<Complex>, k: Complex, x: Complex)
    ensures Horner(seq(|u|, i requires 0 <= i < |u| => Mul(u[i], k)), x) == Mul(Horner(u, x), k)
    decreases |u|
  {
    var w := seq(|u|, i requires 0 <= i < |u| => Mul(u[i], k));
    if |u| > 0 {
      var n := |u| - 1;
      var h := Horner(u[..n], x);
      assert w[..n] == seq(n, i requires 0 <= i < n => Mul(u[..n][i], k));
      HornerScale(u[..n], k, x);
      assert Horner(w, x) == Add(Mul(Mul(h, k), x), Mul(u[n], k));
      MulAssoc(h, k, x);
      MulComm(k, x);
      MulAssoc(h, x, k);
      DistribRight(Mul(h, x), u[n], k);
    } else {
      MulZero(k);
    }
  }

  /** Multiplying by the coefficient list of x - r multiplies the value by x - r. */
  lemma HornerTimesLinear(a: seq<Complex>, r: Complex, x: Complex)
    ensures Horner(TimesLinear(a, r), x) == Mul(Horner(a, x), Sub(x, r))
  {
    var hi := a + [Zero];
    var lo := [Zero] + a;
    var scaled := seq(|lo|, i requires 0 <= i < |lo| => Mul(lo[i], Neg(r)));
    MulZero(Neg(r));
    assert TimesLinear(a, r) == seq(|hi|, i requires 0 <= i < |hi| => Add(scaled[i], hi[i]));
    HornerAdd(scaled, hi, x);
    HornerShift(a, x);
    HornerScale(lo, Neg(r), x);
    HornerLeadingZero(a, x);
    FactorLinear(Horner(a, x), r, x);
  }

  lemma FactorLinear(h: Complex, r: Complex, x: Complex)
    ensures Add(Mul(h, Neg(r)), Mul(h, x)) == Mul(h, Sub(x, r))
  {
  }

  /** Product of the factors (x - rs[i]), taken left to right. */
  function RootProduct(rs: seq<Complex>, x: Complex): Complex
    decreases |rs|
  {
    if |rs| == 0 then One else Mul(RootProduct(rs[..|rs| - 1], x), Sub(x, rs[|rs| - 1]))
  }

  /** The monic polynomial with the given roots, built the way Zpk2Tf builds
      it: start from [1] and convolve with [1, -r] for each root in order. */
  function FromRoots(rs: seq<Complex>): (c: seq<Complex>)
    ensures |c| == |rs| + 1
    ensures c[0] == One
    decreases |rs|
  {
    if |rs| == 0 then [One]
    else
      var prev := FromRoots(rs[..|rs| - 1]);
      var r := rs[|rs| - 1];
      MultiplyLinear(prev, r);
      assert TimesLinear(prev, r)[0] == Add(Zero, One);
      Multiply(prev, Linear(r))
  }

  /** FromRoots really is the product of the linear factors. */
  lemma {:induction false} FromRootsValue(rs: seq<Complex>, x: Complex)
    ensures Horner(FromRoots(rs), x) == RootProduct(rs, x)
    decreases |rs|
  {
    if |rs| == 0 {
      MulZero(x);
    } else {
      var front := rs[..|rs| - 1];
      var r := rs[|rs| - 1];
      FromRootsValue(front, x);
      MultiplyLinear(FromRoots(front), r);
      HornerTimesLinear(FromRoots(front), r, x);
    }
  }

  /** The product of linear factors vanishes at every root. */
  lemma {:induction false} RootProductVanishes(rs: seq<Complex>, j: nat)
    requires j < |rs|
    ensures RootProduct(rs, rs[j]) == Zero
    decreases |rs|
  {
    var n := |rs| - 1;
    if j == n {
      MulZero(RootProduct(rs[..n], rs[j]));
    } else {
      assert rs[..n][j] == rs[j];
      RootProductVanishes(rs[..n], j);
      MulZero(Sub(rs[j], rs[n]));
    }
  }

  /** Every root of the list is a root of the polynomial FromRoots builds. */
  lemma FromRootsVanishes(rs: seq<Complex>, j: nat)
    requires j < |rs|
    ensures Horner(FromRoots(rs), rs[j]) == Zero
  {
    FromRootsValue(rs, rs[j]);
    RootProductVanishes(rs, j);
  }

  /** Horner's rule computes the power-sum value of the coefficients. */
  lemma {:induction false} HornerIsPowerSum(c: seq<Complex>, x: Complex)
    ensures Horner(c, x) == PowerSum(c, x)
    decreases |c|
  {
    if |c| > 0 {
      var n := |c| - 1;
      HornerIsPowerSum(c[..n], x);
      PowerSumSnoc(c[..n], c[n], x);
      assert c[..n] + [c[n]] == c;
    }
  }

  /** Appending a coefficient multiplies the earlier terms by x. */
  lemma {:induction false} PowerSumSnoc(a: seq<Complex>, t: Complex, x: Complex)
    ensures PowerSum(a + [t], x) == Add(Mul(PowerSum(a, x), x), t)
    decreases |a|
  {
    if |a| == 0 {
      assert PowerSum([t], x) == Add(Mul(t, One), Zero);
      MulOne(t);
      MulZero(x);
    } else {
      var rest := a[1..];
      assert (a + [t])[1..] == rest + [t];
      PowerSumSnoc(rest, t, x);
      var k := |rest|;
      assert PowN(x, k + 1) == Mul(PowN(x, k), x);
      MulAssoc(a[0], PowN(x, k), x);
      DistribRight(Mul(a[0], PowN(x, k)), PowerSum(rest, x), x);
    }
  }
}
