/** The Chebyshev type II family (ChebyshevII.cs): zeros in conjugate pairs
    on the imaginary axis, poles at the reciprocals of the type I ellipse
    points, and a gain that balances their magnitudes. */
module ChebyshevII {
  import opened Complexes
  import opened Numerics
  import opened FilterTypes
  import FilterTools
  import ChebyshevI

  /** The stopband factor 1 / sqrt(10^(r / 10) - 1). */
  function StopbandFactor(m: MathLib, rippleDb: real): real {
    Quot(m, 1.0, ChebyshevI.RippleFactor(m, rippleDb))
  }

  /** The upper zero (0, 1 / cos theta_k) of the k-th pair. */
  function UpperZero(m: MathLib, order: int, k: int): Complex
    requires order >= 1
  {
    Complex(0.0, Quot(m, 1.0, m.cos(ChebyshevI.Theta(order, k))))
  }

  /** The zero pairs for k = 1 .. count, each upper zero followed by its
      mirror image. The source writes the lower zero as -1.0 / cos theta,
      which in IEEE arithmetic is the negation of 1.0 / cos theta. */
  function ZeroPairs(m: MathLib, order: int, count: nat): (r: seq<Complex>)
    requires order >= 1
    ensures |r| == 2 * count
    ensures forall j :: 0 <= j < count ==> r[2 * j] == UpperZero(m, order, j + 1) && r[2 * j + 1] == Conj(UpperZero(m, order, j + 1))
  {
    if count == 0 then []
    else
      var front := ZeroPairs(m, order, count - 1);
      var z := UpperZero(m, order, count);
      var r := front + [z, Complex(0.0, -z.im)];
      assert forall j :: 0 <= j < count - 1 ==> r[2 * j] == front[2 * j] && r[2 * j + 1] == front[2 * j + 1];
      r
  }

  /** Complex.One / s for every ellipse point s. */
  function Reciprocals(m: MathLib, ss: seq<Complex>): (r: seq<Complex>)
    ensures |r| == |ss|
    ensures forall i :: 0 <= i < |ss| ==> r[i] == CQuot(m, One, ss[i])
  {
    seq(|ss|, i requires 0 <= i < |ss| => CQuot(m, One, ss[i]))
  }

  /** The product of the magnitudes, accumulated left to right from 1. */
  function MagnitudeProduct(m: MathLib, rs: seq<Complex>): real
    decreases |rs|
  {
    if |rs| == 0 then 1.0 else MagnitudeProduct(m, rs[..|rs| - 1]) * m.cabs(rs[|rs| - 1])
  }

  /** ChebyshevII.PrototypeAnalogLowPass. */
  function PrototypeAnalogLowPass(m: MathLib, order: int, rippleDb: real): (r: Result<Zpk>)
    ensures r.Failure? <==> order < 1 || order > 14 || rippleDb <= 0.0
    ensures (order < 1 || order > 14) ==> r == Failure(ArgumentOutOfRange("filterOrder"))
    ensures 1 <= order <= 14 && rippleDb <= 0.0 ==> r == Failure(ArgumentOutOfRange("stopbandRippleDb"))
    ensures r.Success? ==>
      && |r.value.z| == 2 * (order / 2)
      && (forall j :: 0 <= j < order / 2 ==>
            r.value.z[2 * j] == UpperZero(m, order, j + 1) && r.value.z[2 * j + 1] == Conj(UpperZero(m, order, j + 1)))
      && |r.value.p| == order
    ensures r.Success? ==> r.value.k == MagnitudeGain(m, r.value.z, r.value.p)
  {
    if order < 1 || order > 14 then Failure(ArgumentOutOfRange("filterOrder"))
    else if rippleDb <= 0.0 then Failure(ArgumentOutOfRange("stopbandRippleDb"))
    else
      var eps := StopbandFactor(m, rippleDb);
      var mu := ChebyshevI.Spread(m, order, eps);
      var zeros := ZeroPairs(m, order, order / 2);
      var poles := Reciprocals(m, ChebyshevI.Points(m, order, mu, order));
      Success(Zpk(zeros, poles, MagnitudeGain(m, zeros, poles)))
  }

  /** Each pole times its ellipse point is one, whenever the point is not
      zero: the poles are the reciprocals of the type I points. */
  lemma PolesAreReciprocals(m: MathLib, order: int, rippleDb: real, j: nat)
    requires 1 <= order <= 14 && rippleDb > 0.0 && j < order
    ensures var s := ChebyshevI.Point(m, order, ChebyshevI.Spread(m, order, StopbandFactor(m, rippleDb)), j + 1);
            !IsZero(s) ==> Mul(PrototypeAnalogLowPass(m, order, rippleDb).value.p[j], s) == One
  {
  }

  /** The gain: the product of the pole magnitudes over the product of the
      zero magnitudes. */
  function MagnitudeGain(m: MathLib, zeros: seq<Complex>, poles: seq<Complex>): (k: real)
    ensures MagnitudeProduct(m, zeros) != 0.0 ==> k * MagnitudeProduct(m, zeros) == MagnitudeProduct(m, poles)
  {
    Quot(m, MagnitudeProduct(m, poles), MagnitudeProduct(m, zeros))
  }

  /** Order one has no zeros, so the gain is the magnitude of its one pole. */
  lemma OrderOneGain(m: MathLib, rippleDb: real)
    requires rippleDb > 0.0
    ensures var proto := PrototypeAnalogLowPass(m, 1, rippleDb).value;
            proto.z == [] && |proto.p| == 1 && proto.k == m.cabs(proto.p[0])
  {
    var proto := PrototypeAnalogLowPass(m, 1, rippleDb).value;
    assert proto.p[..0] == [];
  }

  /** The zeros are closed under conjugation. */
  lemma ZerosConjugateClosed(m: MathLib, order: int, rippleDb: real)
    requires 1 <= order <= 14 && rippleDb > 0.0
    ensures FilterTools.ConjugateClosed(PrototypeAnalogLowPass(m, order, rippleDb).value.z)
  {
    FilterTools.PairsConjugateClosed(PrototypeAnalogLowPass(m, order, rippleDb).value.z, order / 2);
  }

  /** ChebyshevII.CalcZpk and ChebyshevII.CalcTransferFunction together: the
      frequencies are checked before the order and the ripple. */
  function Calc(m: MathLib, t: FrequencyFilterType, fs: real, low: real, high: real, order: int, rippleDb: real)
    : (r: Result<(Zpk, TransferFunction)>)
    ensures !FilterTools.FrequenciesAccepted(t, fs, low, high) ==>
              r == Failure(FilterTools.FrequencyVerification(t, fs, low, high).error)
    ensures FilterTools.FrequenciesAccepted(t, fs, low, high) && (order < 1 || order > 14) ==>
              r == Failure(ArgumentOutOfRange("filterOrder"))
    ensures FilterTools.FrequenciesAccepted(t, fs, low, high) && 1 <= order <= 14 && rippleDb <= 0.0 ==>
              r == Failure(ArgumentOutOfRange("stopbandRippleDb"))
    ensures r.Success? <==> FilterTools.FrequenciesAccepted(t, fs, low, high) && 1 <= order <= 14 && rippleDb > 0.0
    ensures r.Success? ==> r.value.1 == FilterTools.Zpk2Tf(r.value.0)
    ensures r.Success? ==> 1 <= |r.value.1.a| <= |r.value.1.b|
  {
    FilterTools.Design(m, FrequencySpec(t, low, high, order, fs), PrototypeAnalogLowPass(m, order, rippleDb))
  }
}
