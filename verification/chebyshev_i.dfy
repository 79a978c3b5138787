/** The Chebyshev type I family (ChebyshevI.cs): poles on an ellipse, no
    zeros, and a gain that depends on the parity of the order. */
module ChebyshevI {
  import opened Complexes
  import opened Numerics
  import opened FilterTypes
  import Polynomials
  import FilterTools

  /** The ripple factor sqrt(10^(r / 10) - 1) of a ripple of r decibels. */
  function RippleFactor(m: MathLib, rippleDb: real): real {
    m.sqrt(m.pow(10.0, rippleDb / 10.0) - 1.0)
  }

  /** asinh(1 / eps) / n, the radial parameter of the pole ellipse. */
  function Spread(m: MathLib, order: int, eps: real): real
    requires order >= 1
  {
    FilterTools.Asinh(m, Quot(m, 1.0, eps)) / (order as real)
  }

  /** The angle pi (2k - 1) / (2n) of the k-th pole, k counted from 1. */
  function Theta(order: int, k: int): real
    requires order >= 1
  {
    PI * ((2 * k - 1) as real) / (2.0 * (order as real))
  }

  /** The k-th point (-sinh(mu) sin theta, cosh(mu) cos theta) of the
      ellipse. */
  function Point(m: MathLib, order: int, mu: real, k: int): Complex
    requires order >= 1
  {
    Complex(-m.sinh(mu) * m.sin(Theta(order, k)), m.cosh(mu) * m.cos(Theta(order, k)))
  }

  /** The points for k = 1 .. count, in order. */
  function Points(m: MathLib, order: int, mu: real, count: nat): (r: seq<Complex>)
    requires order >= 1
    ensures |r| == count
    ensures forall j :: 0 <= j < count ==> r[j] == Point(m, order, mu, j + 1)
  {
    if count == 0 then [] else Points(m, order, mu, count - 1) + [Point(m, order, mu, count)]
  }

  /** 1 / sqrt(1 + eps^2), the passband correction of an even order. */
  function EvenCorrection(m: MathLib, eps: real): real {
    Quot(m, 1.0, m.sqrt(1.0 + Sq(eps)))
  }

  /** The even-order gain: the corrected magnitude of the product of the
      negated poles. */
  function CorrectedMagnitude(m: MathLib, eps: real, poles: seq<Complex>): real {
    EvenCorrection(m, eps) * m.cabs(FilterTools.NegProduct(poles))
  }

  /** ChebyshevI.PrototypeAnalogLowPass. */
  function PrototypeAnalogLowPass(m: MathLib, order: int, rippleDb: real): (r: Result<Zpk>)
    ensures r.Failure? <==> order < 1 || order > 16 || rippleDb <= 0.0
    ensures (order < 1 || order > 16) ==> r == Failure(ArgumentOutOfRange("filterOrder"))
    ensures 1 <= order <= 16 && rippleDb <= 0.0 ==> r == Failure(ArgumentOutOfRange("passbandRippleDb"))
    ensures r.Success? ==> var eps := RippleFactor(m, rippleDb);
      && r.value.z == []
      && |r.value.p| == order
      && (forall j :: 0 <= j < order ==> r.value.p[j] == Point(m, order, Spread(m, order, eps), j + 1))
      && (order % 2 == 1 ==> r.value.k == m.cabs(FilterTools.NegProduct(r.value.p)))
      && (order % 2 == 0 ==> r.value.k == CorrectedMagnitude(m, eps, r.value.p))
  {
    if order < 1 || order > 16 then Failure(ArgumentOutOfRange("filterOrder"))
    else if rippleDb <= 0.0 then Failure(ArgumentOutOfRange("passbandRippleDb"))
    else
      var eps := RippleFactor(m, rippleDb);
      var poles := Points(m, order, Spread(m, order, eps), order);
      var gain := if order % 2 != 0 then m.cabs(FilterTools.NegProduct(poles)) else CorrectedMagnitude(m, eps, poles);
      Success(Zpk([], poles, gain))
  }

  /** For an odd order the gain is the magnitude of the denominator at s = 0,
      which gives the prototype unit gain at DC. */
  lemma OddGainIsDcMagnitude(m: MathLib, order: int, rippleDb: real)
    requires 1 <= order <= 16 && order % 2 == 1 && rippleDb > 0.0
    ensures var proto := PrototypeAnalogLowPass(m, order, rippleDb).value;
            proto.k == m.cabs(Polynomials.RootProduct(proto.p, Zero))
  {
    var proto := PrototypeAnalogLowPass(m, order, rippleDb).value;
    FilterTools.NegProductIsValueAtZero(proto.p);
  }
}
