/** The Butterworth family (Butterworth.cs): an analog low-pass prototype
    with its poles spaced evenly on the left half of the unit circle, run
    through the shared design pipeline. */
module Butterworth {
  import opened Complexes
  import opened Numerics
  import opened FilterTypes
  import FilterTools

  /** The angle of the k-th conjugate pole pair of an order-n prototype,
      (2k + 1) pi / (2n). */
  function Theta(n: int, k: int): real
    requires n >= 1
  {
    (2.0 * (k as real) + 1.0) * PI / (2.0 * (n as real))
  }

  /** The upper pole of the k-th pair, (-sin theta, cos theta). */
  function UpperPole(m: MathLib, n: int, k: int): Complex
    requires n >= 1
  {
    Complex(-m.sin(Theta(n, k)), m.cos(Theta(n, k)))
  }

  /** The first `count` conjugate pairs, each upper pole followed by its
      conjugate. */
  function PolePairs(m: MathLib, n: int, count: nat): (r: seq<Complex>)
    requires n >= 1
    ensures |r| == 2 * count
    ensures forall k :: 0 <= k < count ==> r[2 * k] == UpperPole(m, n, k) && r[2 * k + 1] == Conj(UpperPole(m, n, k))
  {
    if count == 0 then []
    else
      var front := PolePairs(m, n, count - 1);
      var r := front + [UpperPole(m, n, count - 1), Conj(UpperPole(m, n, count - 1))];
      assert forall k :: 0 <= k < count - 1 ==> r[2 * k] == front[2 * k] && r[2 * k + 1] == front[2 * k + 1];
      r
  }

  /** Butterworth.PrototypeAnalogLowPass. */
  function PrototypeAnalogLowPass(m: MathLib, order: int): (r: Result<Zpk>)
    ensures r.Failure? <==> order < 1 || order > 16
    ensures r.Failure? ==> r.error == ArgumentOutOfRange("filterOrder")
    ensures r.Success? ==> r.value.z == [] && r.value.k == 1.0 && |r.value.p| == order
    ensures r.Success? ==> forall k :: 0 <= k < order / 2 ==>
              r.value.p[2 * k] == UpperPole(m, order, k) && r.value.p[2 * k + 1] == Conj(UpperPole(m, order, k))
    ensures r.Success? && order % 2 == 1 ==> r.value.p[order - 1] == Complex(-1.0, 0.0)
  {
    if order < 1 || order > 16 then Failure(ArgumentOutOfRange("filterOrder"))
    else
      var pairs := PolePairs(m, order, order / 2);
      var poles := if order % 2 == 1 then pairs + [Complex(-1.0, 0.0)] else pairs;
      Success(Zpk([], poles, 1.0))
  }

  /** Every prototype pole has its conjugate among the poles. */
  lemma PrototypeConjugateClosed(m: MathLib, order: int)
    requires 1 <= order <= 16
    ensures PrototypeAnalogLowPass(m, order).Success?
    ensures FilterTools.ConjugateClosed(PrototypeAnalogLowPass(m, order).value.p)
  {
    var p := PrototypeAnalogLowPass(m, order).value.p;
    FilterTools.PairsConjugateClosed(p, order / 2);
  }

  function Spec(t: FrequencyFilterType, fs: real, low: real, high: real, order: int): FrequencySpec {
    FrequencySpec(t, low, high, order, fs)
  }

  /** Butterworth.CalcZpk and Butterworth.CalcTransferFunction together: the
      frequencies are checked before the order, then the pipeline runs. */
  function Calc(m: MathLib, t: FrequencyFilterType, fs: real, low: real, high: real, order: int): (r: Result<(Zpk, TransferFunction)>)
    ensures !FilterTools.FrequenciesAccepted(t, fs, low, high) ==>
              r == Failure(FilterTools.FrequencyVerification(t, fs, low, high).error)
    ensures FilterTools.FrequenciesAccepted(t, fs, low, high) && (order < 1 || order > 16) ==>
              r == Failure(ArgumentOutOfRange("filterOrder"))
    ensures r.Success? <==> FilterTools.FrequenciesAccepted(t, fs, low, high) && 1 <= order <= 16
    ensures r.Success? ==> r.value.1 == FilterTools.Zpk2Tf(r.value.0)
    ensures r.Success? ==> 1 <= |r.value.1.a| <= |r.value.1.b|
  {
    FilterTools.Design(m, Spec(t, fs, low, high, order), PrototypeAnalogLowPass(m, order))
  }
}
