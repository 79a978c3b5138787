/** The legacy Chebyshev type I prototype (Chebyshev_Type1.cs). It places the
    poles exactly as ChebyshevI does but caps the order at 14 and applies the
    passband correction 1 / sqrt(1 + eps^2) for every order. */
module ChebyshevType1 {
  import opened Complexes
  import opened Numerics
  import opened FilterTypes
  import FilterTools
  import ChebyshevI

  /** Chebyshev_Type1.PrototypeAnalogLowPass: the poles and the gain. */
  function PrototypeAnalogLowPass(m: MathLib, order: int, rippleDb: real): (r: Result<(seq<Complex>, real)>)
    ensures r.Failure? <==> order < 1 || order > 14 || rippleDb <= 0.0
    ensures (order < 1 || order > 14) ==> r == Failure(ArgumentOutOfRange("filterOrder"))
    ensures 1 <= order <= 14 && rippleDb <= 0.0 ==> r == Failure(ArgumentOutOfRange("rippleDb"))
    ensures r.Success? ==> var eps := ChebyshevI.RippleFactor(m, rippleDb);
      && |r.value.0| == order
      && (forall j :: 0 <= j < order ==> r.value.0[j] == ChebyshevI.Point(m, order, ChebyshevI.Spread(m, order, eps), j + 1))
      && r.value.1 == ChebyshevI.CorrectedMagnitude(m, eps, r.value.0)
  {
    if order < 1 || order > 14 then Failure(ArgumentOutOfRange("filterOrder"))
    else if rippleDb <= 0.0 then Failure(ArgumentOutOfRange("rippleDb"))
    else
      var eps := ChebyshevI.RippleFactor(m, rippleDb);
      var poles := ChebyshevI.Points(m, order, ChebyshevI.Spread(m, order, eps), order);
      Success((poles, ChebyshevI.CorrectedMagnitude(m, eps, poles)))
  }

  /** Against ChebyshevI.PrototypeAnalogLowPass: on the orders both accept the
      poles are the same; the gains agree for an even order, and for an odd
      order the legacy gain carries the extra factor 1 / sqrt(1 + eps^2). */
  lemma AgreesWithChebyshevI(m: MathLib, order: int, rippleDb: real)
    requires 1 <= order <= 14 && rippleDb > 0.0
    ensures var legacy := PrototypeAnalogLowPass(m, order, rippleDb).value;
            var current := ChebyshevI.PrototypeAnalogLowPass(m, order, rippleDb).value;
            var eps := ChebyshevI.RippleFactor(m, rippleDb);
            && legacy.0 == current.p
            && (order % 2 == 0 ==> legacy.1 == current.k)
            && (order % 2 == 1 ==> legacy.1 == ChebyshevI.EvenCorrection(m, eps) * current.k)
  {
    var legacy := PrototypeAnalogLowPass(m, order, rippleDb).value;
    var current := ChebyshevI.PrototypeAnalogLowPass(m, order, rippleDb).value;
    assert legacy.0 == current.p;
  }

  /** The order range the legacy prototype accepts lies strictly inside the
      one ChebyshevI accepts: orders 15 and 16 are rejected only here. */
  lemma NarrowerOrderRange(m: MathLib, order: int, rippleDb: real)
    requires rippleDb > 0.0
    ensures PrototypeAnalogLowPass(m, order, rippleDb).Success? ==> ChebyshevI.PrototypeAnalogLowPass(m, order, rippleDb).Success?
    ensures order in {15, 16} ==>
              PrototypeAnalogLowPass(m, order, rippleDb).Failure? && ChebyshevI.PrototypeAnalogLowPass(m, order, rippleDb).Success?
  {
  }
}
