/** The elliptic (Cauer) family (Elliptic.cs): the analog lowpass prototype
    and the two design entry points. The special functions it calls are in
    module EllipticFunctions. */
module Elliptic {
  import opened Complexes
  import opened Numerics
  import opened FilterTypes
  import FilterTools
  import opened EllipticFunctions

  /** EPSILON of the prototype: smaller sn values give no zero, and it
      scales the threshold below which a pole counts as real. */
  const Negligible: real := 0.0000000000000001

  // ---------------------------------------------------------------------
  // Index list
  // ---------------------------------------------------------------------

  /** start, start + 2, ... while below n. */
  function IndexFrom(start: int, n: int): (r: seq<int>)
    ensures |r| == if start >= n then 0 else (n - start + 1) / 2
    decreases n - start
  {
    if start >= n then [] else [start] + IndexFrom(start + 2, n)
  }

  /** The indices 1 - (n mod 2), 3 - (n mod 2), ... below n. */
  function IndexList(n: nat): (r: seq<int>)
    ensures |r| == (n + 1) / 2
  {
    IndexFrom(1 - n % 2, n)
  }

  lemma {:induction false} IndexFromMembers(start: int, n: int)
    ensures forall x :: x in IndexFrom(start, n) <==> start <= x < n && (x - start) % 2 == 0
    decreases n - start
  {
    if start < n {
      IndexFromMembers(start + 2, n);
      forall x
        ensures x in IndexFrom(start, n) <==> start <= x < n && (x - start) % 2 == 0
      {
        assert (x - start) % 2 == 0 <==> x == start || (x - (start + 2)) % 2 == 0;
      }
    }
  }

  /** The entries are exactly the integers in [0, n) whose parity differs
      from n's. */
  lemma IndexListMembers(n: nat)
    ensures forall x :: x in IndexList(n) <==> 0 <= x < n && x % 2 != n % 2
  {
    IndexFromMembers(1 - n % 2, n);
    forall x
      ensures (1 - n % 2 <= x < n && (x - (1 - n % 2)) % 2 == 0) <==> (0 <= x < n && x % 2 != n % 2)
    {
    }
  }

  // ---------------------------------------------------------------------
  // Zeros
  // ---------------------------------------------------------------------

  /** The arguments j K / n of the Jacobi functions, one per index. */
  function Arguments(js: seq<int>, capk: real, n: int): (r: seq<real>)
    requires n >= 1
    ensures |r| == |js|
  {
    seq(|js|, i requires 0 <= i < |js| => (js[i] as real) * capk / (n as real))
  }

  /** The sn components. */
  function SnValues(jacs: seq<Jacobi>): (r: seq<real>)
    ensures |r| == |jacs|
    ensures forall i :: 0 <= i < |jacs| ==> r[i] == jacs[i].sn
  {
    seq(|jacs|, i requires 0 <= i < |jacs| => jacs[i].sn)
  }

  /** The values whose magnitude exceeds `Negligible`, in order. */
  function Significant(xs: seq<real>): (r: seq<real>)
    ensures |r| <= |xs|
    ensures forall x :: x in r <==> x in xs && Abs(x) > Negligible
    decreases |xs|
  {
    if |xs| == 0 then []
    else
      var front := Significant(xs[..|xs| - 1]);
      var x := xs[|xs| - 1];
      assert xs == xs[..|xs| - 1] + [x];
      if Abs(x) > Negligible then front + [x] else front
  }

  /** The zero (0, 1 / (sqrt(m) sn)) of one sn value. */
  function UpperZero(m: MathLib, mm: real, sn: real): Complex {
    Complex(0.0, Quot(m, 1.0, Prod(m.sqrt(mm), sn)))
  }

  /** The upper zero of each significant sn value. */
  function UpperZeros(m: MathLib, mm: real, sns: seq<real>): (r: seq<Complex>)
    ensures |r| == |sns|
    ensures forall i :: 0 <= i < |sns| ==> r[i] == UpperZero(m, mm, sns[i])
  {
    seq(|sns|, i requires 0 <= i < |sns| => UpperZero(m, mm, sns[i]))
  }

  /** The conjugate of every entry, in order. */
  function Conjugates(zs: seq<Complex>): (r: seq<Complex>)
    ensures |r| == |zs|
    ensures forall i :: 0 <= i < |zs| ==> r[i] == Conj(zs[i])
  {
    seq(|zs|, i requires 0 <= i < |zs| => Conj(zs[i]))
  }

  /** The list followed by the conjugates of all its entries. */
  function WithConjugates(zs: seq<Complex>): (r: seq<Complex>)
    ensures |r| == 2 * |zs|
    ensures r[..|zs|] == zs && r[|zs|..] == Conjugates(zs)
  {
    zs + Conjugates(zs)
  }

  /** Appending all conjugates closes a list under conjugation. */
  lemma WithConjugatesClosed(zs: seq<Complex>)
    ensures FilterTools.ConjugateClosed(WithConjugates(zs))
  {
    var r := WithConjugates(zs);
    forall i | 0 <= i < |r|
      ensures Conj(r[i]) in r
    {
      if i < |zs| {
        assert Conj(r[i]) == r[|zs| + i];
      } else {
        ConjInvolutive(zs[i - |zs|]);
        assert Conj(r[i]) == r[i - |zs|];
      }
    }
  }

  // ---------------------------------------------------------------------
  // Poles
  // ---------------------------------------------------------------------

  /** The pole -(cn dn sv cv + i sn dv) / (1 - (dn sv)^2) of one index,
      from its Jacobi values and those (sv, cv, dv) of v0 at 1 - m. */
  function Pole(m: MathLib, jac: Jacobi, v: Jacobi): Complex {
    var denominator := 1.0 - Prod(jac.dn * v.sn, jac.dn * v.sn);
    Complex(Quot(m, -(jac.cn * jac.dn * v.sn * v.cn), denominator), Quot(m, -(jac.sn * v.dn), denominator))
  }

  /** One pole per index. */
  function BasePoles(m: MathLib, jacs: seq<Jacobi>, v: Jacobi): (r: seq<Complex>)
    ensures |r| == |jacs|
    ensures forall i :: 0 <= i < |jacs| ==> r[i] == Pole(m, jacs[i], v)
  {
    seq(|jacs|, i requires 0 <= i < |jacs| => Pole(m, jacs[i], v))
  }

  /** The sum of the squared magnitudes (p conj p).re, accumulated from 0. */
  function NormSum(ps: seq<Complex>): real
    decreases |ps|
  {
    if |ps| == 0 then 0.0 else NormSum(ps[..|ps| - 1]) + Mul(ps[|ps| - 1], Conj(ps[|ps| - 1])).re
  }

  /** Below this magnitude of the imaginary part a pole counts as real. */
  function Threshold(m: MathLib, ps: seq<Complex>): real {
    Negligible * m.sqrt(NormSum(ps))
  }

  /** The poles whose imaginary part exceeds t in magnitude, in order. */
  function Oscillating(ps: seq<Complex>, t: real): (r: seq<Complex>)
    ensures |r| <= |ps|
    ensures forall p :: p in r <==> p in ps && Abs(p.im) > t
    decreases |ps|
  {
    if |ps| == 0 then []
    else
      var front := Oscillating(ps[..|ps| - 1], t);
      var p := ps[|ps| - 1];
      assert ps == ps[..|ps| - 1] + [p];
      if Abs(p.im) > t then front + [p] else front
  }

  /** The full pole list: for an odd order the conjugates of the
      oscillating poles are appended, for an even order the conjugates of
      all poles. */
  function CompletePoles(m: MathLib, order: int, ps: seq<Complex>): (r: seq<Complex>)
    ensures order % 2 == 0 ==> r == WithConjugates(ps)
    ensures order % 2 != 0 ==> r == ps + Conjugates(Oscillating(ps, Threshold(m, ps)))
  {
    if order % 2 != 0 then ps + Conjugates(Oscillating(ps, Threshold(m, ps))) else WithConjugates(ps)
  }

  /** For an odd order the computed poles come first, and the conjugate of
      every oscillating pole is in the list; only poles within the
      threshold of the real axis stay unpaired. */
  lemma OddPolesComplete(m: MathLib, order: int, ps: seq<Complex>)
    requires order % 2 != 0
    ensures var r := CompletePoles(m, order, ps);
            && r[..|ps|] == ps
            && forall p :: p in ps && Abs(p.im) > Threshold(m, ps) ==> Conj(p) in r
  {
    OscillatingPaired(ps, Threshold(m, ps));
  }

  lemma OscillatingPaired(ps: seq<Complex>, t: real)
    ensures var r := ps + Conjugates(Oscillating(ps, t));
            && r[..|ps|] == ps
            && forall p :: p in ps && Abs(p.im) > t ==> Conj(p) in r
  {
    var osc := Oscillating(ps, t);
    var r := ps + Conjugates(osc);
    assert r[..|ps|] == ps;
    forall p | p in ps && Abs(p.im) > t
      ensures Conj(p) in r
    {
      var i :| 0 <= i < |osc| && osc[i] == p;
      assert r[|ps| + i] == Conj(p);
    }
  }

  // ---------------------------------------------------------------------
  // Gain
  // ---------------------------------------------------------------------

  /** Re(prodP / prodZ), divided by sqrt(1 + eps^2) for an even order;
      the products are those of the negated poles and zeros. */
  function Gain(m: MathLib, order: int, epsSq: real, prodP: Complex, prodZ: Complex): real {
    var k := CQuot(m, prodP, prodZ).re;
    if order % 2 == 0 then Quot(m, k, m.sqrt(1.0 + epsSq)) else k
  }

  /** The ratio of the two products: when the zeros' product is not zero,
      the odd-order gain is the real part of the quotient q with
      q prod(-z) = prod(-p), and the even-order gain times sqrt(1 + eps^2)
      is that same real part. */
  lemma GainStructure(m: MathLib, order: int, epsSq: real, prodP: Complex, prodZ: Complex)
    requires !IsZero(prodZ)
    ensures var q := CQuot(m, prodP, prodZ);
            && Mul(q, prodZ) == prodP
            && (order % 2 != 0 ==> Gain(m, order, epsSq, prodP, prodZ) == q.re)
            && (order % 2 == 0 && m.sqrt(1.0 + epsSq) != 0.0 ==>
                  Gain(m, order, epsSq, prodP, prodZ) * m.sqrt(1.0 + epsSq) == q.re)
  {
  }

  // ---------------------------------------------------------------------
  // Prototype
  // ---------------------------------------------------------------------

  /** The single pole -1 / sqrt(10^(Rp / 10) - 1) of the first-order
      prototype. */
  function FirstOrderPole(m: MathLib, rippleDb: real): real {
    Quot(m, -1.0, m.sqrt(Pow10Minus1(m, 0.1 * rippleDb)))
  }

  /** The first-order prototype: no zeros, the one real pole p and the
      gain -p. */
  function FirstOrder(m: MathLib, rippleDb: real): Zpk {
    var p := FirstOrderPole(m, rippleDb);
    Zpk([], [Complex(p, 0.0)], -p)
  }

  /** ck1^2 = eps^2 / (10^(Rs / 10) - 1), the squared selectivity
      parameter. */
  function SelectivitySq(m: MathLib, rippleDb: real, attenuationDb: real): real {
    Quot(m, Pow10Minus1(m, 0.1 * rippleDb), Pow10Minus1(m, 0.1 * attenuationDb))
  }

  /** The errors the prototype can report. */
  predicate PrototypeError(e: Error) {
    || e == ArgumentOutOfRange("filterOrder")
    || e == ArgumentOutOfRange("passbandRippleDb")
    || e == ArgumentOutOfRange("stopbandAttenuationDb")
    || e == Argument("Cannot design filter with given rp and rs")
    || e == ArgumentOutOfRange("m")
    || e == ArgumentOutOfRange("m1")
    || e == InvalidOperation("Landen transformation not converging.")
    || e == InvalidOperation("Real part is not negligible.")
  }

  /** Elliptic.PrototypeAnalogLowPass. */
  function PrototypeAnalogLowPass(m: MathLib, order: int, rippleDb: real, attenuationDb: real): (r: Result<Zpk>)
    ensures (order < 1 || order > 16) ==> r == Failure(ArgumentOutOfRange("filterOrder"))
    ensures 1 <= order <= 16 && rippleDb <= 0.0 ==> r == Failure(ArgumentOutOfRange("passbandRippleDb"))
    ensures 1 <= order <= 16 && rippleDb > 0.0 && attenuationDb <= rippleDb ==>
              r == Failure(ArgumentOutOfRange("stopbandAttenuationDb"))
    ensures order == 1 && 0.0 < rippleDb < attenuationDb ==> r == Success(FirstOrder(m, rippleDb))
    ensures 2 <= order <= 16 && 0.0 < rippleDb < attenuationDb ==> r == HigherOrder(m, order, rippleDb, attenuationDb)
    ensures r.Failure? ==> PrototypeError(r.error)
  {
    if order < 1 || order > 16 then Failure(ArgumentOutOfRange("filterOrder"))
    else if rippleDb <= 0.0 then Failure(ArgumentOutOfRange("passbandRippleDb"))
    else if attenuationDb <= rippleDb then Failure(ArgumentOutOfRange("stopbandAttenuationDb"))
    else if order == 1 then Success(FirstOrder(m, rippleDb))
    else HigherOrder(m, order, rippleDb, attenuationDb)
  }

  /** The quantities the higher-order prototype derives before it places
      zeros and poles: eps^2, ck1^2, K(ck1^2), the modulus m from the degree
      equation and K(m). */
  datatype Moduli = Moduli(epsSq: real, ck1Sq: real, val: real, mm: real, capk: real)

  /** The first stage of the higher-order prototype: ck1^2 must not vanish,
      and the three integrals and the degree equation must be defined. */
  function ModuliOf(m: MathLib, order: int, rippleDb: real, attenuationDb: real): (r: Result<Moduli>)
    ensures SelectivitySq(m, rippleDb, attenuationDb) == 0.0 ==>
              r == Failure(Argument("Cannot design filter with given rp and rs"))
    ensures r.Failure? ==> PrototypeError(r.error)
    ensures r.Success? ==> r.value.epsSq == Pow10Minus1(m, 0.1 * rippleDb)
    ensures r.Success? ==> 0.0 <= r.value.mm <= 1.0
  {
    var epsSq := Pow10Minus1(m, 0.1 * rippleDb);
    var ck1Sq := SelectivitySq(m, rippleDb, attenuationDb);
    if ck1Sq == 0.0 then Failure(Argument("Cannot design filter with given rp and rs"))
    else
      var val :- EllipK(m, ck1Sq);
      var mm :- EllipDeg(m, order, ck1Sq);
      var capk :- EllipK(m, mm);
      Success(Moduli(epsSq, ck1Sq, val, mm, capk))
  }

  /** The zeros: one upper zero per significant sn value, then their
      conjugates. */
  function ZerosOf(m: MathLib, mo: Moduli, jacs: seq<Jacobi>): (r: seq<Complex>)
    ensures |r| % 2 == 0 && |r| <= 2 * |jacs|
    ensures r == WithConjugates(r[..|r| / 2])
    ensures forall i :: 0 <= i < |r| ==> r[i].re == 0.0
  {
    var upper := UpperZeros(m, mo.mm, Significant(SnValues(jacs)));
    var r := WithConjugates(upper);
    assert r[..|r| / 2] == upper;
    r
  }

  /** The second stage: the Jacobi values of v0 at 1 - m, and from them the
      base poles, one per index, completed with conjugates. K(m) was
      defined, so m and 1 - m lie in [0, 1] and EllipJ cannot fail here;
      only the inverse of sn can. */
  function PolesOf(m: MathLib, order: int, mo: Moduli, jacs: seq<Jacobi>): (r: Result<seq<Complex>>)
    requires order >= 1
    requires 0.0 <= mo.mm <= 1.0
    ensures var arc := ArcJacSc1(m, Quot(m, 1.0, m.sqrt(mo.epsSq)), mo.ck1Sq);
            && (arc.Failure? ==> r == Failure(arc.error))
            && (arc.Success? ==> r.Success?)
    ensures r.Success? ==> |jacs| <= |r.value| && r.value == CompletePoles(m, order, r.value[..|jacs|])
  {
    var ratio :- ArcJacSc1(m, Quot(m, 1.0, m.sqrt(mo.epsSq)), mo.ck1Sq);
    var v0 := Quot(m, mo.capk * ratio, (order as real) * mo.val);
    var v := EllipJ(m, v0, 1.0 - mo.mm).value;
    var base := BasePoles(m, jacs, v);
    var r := CompletePoles(m, order, base);
    assert r[..|jacs|] == base;
    Success(r)
  }

  /** The prototype from order 2 on, once the arguments are accepted. */
  function HigherOrder(m: MathLib, order: int, rippleDb: real, attenuationDb: real): (r: Result<Zpk>)
    requires 2 <= order <= 16
    ensures SelectivitySq(m, rippleDb, attenuationDb) == 0.0 ==>
              r == Failure(Argument("Cannot design filter with given rp and rs"))
    ensures r.Failure? ==> PrototypeError(r.error)
    ensures r.Success? ==>
      && |r.value.z| % 2 == 0
      && |r.value.z| <= 2 * ((order + 1) / 2)
      && r.value.z == WithConjugates(r.value.z[..|r.value.z| / 2])
      && (forall i :: 0 <= i < |r.value.z| ==> r.value.z[i].re == 0.0)
      && (order + 1) / 2 <= |r.value.p|
      && r.value.p == CompletePoles(m, order, r.value.p[..(order + 1) / 2])
      && r.value.k == Gain(m, order, Pow10Minus1(m, 0.1 * rippleDb),
                           FilterTools.NegProduct(r.value.p), FilterTools.NegProduct(r.value.z))
  {
    var mo :- ModuliOf(m, order, rippleDb, attenuationDb);
    var jacs := EllipJAll(m, Arguments(IndexList(order), mo.capk, order), mo.mm).value;
    var zeros := ZerosOf(m, mo, jacs);
    var poles :- PolesOf(m, order, mo, jacs);
    Success(Zpk(zeros, poles, Gain(m, order, mo.epsSq, FilterTools.NegProduct(poles), FilterTools.NegProduct(zeros))))
  }

  /** The zeros of every prototype are closed under conjugation, and so
      are the poles of an even order, which number exactly the order. */
  lemma ConjugateSymmetry(m: MathLib, order: int, rippleDb: real, attenuationDb: real)
    ensures var r := PrototypeAnalogLowPass(m, order, rippleDb, attenuationDb);
            r.Success? ==>
              && FilterTools.ConjugateClosed(r.value.z)
              && (order % 2 == 0 ==> |r.value.p| == order && FilterTools.ConjugateClosed(r.value.p))
  {
    var r := PrototypeAnalogLowPass(m, order, rippleDb, attenuationDb);
    if r.Failure? {
      return;
    }
    var proto := r.value;
    if order == 1 {
      assert proto == FirstOrder(m, rippleDb);
    } else {
      WithConjugatesClosed(proto.z[..|proto.z| / 2]);
      if order % 2 == 0 {
        WithConjugatesClosed(proto.p[..(order + 1) / 2]);
      }
    }
  }

  /** The first-order prototype k / (s - p) has unit gain at DC: its gain
      is the negated pole, so k / (0 - p) = 1 whenever p is not zero. */
  lemma FirstOrderUnitDcGain(m: MathLib, rippleDb: real)
    ensures var proto := FirstOrder(m, rippleDb);
            && proto.z == [] && |proto.p| == 1 && proto.p[0].im == 0.0
            && (proto.p[0].re != 0.0 ==> proto.k / (0.0 - proto.p[0].re) == 1.0)
  {
    var p := FirstOrderPole(m, rippleDb);
    if p != 0.0 {
      NegationRatio(p);
    }
  }

  lemma NegationRatio(p: real)
    requires p != 0.0
    ensures -p / (0.0 - p) == 1.0
  {
  }

  /** Elliptic.CalcZpk and Elliptic.CalcTransferFunctionCalcZpk together:
      the frequencies are checked before the prototype's arguments. */
  function Calc(m: MathLib, t: FrequencyFilterType, fs: real, low: real, high: real, order: int,
                rippleDb: real, attenuationDb: real): (r: Result<(Zpk, TransferFunction)>)
    ensures !FilterTools.FrequenciesAccepted(t, fs, low, high) ==>
              r == Failure(FilterTools.FrequencyVerification(t, fs, low, high).error)
    ensures FilterTools.FrequenciesAccepted(t, fs, low, high) && (order < 1 || order > 16) ==>
              r == Failure(ArgumentOutOfRange("filterOrder"))
    ensures FilterTools.FrequenciesAccepted(t, fs, low, high) && 1 <= order <= 16 && rippleDb <= 0.0 ==>
              r == Failure(ArgumentOutOfRange("passbandRippleDb"))
    ensures FilterTools.FrequenciesAccepted(t, fs, low, high) && 1 <= order <= 16 && rippleDb > 0.0 && attenuationDb <= rippleDb ==>
              r == Failure(ArgumentOutOfRange("stopbandAttenuationDb"))
    ensures r.Success? ==> r.value.1 == FilterTools.Zpk2Tf(r.value.0)
  {
    FilterTools.Design(m, FrequencySpec(t, low, high, order, fs), PrototypeAnalogLowPass(m, order, rippleDb, attenuationDb))
  }
}
