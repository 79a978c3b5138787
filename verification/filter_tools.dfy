/** The design pipeline shared by every filter family (FilterTools.cs):
    frequency validation, the four analog frequency transformations, the
    bilinear transform, zero padding and the expansion of zeros, poles and gain
    into transfer-function coefficients. */
module FilterTools {
  import opened Complexes
  import opened Numerics
  import opened FilterTypes
  import opened Polynomials

  // ---------------------------------------------------------------------------
  // Frequency validation

  /** A cutoff is usable when it lies in (0, fs / 4]. */
  predicate CutoffInRange(fs: real, f: real) {
    0.0 < f <= fs / 4.0
  }

  predicate UsesLowCutoff(t: FrequencyFilterType) {
    t != HighPass
  }

  predicate UsesHighCutoff(t: FrequencyFilterType) {
    t != LowPass
  }

  predicate IsBand(t: FrequencyFilterType) {
    t == BandPass || t == BandStop
  }

  /** The frequencies a filter type accepts: every cutoff it uses is in range,
      and a band has its low edge strictly below its high edge. */
  predicate FrequenciesAccepted(t: FrequencyFilterType, fs: real, low: real, high: real) {
    (UsesLowCutoff(t) ==> CutoffInRange(fs, low))
    && (UsesHighCutoff(t) ==> CutoffInRange(fs, high))
    && (IsBand(t) ==> low < high)
  }

  function ValidateCutoff(paramName: string, fs: real, value: real): Outcome {
    if value <= 0.0 || value > fs / 4.0 then Fail(ArgumentOutOfRange(paramName)) else Pass
  }

  /** FilterTools.FrequencyVerification. The checks run low edge, high edge,
      ordering, and the first failing check names the exception's parameter. */
  function FrequencyVerification(t: FrequencyFilterType, fs: real, low: real, high: real): (r: Outcome)
    ensures r.Pass? <==> FrequenciesAccepted(t, fs, low, high)
    ensures r.Fail? ==> r.error.ArgumentOutOfRange?
    ensures r.Fail? ==> (r.error.param == "freqHighCutOff"
                         <==> UsesHighCutoff(t) && !CutoffInRange(fs, high)
                              && (UsesLowCutoff(t) ==> CutoffInRange(fs, low)))
    ensures r.Fail? ==> r.error.param in {"freqLowCutOff", "freqHighCutOff"}
  {
    match t
    case LowPass => ValidateCutoff("freqLowCutOff", fs, low)
    case HighPass => ValidateCutoff("freqHighCutOff", fs, high)
    case _ =>
      var lowCheck := ValidateCutoff("freqLowCutOff", fs, low);
      if lowCheck.Fail? then lowCheck
      else
        var highCheck := ValidateCutoff("freqHighCutOff", fs, high);
        if highCheck.Fail? then highCheck
        else if low >= high then Fail(ArgumentOutOfRange("freqLowCutOff"))
        else Pass
  }

  /** FilterTools.Asinh: log(x + sqrt(x^2 + 1)). */
  function Asinh(m: MathLib, x: real): real {
    m.log(x + m.sqrt(Sq(x) + 1.0))
  }

  // ---------------------------------------------------------------------------
  // Root lists

  /** The conjugate of every root is again a root: the symmetry on which
      Zpk2Tf relies when it keeps only the real parts of the coefficients. */
  predicate ConjugateClosed(rs: seq<Complex>) {
    forall i :: 0 <= i < |rs| ==> Conj(rs[i]) in rs
  }

  /** A list of adjacent conjugate pairs followed by roots on the real axis is
      closed under conjugation. */
  lemma PairsConjugateClosed(s: seq<Complex>, count: nat)
    requires 2 * count <= |s|
    requires forall k :: 0 <= k < count ==> s[2 * k + 1] == Conj(s[2 * k])
    requires forall i :: 2 * count <= i < |s| ==> s[i].im == 0.0
    ensures ConjugateClosed(s)
  {
    forall i | 0 <= i < |s|
      ensures Conj(s[i]) in s
    {
      if i < 2 * count {
        var k := i / 2;
        if i == 2 * k {
          assert Conj(s[i]) == s[2 * k + 1];
        } else {
          assert i == 2 * k + 1;
          ConjInvolutive(s[2 * k]);
          assert Conj(s[i]) == s[2 * k];
        }
      } else {
        assert Conj(s[i]) == s[i];
      }
    }
  }

  /** Complex.Abs(r) > 0, which for exact values means r is not zero. */
  predicate NonZero(r: Complex) {
    !IsZero(r)
  }

  function NonZeros(rs: seq<Complex>): (r: seq<Complex>)
    ensures |r| <= |rs|
    ensures forall i :: 0 <= i < |r| ==> NonZero(r[i])
    decreases |rs|
  {
    if |rs| == 0 then []
    else NonZeros(rs[..|rs| - 1]) + (if NonZero(rs[|rs| - 1]) then [rs[|rs| - 1]] else [])
  }

  /** NonZeros keeps exactly the non-zero roots. */
  lemma {:induction false} NonZerosMembers(rs: seq<Complex>, x: Complex)
    ensures x in NonZeros(rs) <==> x in rs && NonZero(x)
    decreases |rs|
  {
    if |rs| > 0 {
      var front := rs[..|rs| - 1];
      NonZerosMembers(front, x);
      assert rs == front + [rs[|rs| - 1]];
    }
  }

  /** A list without zero roots passes through unchanged. */
  lemma {:induction false} NonZerosUnchanged(rs: seq<Complex>)
    requires forall i :: 0 <= i < |rs| ==> NonZero(rs[i])
    ensures NonZeros(rs) == rs
    decreases |rs|
  {
    if |rs| > 0 {
      var front := rs[..|rs| - 1];
      NonZerosUnchanged(front);
      assert rs == front + [rs[|rs| - 1]];
    }
  }

  function Repeat(x: Complex, n: int): (r: seq<Complex>)
    ensures n >= 0 ==> |r| == n
    ensures n < 0 ==> |r| == 0
    ensures forall i :: 0 <= i < |r| ==> r[i] == x
  {
    if n <= 0 then [] else seq(n, _ => x)
  }

  /** Every root multiplied by the real factor w. */
  function ScaleRoots(w: real, rs: seq<Complex>): (r: seq<Complex>)
    ensures |r| == |rs|
    ensures forall i :: 0 <= i < |rs| ==> r[i] == Scale(w, rs[i])
  {
    seq(|rs|, i requires 0 <= i < |rs| => Scale(w, rs[i]))
  }

  /** Every non-zero root r replaced by w / r; zero roots stay. */
  function InvertRoots(w: real, rs: seq<Complex>): (r: seq<Complex>)
    ensures |r| == |rs|
    ensures forall i :: 0 <= i < |rs| ==> (IsZero(rs[i]) ==> r[i] == rs[i])
    ensures forall i :: 0 <= i < |rs| ==> (NonZero(rs[i]) ==> Mul(r[i], rs[i]) == OfReal(w))
  {
    seq(|rs|, i requires 0 <= i < |rs| => if IsZero(rs[i]) then rs[i] else Div(OfReal(w), rs[i]))
  }

  /** The four ways a band transformation turns one prototype root into two. */
  datatype PairRule =
    | BandPassPole(bw: real, wc: real)
    | BandPassZero(bw: real, wc: real)
    | BandStopPole(bw: real, wc: real)
    | BandStopZero(bw: real, wc: real)

  /** The term both roots of a pair share: bw r / 2 for band-pass,
      bw / (2 r) for band-stop. */
  function PairFirst(m: MathLib, rule: PairRule, r: Complex): Complex {
    match rule
    case BandPassPole(bw, _) => Scale(0.5, Scale(bw, r))
    case BandPassZero(bw, _) => Scale(0.5 * bw, r)
    case BandStopPole(bw, _) => CQuot(m, OfReal(0.5 * bw), r)
    case BandStopZero(bw, _) => CQuot(m, OfReal(0.5 * bw), r)
  }

  /** The term added for the first root of a pair and subtracted for the
      second: half a complex square root. */
  function PairSecond(m: MathLib, rule: PairRule, r: Complex): Complex {
    match rule
    case BandPassPole(bw, wc) =>
      Scale(0.5, m.csqrt(Sub(Scale(m.pow(bw, 2.0), m.cpow(r, 2.0)), OfReal(4.0 * m.pow(wc, 2.0)))))
    case BandPassZero(bw, wc) =>
      Scale(0.5, m.csqrt(Sub(m.cpow(Scale(bw, r), 2.0), OfReal(4.0 * wc * wc))))
    case BandStopPole(bw, wc) =>
      Scale(0.5, m.csqrt(Sub(CQuot(m, OfReal(m.pow(bw, 2.0)), m.cpow(r, 2.0)), OfReal(4.0 * m.pow(wc, 2.0)))))
    case BandStopZero(bw, wc) =>
      Scale(0.5, m.csqrt(Sub(m.cpow(CQuot(m, OfReal(bw), r), 2.0), OfReal(4.0 * wc * wc))))
  }

  /** Each non-zero root r, in order, replaced by the two roots
      first + second and first - second; zero roots contribute nothing. */
  function PairExpand(m: MathLib, rule: PairRule, rs: seq<Complex>): (r: seq<Complex>)
    ensures |r| == 2 * |NonZeros(rs)|
    ensures forall k :: 0 <= k < |NonZeros(rs)| ==>
              r[2 * k] == Add(PairFirst(m, rule, NonZeros(rs)[k]), PairSecond(m, rule, NonZeros(rs)[k]))
              && r[2 * k + 1] == Sub(PairFirst(m, rule, NonZeros(rs)[k]), PairSecond(m, rule, NonZeros(rs)[k]))
    decreases |rs|
  {
    if |rs| == 0 then []
    else
      var last := rs[|rs| - 1];
      var first := PairFirst(m, rule, last);
      var second := PairSecond(m, rule, last);
      PairExpand(m, rule, rs[..|rs| - 1]) + (if NonZero(last) then [Add(first, second), Sub(first, second)] else [])
  }

  /** The product of -r over the roots, taken left to right. */
  function NegProduct(rs: seq<Complex>): Complex
    decreases |rs|
  {
    if |rs| == 0 then One else Mul(NegProduct(rs[..|rs| - 1]), Neg(rs[|rs| - 1]))
  }

  /** The product of -r is the value at s = 0 of the product of (s - r). */
  lemma {:induction false} NegProductIsValueAtZero(rs: seq<Complex>)
    ensures NegProduct(rs) == RootProduct(rs, Zero)
    decreases |rs|
  {
    if |rs| > 0 {
      NegProductIsValueAtZero(rs[..|rs| - 1]);
      assert Sub(Zero, rs[|rs| - 1]) == Neg(rs[|rs| - 1]);
    }
  }

  // ---------------------------------------------------------------------------
  // Analog frequency transformations

  /** Pre-warped angular frequency 2 tan(pi f / fs). */
  function Prewarp(m: MathLib, f: real, fs: real): real {
    2.0 * m.tan(Quot(m, PI * f, fs))
  }

  /** FilterTools.Convert2LowPass: s -> s / wc. */
  function Convert2LowPass(m: MathLib, wc: real, proto: Zpk): (r: Zpk)
    ensures |r.z| == |proto.z| && |r.p| == |proto.p|
    ensures forall i :: 0 <= i < |proto.z| ==> r.z[i] == Scale(wc, proto.z[i])
    ensures forall i :: 0 <= i < |proto.p| ==> r.p[i] == Scale(wc, proto.p[i])
    ensures r.k == proto.k * m.pow(wc, (|proto.p| - |proto.z|) as real)
  {
    Zpk(ScaleRoots(wc, proto.z), ScaleRoots(wc, proto.p), proto.k * m.pow(wc, (|proto.p| - |proto.z|) as real))
  }

  /** FilterTools.HighpassAndBandstopGainCorrection: K * Re(prod -z) / Re(prod -p)
      on the untransformed prototype. */
  function GainCorrection(m: MathLib, proto: Zpk): real {
    proto.k * Quot(m, NegProduct(proto.z).re, NegProduct(proto.p).re)
  }

  /** FilterTools.Convert2HighPass: s -> wc / s, then origin zeros up to the
      number of poles. */
  function Convert2HighPass(m: MathLib, wc: real, proto: Zpk): (r: Zpk)
    ensures |r.p| == |proto.p|
    ensures |r.z| == if |proto.z| < |proto.p| then |proto.p| else |proto.z|
    ensures r.z[..|proto.z|] == InvertRoots(wc, proto.z)
    ensures forall i :: |proto.z| <= i < |r.z| ==> r.z[i] == Zero
    ensures r.p == InvertRoots(wc, proto.p)
    ensures r.k == GainCorrection(m, proto)
  {
    var z := InvertRoots(wc, proto.z) + Repeat(Zero, |proto.p| - |proto.z|);
    assert z[..|proto.z|] == InvertRoots(wc, proto.z);
    Zpk(z, InvertRoots(wc, proto.p), GainCorrection(m, proto))
  }

  /** The centre frequency sqrt(high low) of a band. */
  function Centre(m: MathLib, low: real, high: real): real {
    m.sqrt(high * low)
  }

  /** The band-pass poles: a pair for each non-zero prototype pole p, the
      two adding up to bw p. */
  function BandPassPoles(m: MathLib, bw: real, wc: real, ps: seq<Complex>): (r: seq<Complex>)
    ensures |r| == 2 * |NonZeros(ps)|
    ensures forall k :: 0 <= k < |NonZeros(ps)| ==> Add(r[2 * k], r[2 * k + 1]) == Scale(bw, NonZeros(ps)[k])
  {
    var r := PairExpand(m, BandPassPole(bw, wc), ps);
    PassPairSums(m, BandPassPole(bw, wc), bw, ps, r);
    r
  }

  /** The band-pass zeros: a pair for each non-zero prototype zero z, the two
      adding up to bw z, then one origin zero for each zero the prototype
      lacks. */
  function BandPassZeros(m: MathLib, bw: real, wc: real, zs: seq<Complex>, missing: int): (r: seq<Complex>)
    ensures |r| == 2 * |NonZeros(zs)| + (if missing > 0 then missing else 0)
    ensures forall k :: 0 <= k < |NonZeros(zs)| ==> Add(r[2 * k], r[2 * k + 1]) == Scale(bw, NonZeros(zs)[k])
    ensures forall i :: 2 * |NonZeros(zs)| <= i < |r| ==> r[i] == Zero
  {
    var pairs := PairExpand(m, BandPassZero(bw, wc), zs);
    var r := pairs + Repeat(Zero, missing);
    assert pairs <= r;
    PassPairSums(m, BandPassZero(bw, wc), bw, zs, r);
    r
  }

  /** FilterTools.Convert2BandPass with band edges low and high: bandwidth
      bw = high - low, centre wc = sqrt(high low), gain K bw^(|P| - |Z|). */
  function Convert2BandPass(m: MathLib, low: real, high: real, proto: Zpk): Zpk {
    var bw := high - low;
    var wc := Centre(m, low, high);
    Zpk(BandPassZeros(m, bw, wc, proto.z, |proto.p| - |proto.z|), BandPassPoles(m, bw, wc, proto.p),
        proto.k * m.pow(bw, (|proto.p| - |proto.z|) as real))
  }

  /** The pair of band-stop zeros +-j wc, repeated n times. */
  function NotchZeros(wc: real, n: int): (r: seq<Complex>)
    ensures n >= 0 ==> |r| == 2 * n
    ensures n < 0 ==> |r| == 0
    ensures forall j :: 0 <= j < n ==> r[2 * j] == Complex(0.0, wc) && r[2 * j + 1] == Complex(0.0, -wc)
    decreases n
  {
    if n <= 0 then [] else NotchZeros(wc, n - 1) + [Complex(0.0, wc), Complex(0.0, -wc)]
  }

  /** The band-stop poles: a pair for each non-zero prototype pole p, the
      two adding up to bw / p. */
  function BandStopPoles(m: MathLib, bw: real, wc: real, ps: seq<Complex>): (r: seq<Complex>)
    ensures |r| == 2 * |NonZeros(ps)|
    ensures forall k :: 0 <= k < |NonZeros(ps)| ==> Mul(Add(r[2 * k], r[2 * k + 1]), NonZeros(ps)[k]) == OfReal(bw)
  {
    var r := PairExpand(m, BandStopPole(bw, wc), ps);
    StopPairSums(m, BandStopPole(bw, wc), bw, ps, r);
    r
  }

  /** The band-stop zeros: a pair for each non-zero prototype zero z, the two
      adding up to bw / z, then the notch pair +-j wc for each zero the
      prototype lacks. */
  function BandStopZeros(m: MathLib, bw: real, wc: real, zs: seq<Complex>, missing: int): (r: seq<Complex>)
    ensures |r| == 2 * |NonZeros(zs)| + (if missing > 0 then 2 * missing else 0)
    ensures forall k :: 0 <= k < |NonZeros(zs)| ==> Mul(Add(r[2 * k], r[2 * k + 1]), NonZeros(zs)[k]) == OfReal(bw)
    ensures forall j :: 0 <= j < missing ==>
              r[2 * |NonZeros(zs)| + 2 * j] == Complex(0.0, wc) && r[2 * |NonZeros(zs)| + 2 * j + 1] == Complex(0.0, -wc)
  {
    var pairs := PairExpand(m, BandStopZero(bw, wc), zs);
    var r := pairs + NotchZeros(wc, missing);
    assert pairs <= r;
    StopPairSums(m, BandStopZero(bw, wc), bw, zs, r);
    NotchTail(pairs, wc, missing);
    r
  }

  /** FilterTools.Convert2BandStop with band edges low and high; the gain is
      the high-pass gain correction of the prototype. */
  function Convert2BandStop(m: MathLib, low: real, high: real, proto: Zpk): Zpk {
    var bw := high - low;
    var wc := Centre(m, low, high);
    Zpk(BandStopZeros(m, bw, wc, proto.z, |proto.p| - |proto.z|), BandStopPoles(m, bw, wc, proto.p),
        GainCorrection(m, proto))
  }

  // ---------------------------------------------------------------------------
  // Bilinear transform

  /** z = (2 + s) / (2 - s). */
  function BilinearMap(m: MathLib, s: Complex): Complex {
    CQuot(m, Add(Two, s), Sub(Two, s))
  }

  /** FilterTools.BiLinearTransformation's return value |2 - s|. */
  function BilinearGain(m: MathLib, s: Complex): real {
    m.cabs(Sub(Two, s))
  }

  function MapRoots(m: MathLib, rs: seq<Complex>): (r: seq<Complex>)
    ensures |r| == |rs|
    ensures forall i :: 0 <= i < |rs| ==> r[i] == BilinearMap(m, rs[i])
  {
    seq(|rs|, i requires 0 <= i < |rs| => BilinearMap(m, rs[i]))
  }

  /** The gain after dividing by |2 - z| for each zero in order. */
  function GainAfterZeros(m: MathLib, k: real, zs: seq<Complex>): real
    decreases |zs|
  {
    if |zs| == 0 then k else Quot(m, GainAfterZeros(m, k, zs[..|zs| - 1]), BilinearGain(m, zs[|zs| - 1]))
  }

  /** The gain after multiplying by |2 - p| for each pole in order. */
  function GainAfterPoles(m: MathLib, k: real, ps: seq<Complex>): real
    decreases |ps|
  {
    if |ps| == 0 then k else GainAfterPoles(m, k, ps[..|ps| - 1]) * BilinearGain(m, ps[|ps| - 1])
  }

  /** FilterTools.S2Z: every zero and pole mapped in place; the gain divided by
      |2 - z| for each zero, then multiplied by |2 - p| for each pole. */
  function S2Z(m: MathLib, zpk: Zpk): (r: Zpk)
    ensures |r.z| == |zpk.z| && |r.p| == |zpk.p|
    ensures forall i :: 0 <= i < |zpk.z| ==> r.z[i] == BilinearMap(m, zpk.z[i])
    ensures forall i :: 0 <= i < |zpk.p| ==> r.p[i] == BilinearMap(m, zpk.p[i])
  {
    Zpk(MapRoots(m, zpk.z), MapRoots(m, zpk.p), S2ZGain(m, zpk))
  }

  /** The gain S2Z leaves: divided by |2 - z| per zero, times |2 - p| per pole. */
  function S2ZGain(m: MathLib, zpk: Zpk): real {
    GainAfterPoles(m, GainAfterZeros(m, zpk.k, zpk.z), zpk.p)
  }

  /** The product of |2 - r| over the roots. */
  function GainProduct(m: MathLib, rs: seq<Complex>): real
    decreases |rs|
  {
    if |rs| == 0 then 1.0 else GainProduct(m, rs[..|rs| - 1]) * BilinearGain(m, rs[|rs| - 1])
  }

  /** Multiplying by each pole factor in turn is multiplying by their product. */
  lemma {:induction false} GainAfterPolesProduct(m: MathLib, k: real, ps: seq<Complex>)
    ensures GainAfterPoles(m, k, ps) == k * GainProduct(m, ps)
    decreases |ps|
  {
    if |ps| > 0 {
      var front := ps[..|ps| - 1];
      GainAfterPolesProduct(m, k, front);
      AssociateFactors(k, GainProduct(m, front), BilinearGain(m, ps[|ps| - 1]));
    }
  }

  /** When no zero sits where |2 - z| vanishes, dividing by each |2 - z| is
      dividing by their product. */
  lemma {:induction false} GainAfterZerosProduct(m: MathLib, k: real, zs: seq<Complex>)
    requires forall i :: 0 <= i < |zs| ==> BilinearGain(m, zs[i]) != 0.0
    ensures GainAfterZeros(m, k, zs) * GainProduct(m, zs) == k
    decreases |zs|
  {
    if |zs| > 0 {
      var front := zs[..|zs| - 1];
      var g := BilinearGain(m, zs[|zs| - 1]);
      GainAfterZerosProduct(m, k, front);
      var q := GainAfterZeros(m, k, front);
      var pf := GainProduct(m, front);
      assert Quot(m, q, g) * g == q;
      AssociateFactors(Quot(m, q, g), pf, g);
      SwapFactors(Quot(m, q, g), pf, g);
    }
  }

  /** Dividing by every |2 - z| and then multiplying by every |2 - z| gives
      the gain back, when none of them is zero. */
  lemma GainAfterZerosInverse(m: MathLib, k: real, zs: seq<Complex>)
    requires forall i :: 0 <= i < |zs| ==> BilinearGain(m, zs[i]) != 0.0
    ensures GainAfterPoles(m, GainAfterZeros(m, k, zs), zs) == k
  {
    GainAfterZerosProduct(m, k, zs);
    GainAfterPolesProduct(m, GainAfterZeros(m, k, zs), zs);
  }

  /** The order in which two lists of factors are applied does not matter. */
  lemma GainAfterPolesCommute(m: MathLib, a: real, xs: seq<Complex>, ys: seq<Complex>)
    ensures GainAfterPoles(m, GainAfterPoles(m, a, xs), ys) == GainAfterPoles(m, GainAfterPoles(m, a, ys), xs)
  {
    var px := GainProduct(m, xs);
    var py := GainProduct(m, ys);
    GainAfterPolesProduct(m, a, xs);
    GainAfterPolesProduct(m, a, ys);
    GainAfterPolesProduct(m, GainAfterPoles(m, a, xs), ys);
    GainAfterPolesProduct(m, GainAfterPoles(m, a, ys), xs);
    SwapFactors(a, px, py);
  }

  /** The S2Z gain balances the zero and pole factors: the new gain times
      every |2 - z| equals the old gain times every |2 - p|. */
  lemma S2ZGainBalance(m: MathLib, zpk: Zpk)
    requires forall i :: 0 <= i < |zpk.z| ==> BilinearGain(m, zpk.z[i]) != 0.0
    ensures GainAfterPoles(m, S2Z(m, zpk).k, zpk.z) == GainAfterPoles(m, zpk.k, zpk.p)
  {
    var a := GainAfterZeros(m, zpk.k, zpk.z);
    assert S2Z(m, zpk).k == GainAfterPoles(m, a, zpk.p);
    GainAfterPolesCommute(m, a, zpk.p, zpk.z);
    GainAfterZerosInverse(m, zpk.k, zpk.z);
  }

  lemma AssociateFactors(x: real, y: real, z: real)
    ensures (x * y) * z == x * (y * z)
  {
  }

  lemma SwapFactors(x: real, y: real, z: real)
    ensures (x * y) * z == (x * z) * y
  {
  }

  // ---------------------------------------------------------------------------
  // Properties of the transformations

  /** Inverting twice with the same non-zero frequency gives the roots back. */
  lemma InvertRootsInvolution(w: real, rs: seq<Complex>)
    requires w != 0.0
    ensures InvertRoots(w, InvertRoots(w, rs)) == rs
  {
    var once := InvertRoots(w, rs);
    var twice := InvertRoots(w, once);
    forall i | 0 <= i < |rs|
      ensures twice[i] == rs[i]
    {
      if NonZero(rs[i]) {
        var q := once[i];
        assert Mul(q, rs[i]) == OfReal(w);
        if IsZero(q) {
          MulZero(rs[i]);
          assert false;
        }
        MulComm(q, rs[i]);
        DivUnique(OfReal(w), q, rs[i]);
      }
    }
  }

  /** Horner evaluation at zero reads off the last coefficient. */
  lemma HornerAtZero(c: seq<Complex>)
    requires |c| >= 1
    ensures Horner(c, Zero) == c[|c| - 1]
  {
    MulZero(Horner(c[..|c| - 1], Zero));
    AddZero(c[|c| - 1]);
  }

  /** The constant coefficient of the monic polynomial with roots rs is the
      product of -r. */
  lemma NegProductIsConstantTerm(rs: seq<Complex>)
    ensures FromRoots(rs)[|rs|] == NegProduct(rs)
  {
    HornerAtZero(FromRoots(rs));
    FromRootsValue(rs, Zero);
    NegProductIsValueAtZero(rs);
  }

  /** The high-pass and band-stop gain is K times the prototype's numerator
      over its denominator, both evaluated at s = 0 (real parts): the
      response the prototype has at DC is the one the transformed filter has
      at infinity. */
  lemma GainCorrectionIsDcRatio(m: MathLib, proto: Zpk)
    ensures GainCorrection(m, proto)
         == proto.k * Quot(m, RootProduct(proto.z, Zero).re, RootProduct(proto.p, Zero).re)
  {
    NegProductIsValueAtZero(proto.z);
    NegProductIsValueAtZero(proto.p);
  }

  /** The two roots made from one prototype root add up to twice their
      shared term. */
  lemma PairSum(m: MathLib, rule: PairRule, rs: seq<Complex>, k: nat)
    requires k < |NonZeros(rs)|
    ensures var r := PairExpand(m, rule, rs);
            Add(r[2 * k], r[2 * k + 1]) == Scale(2.0, PairFirst(m, rule, NonZeros(rs)[k]))
  {
  }

  /** Appending the notch pairs leaves the front alone and puts each pair at
      an even offset past it. */
  lemma NotchTail(front: seq<Complex>, wc: real, n: int)
    ensures var r := front + NotchZeros(wc, n);
      && (forall i :: 0 <= i < |front| ==> r[i] == front[i])
      && (forall j :: 0 <= j < n ==>
            r[|front| + 2 * j] == Complex(0.0, wc) && r[|front| + 2 * j + 1] == Complex(0.0, -wc))
  {
    var notches := NotchZeros(wc, n);
    var r := front + notches;
    forall j | 0 <= j < n
      ensures r[|front| + 2 * j] == Complex(0.0, wc) && r[|front| + 2 * j + 1] == Complex(0.0, -wc)
    {
      assert r[|front| + 2 * j] == notches[2 * j];
      assert r[|front| + 2 * j + 1] == notches[2 * j + 1];
    }
  }

  lemma StopPairSum(m: MathLib, rule: PairRule, rs: seq<Complex>, k: nat)
    requires rule.BandStopPole? || rule.BandStopZero?
    requires k < |NonZeros(rs)|
    ensures var r := PairExpand(m, rule, rs);
            Mul(Add(r[2 * k], r[2 * k + 1]), NonZeros(rs)[k]) == OfReal(rule.bw)
  {
    var r := PairExpand(m, rule, rs);
    var p := NonZeros(rs)[k];
    var q := CQuot(m, OfReal(0.5 * rule.bw), p);
    assert PairFirst(m, rule, p) == q;
    PairSum(m, rule, rs, k);
    assert Add(r[2 * k], r[2 * k + 1]) == Scale(2.0, q);
    assert Mul(q, p) == OfReal(0.5 * rule.bw);
    HalfSumTimes(q, p, rule.bw);
  }

  /** Every band-pass pair adds up to bw times its prototype root, in any
      list that starts with the pairs. */
  lemma PassPairSums(m: MathLib, rule: PairRule, bw: real, rs: seq<Complex>, r: seq<Complex>)
    requires rule.BandPassPole? || rule.BandPassZero?
    requires rule.bw == bw
    requires PairExpand(m, rule, rs) <= r
    ensures forall k :: 0 <= k < |NonZeros(rs)| ==> Add(r[2 * k], r[2 * k + 1]) == Scale(bw, NonZeros(rs)[k])
  {
    var pairs := PairExpand(m, rule, rs);
    forall k | 0 <= k < |NonZeros(rs)|
      ensures Add(r[2 * k], r[2 * k + 1]) == Scale(bw, NonZeros(rs)[k])
    {
      assert r[2 * k] == pairs[2 * k] && r[2 * k + 1] == pairs[2 * k + 1];
      PairSum(m, rule, rs, k);
      PassFirstDoubled(m, rule, bw, NonZeros(rs)[k]);
    }
  }

  /** Twice the first term of a band-pass pair is the root scaled by the
      bandwidth. */
  lemma PassFirstDoubled(m: MathLib, rule: PairRule, bw: real, x: Complex)
    requires rule.BandPassPole? || rule.BandPassZero?
    requires rule.bw == bw
    ensures Scale(2.0, PairFirst(m, rule, x)) == Scale(bw, x)
  {
  }

  /** Every band-stop pair adds up to bw divided by its prototype root, in
      any list that starts with the pairs. */
  lemma StopPairSums(m: MathLib, rule: PairRule, bw: real, rs: seq<Complex>, r: seq<Complex>)
    requires rule.BandStopPole? || rule.BandStopZero?
    requires rule.bw == bw
    requires PairExpand(m, rule, rs) <= r
    ensures forall k :: 0 <= k < |NonZeros(rs)| ==>
              Mul(Add(r[2 * k], r[2 * k + 1]), NonZeros(rs)[k]) == OfReal(bw)
  {
    var pairs := PairExpand(m, rule, rs);
    forall k | 0 <= k < |NonZeros(rs)|
      ensures Mul(Add(r[2 * k], r[2 * k + 1]), NonZeros(rs)[k]) == OfReal(bw)
    {
      assert r[2 * k] == pairs[2 * k] && r[2 * k + 1] == pairs[2 * k + 1];
      StopPairSum(m, rule, rs, k);
    }
  }

  lemma HalfSumTimes(q: Complex, p: Complex, bw: real)
    requires Mul(q, p) == OfReal(0.5 * bw)
    ensures Mul(Scale(2.0, q), p) == OfReal(bw)
  {
  }

  /** The bilinear map is undone by s = 2 (z - 1) / (z + 1) wherever it is
      defined. */
  lemma BilinearInverse(m: MathLib, s: Complex)
    requires !IsZero(Sub(Two, s))
    ensures var z := BilinearMap(m, s);
      && !IsZero(Add(z, One))
      && Div(Scale(2.0, Sub(z, One)), Add(z, One)) == s
  {
    var z := BilinearMap(m, s);
    assert Mul(z, Sub(Two, s)) == Add(Two, s);
    if IsZero(Add(z, One)) {
      assert false;
    }
    assert Mul(s, Add(z, One)) == Scale(2.0, Sub(z, One));
    DivUnique(Scale(2.0, Sub(z, One)), Add(z, One), s);
  }

  // ---------------------------------------------------------------------------
  // Transfer function and the whole pipeline

  /** FilterTools.Zpk2Tf: numerator K * prod (x - z), denominator prod (x - p),
      real parts kept. */
  function Zpk2Tf(zpk: Zpk): (tf: TransferFunction)
    ensures |tf.a| == |zpk.p| + 1 && tf.a[0] == 1.0
    ensures |tf.b| == |zpk.z| + 1 && tf.b[0] == zpk.k
    ensures tf.a == RealParts(FromRoots(zpk.p))
    ensures tf.b == RealParts(ScaleAll(OfReal(zpk.k), FromRoots(zpk.z)))
  {
    var num := ScaleAll(OfReal(zpk.k), FromRoots(zpk.z));
    TransferFunction(RealParts(num), RealParts(FromRoots(zpk.p)))
  }

  /** The analog filter after the transformation selected by t. */
  function Convert(m: MathLib, t: FrequencyFilterType, fs: real, low: real, high: real, proto: Zpk): Zpk {
    var warpedLow := Prewarp(m, low, fs);
    var warpedHigh := Prewarp(m, high, fs);
    match t
    case LowPass => Convert2LowPass(m, warpedLow, proto)
    case HighPass => Convert2HighPass(m, warpedHigh, proto)
    case BandPass => Convert2BandPass(m, warpedLow, warpedHigh, proto)
    case BandStop => Convert2BandStop(m, warpedLow, warpedHigh, proto)
  }

  /** The number of digital zeros the pipeline pads to: the order, doubled for
      band filters. */
  function EffectiveOrder(t: FrequencyFilterType, order: int): int {
    if IsBand(t) then order * 2 else order
  }

  /** The digital half of CalcFilterSettings: map the analog filter to the
      z-plane, pad the zeros with -1 up to n, and multiply the analog gain by
      its ratio to the gain left by the bilinear transform. */
  function Digitize(m: MathLib, analog: Zpk, n: int): (r: Zpk)
    ensures |r.p| == |analog.p|
    ensures forall i :: 0 <= i < |analog.p| ==> r.p[i] == BilinearMap(m, analog.p[i])
    ensures |r.z| == if |analog.z| < n then n else |analog.z|
    ensures forall i :: 0 <= i < |analog.z| ==> r.z[i] == BilinearMap(m, analog.z[i])
    ensures forall i :: |analog.z| <= i < |r.z| ==> r.z[i] == Complex(-1.0, 0.0)
    ensures r.k == OverallGain(m, analog.k, S2Z(m, analog).k)
  {
    Zpk(PadZeros(MapRoots(m, analog.z), n), MapRoots(m, analog.p), OverallGain(m, analog.k, S2ZGain(m, analog)))
  }

  /** Zeros at z = -1 appended until there are `n` zeros (a band filter of
      order n needs n digital zeros); a longer list is kept as it is. */
  function PadZeros(zs: seq<Complex>, n: int): (r: seq<Complex>)
    ensures |r| == if |zs| < n then n else |zs|
    ensures zs <= r
    ensures forall i :: |zs| <= i < |r| ==> r[i] == Complex(-1.0, 0.0)
  {
    zs + Repeat(Complex(-1.0, 0.0), n - |zs|)
  }

  /** FilterTools.CalcFilterSettings: the band types double the order, the
      prototype is transformed and digitised, and the coefficients are
      expanded from the result. */
  function CalcFilterSettings(m: MathLib, t: FrequencyFilterType, fs: real, low: real, high: real,
                              order: int, proto: Zpk): (r: (Zpk, TransferFunction))
    ensures var analog := Convert(m, t, fs, low, high, proto);
            var n := EffectiveOrder(t, order);
      && |r.0.p| == |analog.p|
      && (forall i :: 0 <= i < |analog.p| ==> r.0.p[i] == BilinearMap(m, analog.p[i]))
      && |r.0.z| == (if |analog.z| < n then n else |analog.z|)
      && (forall i :: 0 <= i < |analog.z| ==> r.0.z[i] == BilinearMap(m, analog.z[i]))
      && (forall i :: |analog.z| <= i < |r.0.z| ==> r.0.z[i] == Complex(-1.0, 0.0))
      && r.0.k == OverallGain(m, analog.k, S2Z(m, analog).k)
    ensures r.1 == Zpk2Tf(r.0)
  {
    var zpk := Digitize(m, Convert(m, t, fs, low, high, proto), EffectiveOrder(t, order));
    (zpk, Zpk2Tf(zpk))
  }

  /** The gain CalcFilterSettings reports: the analog gain times its ratio to
      the gain the bilinear transform left. */
  function OverallGain(m: MathLib, preBltGain: real, digitalGain: real): real {
    preBltGain * Quot(m, preBltGain, digitalGain)
  }

  /** The overall gain times the digital gain is the square of the analog
      gain; when the digital gain is zero the division yields the non-finite
      stand-in. */
  lemma OverallGainBalance(m: MathLib, preBltGain: real, digitalGain: real)
    ensures digitalGain != 0.0 ==> OverallGain(m, preBltGain, digitalGain) * digitalGain == preBltGain * preBltGain
    ensures digitalGain == 0.0 ==> OverallGain(m, preBltGain, digitalGain) == preBltGain * m.nonFinite
  {
    if digitalGain != 0.0 {
      AssociateFactors(preBltGain, Quot(m, preBltGain, digitalGain), digitalGain);
    }
  }

  /** The CalcZpk / CalcTransferFunction shape every family shares: validate
      the frequencies, then build the prototype, then run the pipeline. */
  function Design(m: MathLib, spec: FrequencySpec, proto: Result<Zpk>): (r: Result<(Zpk, TransferFunction)>)
    ensures var check := FrequencyVerification(spec.filterType, spec.samplingFrequency, spec.cutoffLow, spec.cutoffHigh);
      && (check.Fail? ==> r == Failure(check.error))
      && (check.Pass? && proto.Failure? ==> r == Failure(proto.error))
      && (check.Pass? && proto.Success? ==> r == Success(CalcFilterSettings(m, spec.filterType, spec.samplingFrequency,
                                                  spec.cutoffLow, spec.cutoffHigh, spec.order, proto.value)))
    ensures r.Success? && |proto.value.p| == spec.order ==> 1 <= |r.value.1.a| <= |r.value.1.b|
  {
    var check := FrequencyVerification(spec.filterType, spec.samplingFrequency, spec.cutoffLow, spec.cutoffHigh);
    if check.Fail? then Failure(check.error)
    else
      var p :- proto;
      CoefficientCounts(m, spec.filterType, spec.samplingFrequency, spec.cutoffLow, spec.cutoffHigh, spec.order, p);
      Success(CalcFilterSettings(m, spec.filterType, spec.samplingFrequency, spec.cutoffLow, spec.cutoffHigh, spec.order, p))
  }

  /** A prototype with one pole per order yields at least one denominator
      coefficient and no fewer numerator coefficients: the zeros are padded
      up to the order (doubled for the band types), and no transformation
      yields more poles than that. */
  lemma CoefficientCounts(m: MathLib, t: FrequencyFilterType, fs: real, low: real, high: real,
                          order: int, proto: Zpk)
    ensures |proto.p| == order ==>
              var tf := CalcFilterSettings(m, t, fs, low, high, order, proto).1;
              1 <= |tf.a| <= |tf.b|
  {
    var analog := Convert(m, t, fs, low, high, proto);
    var d := Digitize(m, analog, EffectiveOrder(t, order));
    assert CalcFilterSettings(m, t, fs, low, high, order, proto).1 == Zpk2Tf(d);
    PoleCountBound(m, t, fs, low, high, proto);
  }

  /** No transformation yields more poles than the prototype's, doubled for
      the band types. */
  lemma PoleCountBound(m: MathLib, t: FrequencyFilterType, fs: real, low: real, high: real, proto: Zpk)
    ensures |Convert(m, t, fs, low, high, proto).p| <= EffectiveOrder(t, |proto.p|)
  {
    var bw := high - low;
    var wc := Centre(m, Prewarp(m, low, fs), Prewarp(m, high, fs));
    match t
    case BandPass =>
      assert |BandPassPoles(m, Prewarp(m, high, fs) - Prewarp(m, low, fs), wc, proto.p)| == 2 * |NonZeros(proto.p)|;
    case BandStop =>
      assert |BandStopPoles(m, Prewarp(m, high, fs) - Prewarp(m, low, fs), wc, proto.p)| == 2 * |NonZeros(proto.p)|;
    case LowPass =>
    case HighPass =>
  }
}
