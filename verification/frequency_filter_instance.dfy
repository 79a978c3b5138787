/** FrequencyFilterInstance.cs: a designed transfer function run over a
    sample stream as a direct-form-I difference equation.

    The instance holds the numerator b and denominator a, an input register
    x and an output register y of length |a| (x[0] and y[0] the newest), and
    a reset flag. The first finite sample after a reset fills both registers
    with itself; a non-finite sample sets the flag and yields NaN. */
module FrequencyFilterInstance {
  import opened Numerics
  import opened FilterTypes
  import opened FilterInstanceBase
  import FilterTools
  import Butterworth
  import Bessel
  import ChebyshevII

  /** The instance's fields. */
  datatype State = State(b: seq<real>, a: seq<real>, x: seq<real>, y: seq<real>, reset: bool)

  /** The shape every operation keeps: both registers as long as the
      denominator, at least one denominator coefficient, and no fewer
      numerator coefficients (Process reads b[i] for every register index). */
  predicate Valid(s: State) {
    1 <= |s.a| <= |s.b| && |s.x| == |s.a| && |s.y| == |s.a|
  }

  type Instance = s: State | Valid(s) witness State([1.0], [1.0], [0.0], [0.0], true)

  /** n copies of v. */
  function Fill(n: nat, v: real): (r: seq<real>)
    ensures |r| == n
    ensures forall i :: 0 <= i < n ==> r[i] == v
  {
    seq(n, _ => v)
  }

  /** A register after one shift: every value moves one place back, the
      oldest falls out and v takes place 0. */
  function Shift(r: seq<real>, v: real): (s: seq<real>)
    requires |r| >= 1
    ensures |s| == |r| && s[0] == v
    ensures forall i :: 1 <= i < |r| ==> s[i] == r[i - 1]
  {
    [v] + r[..|r| - 1]
  }

  /** The difference equation over the first n register places:
      b[0] x[0] + sum over 1 <= i < n of (b[i] x[i] - a[i] y[i]).
      a[0] and y[0] are never read. */
  function Recurrence(b: seq<real>, a: seq<real>, x: seq<real>, y: seq<real>, n: nat): real
    requires 1 <= n <= |b| && n <= |a| && n <= |x| && n <= |y|
  {
    if n == 1 then b[0] * x[0]
    else Recurrence(b, a, x, y, n - 1) + (b[n - 1] * x[n - 1] - a[n - 1] * y[n - 1])
  }

  /** Recurrence does not depend on y[0]. */
  lemma {:induction false} RecurrenceIgnoresNewestOutput(b: seq<real>, a: seq<real>, x: seq<real>, y: seq<real>, y2: seq<real>, n: nat)
    requires 1 <= n <= |b| && n <= |a| && n <= |x| && n <= |y| && |y2| == |y|
    requires forall i :: 1 <= i < |y| ==> y2[i] == y[i]
    ensures Recurrence(b, a, x, y, n) == Recurrence(b, a, x, y2, n)
  {
    if n > 1 {
      RecurrenceIgnoresNewestOutput(b, a, x, y, y2, n - 1);
    }
  }

  /** The registers a finite sample v is shifted into: after a reset both
      are first filled with v (InitFilterMemory), otherwise the stored ones. */
  function Memory(s: Instance, v: real): (r: (seq<real>, seq<real>))
    ensures |r.0| == |s.a| && |r.1| == |s.a|
  {
    if s.reset then (Fill(|s.a|, v), Fill(|s.a|, v)) else (s.x, s.y)
  }

  /** The instance the constructor builds from a transfer function: both
      registers of length |a|, zeroed, and the reset flag set. */
  function Initial(tf: TransferFunction): (r: Instance)
    requires 1 <= |tf.a| <= |tf.b|
    ensures r.b == tf.b && r.a == tf.a && r.reset
    ensures r.x == r.y && forall i :: 0 <= i < |tf.a| ==> r.x[i] == 0.0
  {
    State(tf.b, tf.a, Fill(|tf.a|, 0.0), Fill(|tf.a|, 0.0), true)
  }

  /** FrequencyFilterInstance.ResetCalculation: only the flag changes. */
  function ResetCalculation(s: Instance): (r: Instance)
    ensures r.reset
    ensures r.b == s.b && r.a == s.a && r.x == s.x && r.y == s.y
  {
    s.(reset := true)
  }

  /** FrequencyFilterInstance.Process. A non-finite sample resets the
      instance and yields NaN with nothing else changed. A finite sample v
      is shifted into the input register (after filling both registers
      with v if the flag was set), the output register is shifted, the
      difference equation gives the new output, and that output is stored
      in y[0] and returned. */
  function Process(s: Instance, sample: Double): (r: (Instance, Double))
    ensures r.0.b == s.b && r.0.a == s.a
    ensures !CheckDouble(sample) ==> r == (ResetCalculation(s), NaN)
    ensures sample.Finite? ==>
              var n := |s.a|;
              var before := Memory(s, sample.value);
              && !r.0.reset
              && r.0.x[0] == sample.value
              && (forall i :: 1 <= i < n ==> r.0.x[i] == before.0[i - 1] && r.0.y[i] == before.1[i - 1])
              && r.1 == Finite(r.0.y[0])
              && r.0.y[0] == Recurrence(s.b, s.a, r.0.x, r.0.y, n)
  {
    if !CheckDouble(sample) then (ResetCalculation(s), NaN)
    else
      var v := sample.value;
      var n := |s.a|;
      var before := Memory(s, v);
      var x := Shift(before.0, v);
      var shifted := Shift(before.1, before.1[0]);
      var out := Recurrence(s.b, s.a, x, shifted, n);
      var y := Shift(before.1, out);
      RecurrenceIgnoresNewestOutput(s.b, s.a, x, shifted, y, n);
      (State(s.b, s.a, x, y, false), Finite(out))
  }

  /** The FrequencyFilterInstance constructor: the definition selects the
      design family, whose exception propagates; a definition of any other
      kind is not supported. The instance starts with zeroed registers and
      the reset flag set. */
  method Create(m: MathLib, def: FilterDefinition) returns (r: Result<Instance>)
    ensures def.MovingAverageDefinition? || def.FrequencyDefinition? ==> r == Failure(NotSupported)
    ensures def.ButterworthDefinition? ==>
              var spec := def.spec;
              var d := Butterworth.Calc(m, spec.filterType, spec.samplingFrequency, spec.cutoffLow, spec.cutoffHigh, spec.order);
              r == if d.Success? then Success(Initial(d.value.1)) else Failure(d.error)
    ensures def.ChebyshevTypeTwoDefinition? ==>
              var spec := def.spec;
              var d := ChebyshevII.Calc(m, spec.filterType, spec.samplingFrequency, spec.cutoffLow, spec.cutoffHigh,
                                        spec.order, def.stopbandAttenuation);
              r == if d.Success? then Success(Initial(d.value.1)) else Failure(d.error)
    ensures def.BesselDefinition? ==>
              var spec := def.spec;
              var accepted := FilterTools.FrequenciesAccepted(spec.filterType, spec.samplingFrequency, spec.cutoffLow, spec.cutoffHigh);
              var d := FilterTools.Design(m, spec, Bessel.Prototype(m, spec.order));
              && (r == if d.Success? then Success(Initial(d.value.1)) else Failure(d.error))
              && (r.Success? <==> accepted && 1 <= spec.order <= 16)
              && (!accepted ==> r == Failure(FilterTools.FrequencyVerification(spec.filterType, spec.samplingFrequency,
                                                                             spec.cutoffLow, spec.cutoffHigh).error))
              && (accepted && !(1 <= spec.order <= 16) ==> r == Failure(ArgumentOutOfRange("filterOrder")))
    ensures r.Success? ==> r.value.reset && r.value.x == r.value.y && forall i :: 0 <= i < |r.value.x| ==> r.value.x[i] == 0.0
  {
    var d: Result<(Zpk, TransferFunction)>;
    match def {
      case ButterworthDefinition(spec) =>
        d := Butterworth.Calc(m, spec.filterType, spec.samplingFrequency, spec.cutoffLow, spec.cutoffHigh, spec.order);
      case BesselDefinition(spec) =>
        d := Bessel.Calc(m, spec.filterType, spec.samplingFrequency, spec.cutoffLow, spec.cutoffHigh, spec.order);
      case ChebyshevTypeTwoDefinition(spec, attenuation) =>
        d := ChebyshevII.Calc(m, spec.filterType, spec.samplingFrequency, spec.cutoffLow, spec.cutoffHigh, spec.order, attenuation);
      case _ =>
        return Failure(NotSupported);
    }
    if d.Failure? {
      return Failure(d.error);
    }
    r := Success(Initial(d.value.1));
  }

  /** A constant input v fed to a freshly reset instance comes out scaled
      by the sum of the numerator coefficients minus the sum of a[1..]. */
  lemma DcResponseAfterReset(s: Instance, v: real)
    requires s.reset
    ensures Process(s, Finite(v)).1 == Finite(v * (Sum(s.b[..|s.a|]) - Sum(s.a) + s.a[0]))
  {
    OutputAfterReset(s, v);
    ConstantRecurrence(s.b, s.a, v, |s.a|);
    assert s.a[..|s.a|] == s.a;
  }

  /** After a reset both registers hold the sample, so the output is the
      difference equation over constant registers. */
  lemma OutputAfterReset(s: Instance, v: real)
    requires s.reset
    ensures Process(s, Finite(v)).1 == Finite(Recurrence(s.b, s.a, Fill(|s.a|, v), Fill(|s.a|, v), |s.a|))
  {
    var n := |s.a|;
    var step := Process(s, Finite(v));
    var constant := Fill(n, v);
    assert step.0.x == constant;
    RecurrenceIgnoresNewestOutput(s.b, s.a, constant, step.0.y, constant, n);
  }

  /** With unity gain at DC (the numerator coefficients summing to the
      denominator's, a[0] = 1, as Zpk2Tf produces) the first sample after a
      reset comes back unchanged. */
  lemma UnityDcGainAfterReset(s: Instance, v: real)
    requires s.reset && s.a[0] == 1.0 && Sum(s.b[..|s.a|]) == Sum(s.a)
    ensures Process(s, Finite(v)).1 == Finite(v)
  {
    DcResponseAfterReset(s, v);
  }

  /** The difference equation over registers that all hold v. */
  lemma {:induction false} ConstantRecurrence(b: seq<real>, a: seq<real>, v: real, n: nat)
    requires 1 <= n <= |b| && n <= |a|
    ensures Recurrence(b, a, Fill(n, v), Fill(n, v), n) == v * (Sum(b[..n]) - Sum(a[..n]) + a[0])
  {
    PrefixRecurrence(b, a, Fill(n, v), Fill(n, v), v, n);
  }

  lemma {:induction false} PrefixRecurrence(b: seq<real>, a: seq<real>, x: seq<real>, y: seq<real>, v: real, k: nat)
    requires 1 <= k <= |b| && k <= |a| && k <= |x| && k <= |y|
    requires forall i :: 0 <= i < k ==> x[i] == v && y[i] == v
    ensures Recurrence(b, a, x, y, k) == v * (Sum(b[..k]) - Sum(a[..k]) + a[0])
  {
    assert b[..k][..k - 1] == b[..k - 1];
    assert a[..k][..k - 1] == a[..k - 1];
    if k == 1 {
      assert b[..1][..0] == [] && a[..1][..0] == [];
    } else {
      PrefixRecurrence(b, a, x, y, v, k - 1);
      Distribute(v, Sum(b[..k - 1]) - Sum(a[..k - 1]) + a[0], b[k - 1] - a[k - 1]);
    }
  }

  lemma Distribute(v: real, p: real, q: real)
    ensures v * p + v * q == v * (p + q)
  {
  }

  /** Two instances that differ at most in registers the next finite
      sample overwrites: same coefficients, same flag, and, when the flag
      is clear, the same registers. */
  predicate Interchangeable(s: Instance, t: Instance) {
    s.b == t.b && s.a == t.a && s.reset == t.reset && (!s.reset ==> s.x == t.x && s.y == t.y)
  }

  /** Interchangeable instances give the same output and stay
      interchangeable; after a finite sample they are equal. */
  lemma ProcessInterchangeable(s: Instance, t: Instance, sample: Double)
    requires Interchangeable(s, t)
    ensures Process(s, sample).1 == Process(t, sample).1
    ensures Interchangeable(Process(s, sample).0, Process(t, sample).0)
    ensures sample.Finite? ==> Process(s, sample) == Process(t, sample)
  {
    if sample.Finite? {
      assert Memory(s, sample.value) == Memory(t, sample.value);
    }
  }

  /** Interchangeable instances give the same outputs on any run. */
  lemma {:induction false} RunInterchangeable(s: Instance, t: Instance, samples: seq<Double>)
    requires Interchangeable(s, t)
    ensures Run<Instance>(Process, s, samples).0 == Run<Instance>(Process, t, samples).0
    ensures Interchangeable(Run<Instance>(Process, s, samples).1, Run<Instance>(Process, t, samples).1)
    decreases |samples|
  {
    if |samples| > 0 {
      var n := |samples| - 1;
      RunInterchangeable(s, t, samples[..n]);
      ProcessInterchangeable(Run<Instance>(Process, s, samples[..n]).1, Run<Instance>(Process, t, samples[..n]).1, samples[n]);
    }
  }

  /** Runs keep the coefficients. */
  lemma {:induction false} RunKeepsCoefficients(s: Instance, samples: seq<Double>)
    ensures Run<Instance>(Process, s, samples).1.b == s.b
    ensures Run<Instance>(Process, s, samples).1.a == s.a
    decreases |samples|
  {
    if |samples| > 0 {
      RunKeepsCoefficients(s, samples[..|samples| - 1]);
    }
  }

  /** A non-finite sample in the middle of a run yields NaN at its place,
      and the samples after it give exactly what they would give to a
      newly built instance with the same coefficients. */
  lemma NanRestart(s: Instance, before: seq<Double>, bad: Double, after: seq<Double>)
    requires !CheckDouble(bad)
    ensures var restarted := Initial(TransferFunction(s.b, s.a));
            Run<Instance>(Process, s, before + [bad] + after).0
              == Run<Instance>(Process, s, before).0 + [NaN] + Run<Instance>(Process, restarted, after).0
  {
    var first := Run<Instance>(Process, s, before);
    RunConcat<Instance>(Process, s, before, [bad]);
    assert [bad][..0] == [];
    assert Run<Instance>(Process, s, before + [bad]) == (first.0 + [NaN], ResetCalculation(first.1));
    RunConcat<Instance>(Process, s, before + [bad], after);
    RunKeepsCoefficients(s, before);
    RunInterchangeable(ResetCalculation(first.1), Initial(TransferFunction(s.b, s.a)), after);
  }

  /** Process as the source runs it, on arrays: InitFilterMemory when the
      flag is set, the shift loop from the top place down to place 1, the
      new input in place 0, then the accumulation loop. */
  method ProcessInPlace(s: Instance, sample: Double) returns (next: Instance, out: Double)
    ensures (next, out) == Process(s, sample)
  {
    if !CheckDouble(sample) {
      return ResetCalculation(s), NaN;
    }
    next, out := ProcessFinite(s, sample.value);
  }

  /** The finite-sample path of Process on arrays: fill the registers after
      a reset, shift them, store the sample, accumulate, store the output. */
  method ProcessFinite(s: Instance, v: real) returns (next: Instance, out: Double)
    ensures (next, out) == Process(s, Finite(v))
  {
    var size := |s.a|;
    var xs := new real[size](i requires 0 <= i < size => s.x[i]);
    var ys := new real[size](i requires 0 <= i < size => s.y[i]);
    if s.reset {
      InitFilterMemory(xs, ys, v);
    }
    ghost var before := Memory(s, v);
    assert xs[..] == before.0 && ys[..] == before.1;
    ShiftRegisters(xs, ys);
    ghost var shifted := ys[..];
    xs[0] := v;
    ShiftReplacesNewest(before.0, before.0[0], v);
    var newOut := Accumulate(s.b, s.a, xs, ys);
    ys[0] := newOut;
    ShiftReplacesNewest(before.1, before.1[0], newOut);
    assert ys[..] == shifted[0 := newOut];
    next := State(s.b, s.a, xs[..], ys[..], false);
    out := Finite(newOut);
  }

  /** Writing place 0 of a shifted register is shifting in the new value. */
  lemma ShiftReplacesNewest(r: seq<real>, v: real, w: real)
    requires |r| >= 1
    ensures Shift(r, v)[0 := w] == Shift(r, w)
  {
  }

  /** FrequencyFilterInstance.InitFilterMemory: both registers filled with
      the value. */
  method InitFilterMemory(xs: array<real>, ys: array<real>, v: real)
    requires xs.Length == ys.Length && xs != ys
    modifies xs, ys
    ensures xs[..] == Fill(xs.Length, v) && ys[..] == Fill(ys.Length, v)
  {
    for i := 0 to xs.Length
      invariant forall j :: 0 <= j < i ==> xs[j] == v && ys[j] == v
    {
      xs[i] := v;
      ys[i] := v;
    }
  }

  /** The shift loop: places size-1 down to 1 take the value one place
      nearer the front; place 0 keeps its value. */
  method ShiftRegisters(xs: array<real>, ys: array<real>)
    requires 1 <= xs.Length == ys.Length && xs != ys
    modifies xs, ys
    ensures xs[..] == Shift(old(xs[..]), old(xs[0])) && ys[..] == Shift(old(ys[..]), old(ys[0]))
  {
    ghost var x0 := xs[..];
    ghost var y0 := ys[..];
    var i := xs.Length - 1;
    while i > 0
      invariant 0 <= i < xs.Length
      invariant forall j :: 0 <= j <= i ==> xs[j] == x0[j] && ys[j] == y0[j]
      invariant forall j :: i < j < xs.Length ==> xs[j] == x0[j - 1] && ys[j] == y0[j - 1]
      decreases i
    {
      xs[i] := xs[i - 1];
      ys[i] := ys[i - 1];
      i := i - 1;
    }
  }

  /** The accumulation loop: b[0] x[0], then b[i] x[i] - a[i] y[i] added for
      every place i from 1 up. */
  method Accumulate(b: seq<real>, a: seq<real>, xs: array<real>, ys: array<real>) returns (r: real)
    requires 1 <= xs.Length == ys.Length <= |a| && xs.Length <= |b|
    ensures r == Recurrence(b, a, xs[..], ys[..], xs.Length)
  {
    r := b[0] * xs[0];
    for k := 1 to xs.Length
      invariant r == Recurrence(b, a, xs[..], ys[..], k)
    {
      r := r + (b[k] * xs[k] - a[k] * ys[k]);
    }
  }
}
