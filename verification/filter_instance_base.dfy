/** What every running filter shares (FilterInstanceBase.cs): the samples it
    is fed, the finiteness check, and ProcessSamples, which feeds an array of
    samples through Process one after the other.

    An instance's mutable fields are modelled as an immutable state value;
    Process becomes a function from a state and a sample to the next state
    and the output. */
module FilterInstanceBase {

  /** A double as the instances see it: a finite value, NaN, or an infinity.
      Rounding and signed zero are not modelled. */
  datatype Double = Finite(value: real) | NaN | PositiveInfinity | NegativeInfinity

  /** FilterInstanceBase.CheckDouble: rejects NaN and both infinities. */
  function CheckDouble(d: Double): (ok: bool)
    ensures ok <==> d.Finite?
  {
    !(d.NaN? || d.PositiveInfinity? || d.NegativeInfinity?)
  }

  /** The sum of a sequence, added from the front. */
  function Sum(xs: seq<real>): real
    decreases |xs|
  {
    if |xs| == 0 then 0.0 else Sum(xs[..|xs| - 1]) + xs[|xs| - 1]
  }

  /** Taking the first element off leaves the sum of the rest. */
  lemma {:induction false} SumFront(xs: seq<real>)
    requires |xs| >= 1
    ensures Sum(xs) == xs[0] + Sum(xs[1..])
    decreases |xs|
  {
    if |xs| > 1 {
      SumFront(xs[..|xs| - 1]);
      assert xs[..|xs| - 1][1..] == xs[1..][..|xs| - 2];
    }
  }

  /** The outputs and the final state when `process` is applied to each
      sample in turn, each call seeing the state the previous one left. */
  function Run<S>(process: (S, Double) -> (S, Double), s: S, samples: seq<Double>): (r: (seq<Double>, S))
    ensures |r.0| == |samples|
    decreases |samples|
  {
    if |samples| == 0 then ([], s)
    else
      var n := |samples| - 1;
      var before := Run(process, s, samples[..n]);
      var step := process(before.1, samples[n]);
      (before.0 + [step.1], step.0)
  }

  /** Output i is Process of sample i in the state the earlier samples left. */
  lemma {:induction false} RunOutput<S>(process: (S, Double) -> (S, Double), s: S, samples: seq<Double>, i: nat)
    requires i < |samples|
    ensures Run(process, s, samples).0[i] == process(Run(process, s, samples[..i]).1, samples[i]).1
    decreases |samples|
  {
    var n := |samples| - 1;
    if i < n {
      RunOutput(process, s, samples[..n], i);
      assert samples[..n][..i] == samples[..i];
    } else {
      assert samples[..n] == samples[..i];
    }
  }

  /** Running over two pieces one after the other is running over their
      concatenation: the second piece starts from the state the first left. */
  lemma {:induction false} RunConcat<S>(process: (S, Double) -> (S, Double), s: S, xs: seq<Double>, ys: seq<Double>)
    ensures var first := Run(process, s, xs);
            var second := Run(process, first.1, ys);
            Run(process, s, xs + ys) == (first.0 + second.0, second.1)
    decreases |ys|
  {
    if |ys| > 0 {
      var n := |ys| - 1;
      var first := Run(process, s, xs);
      RunConcat(process, s, xs, ys[..n]);
      var middle := Run(process, first.1, ys[..n]);
      var step := process(middle.1, ys[n]);
      assert (xs + ys)[..|xs| + n] == xs + ys[..n];
      assert (xs + ys)[|xs| + n] == ys[n];
      assert Run(process, s, xs + ys) == ((first.0 + middle.0) + [step.1], step.0);
      assert Run(process, first.1, ys) == (middle.0 + [step.1], step.0);
      assert (first.0 + middle.0) + [step.1] == first.0 + (middle.0 + [step.1]);
    } else {
      assert xs + ys == xs;
      assert Run(process, s, xs).0 + [] == Run(process, s, xs).0;
    }
  }

  /** FilterInstanceBase.ProcessSamples: an output array of the input's
      length, element i being Process of sample i, with no reset at entry. */
  method ProcessSamples<S>(process: (S, Double) -> (S, Double), s0: S, samples: seq<Double>)
    returns (outputs: seq<Double>, s: S)
    ensures (outputs, s) == Run(process, s0, samples)
  {
    var values := new Double[|samples|](_ => NaN);
    s := s0;
    for i := 0 to |samples|
      invariant (values[..i], s) == Run(process, s0, samples[..i])
    {
      assert samples[..i + 1][..i] == samples[..i];
      var step := process(s, samples[i]);
      assert Run(process, s0, samples[..i + 1]) == (values[..i] + [step.1], step.0);
      values[i] := step.1;
      assert values[..i + 1] == values[..i] + [step.1];
      s := step.0;
    }
    assert samples[..|samples|] == samples;
    assert values[..] == values[..|samples|];
    outputs := values[..];
  }
}
