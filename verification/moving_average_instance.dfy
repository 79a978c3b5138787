/** MovingAverageInstance.cs: the mean of the last `Width` valid samples,
    kept as a bounded queue and a running sum. */
module MovingAverageInstance {
  import opened FilterTypes
  import opened FilterInstanceBase

  /** The instance's fields: the window width, the queued samples (oldest
      first) and the running sum. */
  datatype State = State(width: int, queue: seq<real>, sum: real)

  /** What every operation keeps: a width above one, at most `width` queued
      samples, and a running sum that is exactly the sum of the queue. */
  predicate Valid(s: State) {
    s.width > 1 && |s.queue| <= s.width && s.sum == Sum(s.queue)
  }

  type Instance = s: State | Valid(s) witness State(2, [], 0.0)

  /** The last `w` elements of xs, or all of them when there are fewer. */
  function Last(xs: seq<real>, w: nat): (r: seq<real>)
    ensures |r| == if |xs| <= w then |xs| else w
  {
    if |xs| <= w then xs else xs[|xs| - w..]
  }

  /** The arithmetic mean of a non-empty sequence. */
  function Mean(xs: seq<real>): real
    requires |xs| >= 1
  {
    Sum(xs) / |xs| as real
  }

  /** The constructor: a width of one or less is rejected with the name of
      the offending field; otherwise the queue starts empty and the sum at
      zero. */
  function Create(width: int): (r: Result<Instance>)
    ensures r.Failure? <==> width <= 1
    ensures r.Failure? ==> r.error == ArgumentOutOfRange("Width")
    ensures r.Success? ==> r.value.width == width && r.value.queue == [] && r.value.sum == 0.0
  {
    if width <= 1 then Failure(ArgumentOutOfRange("Width"))
    else Success(State(width, [], 0.0))
  }

  /** MovingAverageInstance.GetCurrentCount: the number of queued samples,
      never more than the width. */
  function GetCurrentCount(s: Instance): (r: nat)
    ensures r == |s.queue| <= s.width
  {
    |s.queue|
  }

  /** MovingAverageInstance.ResetCalculation: the queue is emptied and the
      sum set to zero; the width stays. */
  function ResetCalculation(s: Instance): (r: Instance)
    ensures r.width == s.width && GetCurrentCount(r) == 0 && r.sum == 0.0
  {
    State(s.width, [], 0.0)
  }

  /** MovingAverageInstance.Process. A non-finite sample resets the instance
      and yields NaN. A finite one enters the queue, the oldest sample leaving
      first when the queue is full, and the result is the mean of the queue.
      The result is an Instance again: the count stays within the width and
      the running sum stays the sum of the queue. */
  function Process(s: Instance, sample: Double): (r: (Instance, Double))
    ensures r.0.width == s.width
    ensures !CheckDouble(sample) ==> r == (ResetCalculation(s), NaN)
    ensures sample.Finite? ==>
              && r.0.queue == Last(s.queue + [sample.value], s.width)
              && 1 <= |r.0.queue|
              && r.1 == Finite(Mean(r.0.queue))
  {
    if !CheckDouble(sample) then (ResetCalculation(s), NaN)
    else
      var v := sample.value;
      var kept := if |s.queue| == s.width then s.queue[1..] else s.queue;
      var sum := if |s.queue| == s.width then s.sum - s.queue[0] else s.sum;
      assert sum == Sum(kept) by {
        if |s.queue| == s.width {
          SumFront(s.queue);
        }
      }
      var queue := kept + [v];
      assert queue[..|queue| - 1] == kept;
      var next := State(s.width, queue, sum + v);
      (next, Finite(next.sum / |queue| as real))
  }

  /** The values of a run of finite samples. */
  function Values(samples: seq<Double>): (r: seq<real>)
    requires forall i :: 0 <= i < |samples| ==> samples[i].Finite?
    ensures |r| == |samples|
    decreases |samples|
  {
    if |samples| == 0 then []
    else
      var n := |samples| - 1;
      Values(samples[..n]) + [samples[n].value]
  }

  /** Keeping the last w of the last w is keeping the last w. */
  lemma LastOfLast(xs: seq<real>, v: real, w: nat)
    ensures Last(Last(xs, w) + [v], w) == Last(xs + [v], w)
  {
    var inner := Last(xs, w);
    var whole := xs + [v];
    var shorter := inner + [v];
    assert shorter == whole[|whole| - |shorter|..];
    assert Last(shorter, w) == whole[|whole| - |Last(shorter, w)|..];
  }

  /** After a run of finite samples the queue holds the last `width` values
      of what it held before followed by the new ones. */
  lemma {:induction false} QueueAfterRun(s: Instance, samples: seq<Double>)
    requires forall i :: 0 <= i < |samples| ==> samples[i].Finite?
    ensures Run<Instance>(Process, s, samples).1.queue == Last(s.queue + Values(samples), s.width)
    ensures Run<Instance>(Process, s, samples).1.width == s.width
    decreases |samples|
  {
    if |samples| == 0 {
      assert s.queue + Values(samples) == s.queue;
    } else {
      var n := |samples| - 1;
      var front := samples[..n];
      var v := samples[n].value;
      var old_values := s.queue + Values(front);
      assert Values(samples) == Values(front) + [v];
      assert s.queue + Values(samples) == old_values + [v];
      QueueAfterRun(s, front);
      var before := Run<Instance>(Process, s, front);
      var step := Process(before.1, samples[n]);
      assert Run<Instance>(Process, s, samples) == (before.0 + [step.1], step.0);
      assert step.0.queue == Last(before.1.queue + [v], s.width);
      LastOfLast(old_values, v, s.width);
    }
  }

  /** Output i of a run of finite samples from a freshly reset instance is
      the mean of the last min(i + 1, width) samples. */
  lemma MeanOfRecentSamples(s: Instance, samples: seq<Double>, i: nat)
    requires s.queue == []
    requires forall j :: 0 <= j < |samples| ==> samples[j].Finite?
    requires i < |samples|
    ensures |Last(Values(samples[..i + 1]), s.width)| == if i + 1 <= s.width then i + 1 else s.width
    ensures Run<Instance>(Process, s, samples).0[i] == Finite(Mean(Last(Values(samples[..i + 1]), s.width)))
  {
    var front := samples[..i];
    var v := samples[i].value;
    assert samples[..i + 1][..i] == front;
    assert Values(samples[..i + 1]) == Values(front) + [v];
    assert [] + Values(front) == Values(front);
    RunOutput<Instance>(Process, s, samples, i);
    QueueAfterRun(s, front);
    LastOfLast(Values(front), v, s.width);
  }

  /** After a reset the next finite sample comes back unchanged. */
  lemma ResetThenProcess(s: Instance, v: real)
    ensures Process(ResetCalculation(s), Finite(v)).1 == Finite(v)
  {
    assert [] + [v] == [v];
    assert Sum([v]) == v by {
      assert [v][..0] == [];
    }
  }

  /** A non-finite sample in the middle of a run yields NaN at its place, and
      the samples after it give exactly what they would give to a fresh
      instance of the same width. */
  lemma NanRestart(s: Instance, before: seq<Double>, bad: Double, after: seq<Double>)
    requires !CheckDouble(bad)
    ensures var restarted := Create(s.width).value;
            Run<Instance>(Process, s, before + [bad] + after).0
              == Run<Instance>(Process, s, before).0 + [NaN] + Run<Instance>(Process, restarted, after).0
  {
    var first := Run<Instance>(Process, s, before);
    RunConcat<Instance>(Process, s, before, [bad]);
    assert [bad][..0] == [];
    assert Run<Instance>(Process, s, before + [bad]) == (first.0 + [NaN], ResetCalculation(first.1));
    RunConcat<Instance>(Process, s, before + [bad], after);
    assert ResetCalculation(first.1) == Create(s.width).value by {
      QueueAfterRunWidth(s, before);
    }
  }

  /** Any run keeps the width. */
  lemma {:induction false} QueueAfterRunWidth(s: Instance, samples: seq<Double>)
    ensures Run<Instance>(Process, s, samples).1.width == s.width
    decreases |samples|
  {
    if |samples| > 0 {
      QueueAfterRunWidth(s, samples[..|samples| - 1]);
    }
  }

  /** With width 3 the samples 1, 2, 3, 4, 5 give 1, 1.5, 2, 3, 4. */
  lemma WidthThreeExample(s: Instance, samples: seq<Double>)
    requires Create(3) == Success(s)
    requires |samples| == 5 && forall j :: 0 <= j < 5 ==> samples[j] == Finite((j + 1) as real)
    ensures Run<Instance>(Process, s, samples).0 == [Finite(1.0), Finite(1.5), Finite(2.0), Finite(3.0), Finite(4.0)]
  {
    var values := seq(5, j => (j + 1) as real);
    MeanOfOne(1.0);
    MeanOfTwo(1.0, 2.0);
    MeanOfThree(1.0, 2.0, 3.0);
    MeanOfThree(2.0, 3.0, 4.0);
    MeanOfThree(3.0, 4.0, 5.0);
    ExampleOutput(s, samples, values, 0, [1.0], 1.0);
    ExampleOutput(s, samples, values, 1, [1.0, 2.0], 1.5);
    ExampleOutput(s, samples, values, 2, [1.0, 2.0, 3.0], 2.0);
    ExampleOutput(s, samples, values, 3, [2.0, 3.0, 4.0], 3.0);
    ExampleOutput(s, samples, values, 4, [3.0, 4.0, 5.0], 4.0);
    var outputs := Run<Instance>(Process, s, samples).0;
    assert outputs == [outputs[0], outputs[1], outputs[2], outputs[3], outputs[4]];
  }

  /** One output of the width-three example: the window the queue holds and
      its mean. */
  lemma ExampleOutput(s: Instance, samples: seq<Double>, values: seq<real>, i: nat, window: seq<real>, mean: real)
    requires s.width == 3 && s.queue == []
    requires |samples| == |values| && i < |samples|
    requires forall j :: 0 <= j < |samples| ==> samples[j] == Finite(values[j])
    requires |window| == (if i < 3 then i + 1 else 3)
    requires forall k :: 0 <= k < |window| ==> window[k] == values[i + 1 - |window| + k]
    requires Mean(window) == mean
    ensures Run<Instance>(Process, s, samples).0[i] == Finite(mean)
  {
    var w := Last(values[..i + 1], 3);
    assert w == window by {
      assert |w| == |window|;
      forall k | 0 <= k < |w|
        ensures w[k] == window[k]
      {
      }
    }
    ValuesOfPrefix(samples, values, i + 1);
    MeanOfRecentSamples(s, samples, i);
  }

  /** The values of a prefix of a run, written out. */
  lemma ValuesOfPrefix(samples: seq<Double>, values: seq<real>, k: nat)
    requires |samples| == |values| && k <= |samples|
    requires forall i :: 0 <= i < |samples| ==> samples[i] == Finite(values[i])
    ensures Values(samples[..k]) == values[..k]
  {
    if k > 0 {
      ValuesOfPrefix(samples, values, k - 1);
      assert samples[..k][..k - 1] == samples[..k - 1];
      assert values[..k] == values[..k - 1] + [values[k - 1]];
    }
  }

  /** Means of short windows, written out. */
  lemma MeanOfOne(a: real)
    ensures Mean([a]) == a
  {
    assert [a][..0] == [];
    assert Sum([a]) == Sum([]) + a;
  }

  lemma MeanOfTwo(a: real, b: real)
    ensures Mean([a, b]) == (a + b) / 2.0
  {
    MeanOfOne(a);
    assert [a, b][..1] == [a];
    assert Sum([a, b]) == Sum([a]) + b;
  }

  lemma MeanOfThree(a: real, b: real, c: real)
    ensures Mean([a, b, c]) == (a + b + c) / 3.0
  {
    MeanOfTwo(a, b);
    assert [a, b, c][..2] == [a, b];
    assert Sum([a, b, c]) == Sum([a, b]) + c;
  }
}
