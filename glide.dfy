/** The frequency and amplitude trajectories of one block
    (new_frequency_array and new_amplitude_array). Both glide the same way:
    the direction toward the goal is fixed once for the block, each sample
    scales the block-start value by a ratio law applied to
    direction * rate * t, and the result is clamped at the goal. */
module Glide {
  import opened Utilities

  /** The exponent the ratio law is applied to at time `t` of a glide in
      direction `dir` at `rate` units per second. */
  function Exponent(dir: int, rate: real, t: real): real {
    dir as real * rate * t
  }

  /** One sample of a glide: the block-start value scaled by the ratio law at
      the sample's exponent, clamped at the goal. */
  function GlideSample(ratio: real -> real, dir: int, start: real, goal: real, rate: real, t: real): real {
    BoundedByEnd(start * ratio(Exponent(dir, rate, t)), start, goal)
  }

  /** A glide from `start` toward `goal` at `rate` units per second, sampled
      at `times`, under the ratio law `ratio`; the direction is fixed once for
      the whole block. */
  function GlideArray(ratio: real -> real, start: real, goal: real, rate: real, times: seq<real>): (r: seq<real>)
    ensures |r| == |times|
  {
    var dir := Direction(start, goal);
    seq(|times|, i requires 0 <= i < |times| => GlideSample(ratio, dir, start, goal, rate, times[i]))
  }

  /** new_frequency_array: a pitch glide at `pitchPerSecond` pitch units per second. */
  function FrequencyArray(c: Conversions, frequency: real, goal: real, pitchPerSecond: real, times: seq<real>): (r: seq<real>)
    ensures |r| == |times|
  {
    GlideArray(c.intervalRatio, frequency, goal, pitchPerSecond, times)
  }

  /** The mute floor of new_amplitude_array: every amplitude at or below the
      cutoff becomes exactly 0, every other one is kept. */
  function MuteFloor(amps: seq<real>, cutoff: real): (r: seq<real>)
    ensures |r| == |amps|
  {
    seq(|amps|, i requires 0 <= i < |amps| => if amps[i] <= cutoff then 0.0 else amps[i])
  }

  /** new_amplitude_array: a loudness glide at `decibelsPerSecond` decibels
      per second, with the mute floor applied. */
  function AmplitudeArray(c: Conversions, amplitude: real, goal: real, decibelsPerSecond: real,
                          cutoff: real, times: seq<real>): (r: seq<real>)
    ensures |r| == |times|
  {
    MuteFloor(GlideArray(c.decibelRatio, amplitude, goal, decibelsPerSecond, times), cutoff)
  }

  /** The times of a block are non-negative and in order. */
  ghost predicate TimeAxis(times: seq<real>) {
    (forall i :: 0 <= i < |times| ==> 0.0 <= times[i]) &&
    (forall i, j :: 0 <= i <= j < |times| ==> times[i] <= times[j])
  }

  /** The exponent of an upward glide is non-negative and grows with time. */
  lemma {:induction false} ExponentUp(rate: real, t: real, u: real)
    requires 0.0 <= rate && 0.0 <= t <= u
    ensures 0.0 <= Exponent(1, rate, t) <= Exponent(1, rate, u)
  {
    MulMonotone(rate, 0.0, t);
    MulMonotone(rate, t, u);
  }

  /** The exponent of a downward glide is non-positive and falls with time. */
  lemma {:induction false} ExponentDown(rate: real, t: real, u: real)
    requires 0.0 <= rate && 0.0 <= t <= u
    ensures Exponent(-1, rate, u) <= Exponent(-1, rate, t) <= 0.0
  {
    MulAntitone(-rate, 0.0, t);
    MulAntitone(-rate, t, u);
  }

  /** A ratio law at two ordered non-negative exponents. */
  lemma {:induction false} RatiosUp(ratio: real -> real, a: real, b: real)
    requires RatioLaw(ratio) && 0.0 <= a <= b
    ensures 1.0 <= ratio(a) <= ratio(b)
  {
    RatioFacts(ratio, a, b);
  }

  /** A ratio law at two ordered non-positive exponents. */
  lemma {:induction false} RatiosDown(ratio: real -> real, a: real, b: real)
    requires RatioLaw(ratio) && b <= a <= 0.0
    ensures 0.0 < ratio(b) <= ratio(a) <= 1.0
  {
    RatioFacts(ratio, b, a);
  }

  /** Scaling a positive start by ratios at least 1, in order. */
  lemma {:induction false} ScaleUp(start: real, ra: real, rb: real)
    requires 0.0 < start && 1.0 <= ra <= rb
    ensures start <= start * ra <= start * rb
  {
    MulMonotone(start, 1.0, ra);
    MulMonotone(start, ra, rb);
  }

  /** Scaling a positive start by positive ratios at most 1, in order. */
  lemma {:induction false} ScaleDown(start: real, ra: real, rb: real)
    requires 0.0 < start && 0.0 < rb <= ra <= 1.0
    ensures 0.0 < start * rb <= start * ra <= start
  {
    MulStrictlyMonotone(start, 0.0, rb);
    MulMonotone(start, rb, ra);
    MulMonotone(start, ra, 1.0);
  }

  /** An earlier sample x and a later sample y of a glide from `start` to
      `goal`: x is positive and between `start` and `goal`, and y is between
      x and `goal`. */
  predicate TowardGoal(x: real, y: real, start: real, goal: real) {
    0.0 < x && Between(x, start, goal) && Between(y, x, goal)
  }

  /** Clamping an upward glide: candidates cx (earlier) and cy (later) that
      have left `start` upward stay between `start` and `goal`, in order. */
  lemma {:induction false} ClampUp(cx: real, cy: real, start: real, goal: real)
    requires 0.0 < start < goal && start <= cx <= cy
    ensures TowardGoal(BoundedByEnd(cx, start, goal), BoundedByEnd(cy, start, goal), start, goal)
  {
  }

  /** Clamping a downward glide, the mirror image of ClampUp. */
  lemma {:induction false} ClampDown(cx: real, cy: real, start: real, goal: real)
    requires goal < start && 0.0 < cy <= cx <= start
    ensures TowardGoal(BoundedByEnd(cx, start, goal), BoundedByEnd(cy, start, goal), start, goal)
  {
  }

  /** An upward glide: the clamped samples for ratios ra (earlier) and rb
      (later), both at least 1, approach the goal in order. */
  lemma {:induction false} ClampedPairUp(start: real, goal: real, ra: real, rb: real)
    requires 0.0 < start < goal && 1.0 <= ra <= rb
    ensures TowardGoal(BoundedByEnd(start * ra, start, goal), BoundedByEnd(start * rb, start, goal), start, goal)
  {
    ScaleUp(start, ra, rb);
    ClampUp(start * ra, start * rb, start, goal);
  }

  /** A downward glide: the clamped samples for ratios ra (earlier) and rb
      (later), positive and at most 1, approach the goal in order. */
  lemma {:induction false} ClampedPairDown(start: real, goal: real, ra: real, rb: real)
    requires goal < start && 0.0 < start && 0.0 < rb <= ra <= 1.0
    ensures TowardGoal(BoundedByEnd(start * ra, start, goal), BoundedByEnd(start * rb, start, goal), start, goal)
  {
    ScaleDown(start, ra, rb);
    var x, y := start * ra, start * rb;
    assert 0.0 < y <= x <= start;
    ClampDown(x, y, start, goal);
  }

  /** Two samples of an upward glide approach the goal in order. */
  lemma {:induction false} GlideSampleUp(ratio: real -> real, start: real, goal: real, rate: real, t: real, u: real)
    requires RatioLaw(ratio) && 0.0 < start < goal && 0.0 <= rate && 0.0 <= t <= u
    ensures TowardGoal(GlideSample(ratio, 1, start, goal, rate, t), GlideSample(ratio, 1, start, goal, rate, u), start, goal)
  {
    ExponentUp(rate, t, u);
    RatiosUp(ratio, Exponent(1, rate, t), Exponent(1, rate, u));
    ClampedPairUp(start, goal, ratio(Exponent(1, rate, t)), ratio(Exponent(1, rate, u)));
  }

  /** Two samples of a downward glide approach the goal in order. */
  lemma {:induction false} GlideSampleDown(ratio: real -> real, start: real, goal: real, rate: real, t: real, u: real)
    requires RatioLaw(ratio) && goal < start && 0.0 < start && 0.0 <= rate && 0.0 <= t <= u
    ensures TowardGoal(GlideSample(ratio, -1, start, goal, rate, t), GlideSample(ratio, -1, start, goal, rate, u), start, goal)
  {
    ExponentDown(rate, t, u);
    RatiosDown(ratio, Exponent(-1, rate, t), Exponent(-1, rate, u));
    ClampedPairDown(start, goal, ratio(Exponent(-1, rate, t)), ratio(Exponent(-1, rate, u)));
  }

  /** One sample of a glide: it is positive, it lies between the block-start
      value and the goal, and a sample taken later lies between it and the
      goal. */
  lemma {:induction false} GlideSampleFacts(ratio: real -> real, start: real, goal: real, rate: real, t: real, u: real)
    requires RatioLaw(ratio) && 0.0 < start && 0.0 <= rate && 0.0 <= t <= u
    ensures TowardGoal(GlideSample(ratio, Direction(start, goal), start, goal, rate, t),
                       GlideSample(ratio, Direction(start, goal), start, goal, rate, u), start, goal)
  {
    if start < goal {
      GlideSampleUp(ratio, start, goal, rate, t, u);
    } else if goal < start {
      GlideSampleDown(ratio, start, goal, rate, t, u);
    } else {
      assert GlideSample(ratio, Direction(start, goal), start, goal, rate, t) == goal;
      assert GlideSample(ratio, Direction(start, goal), start, goal, rate, u) == goal;
    }
  }

  /** A sample is the goal exactly when the unclamped exponential has
      reached or passed it. */
  lemma {:induction false} GlideSampleAtGoal(ratio: real -> real, start: real, goal: real, rate: real, t: real)
    ensures GlideSample(ratio, Direction(start, goal), start, goal, rate, t) == goal <==>
      Between(goal, start, start * ratio(Exponent(Direction(start, goal), rate, t)))
  {
    BoundedByEndLaw(start * ratio(Exponent(Direction(start, goal), rate, t)), start, goal);
  }

  /** Below the goal a sample is the upward exponential capped at the goal;
      above it, the downward exponential floored at the goal. */
  lemma {:induction false} GlideSampleClamped(ratio: real -> real, start: real, goal: real, rate: real, t: real)
    ensures start < goal ==>
      GlideSample(ratio, Direction(start, goal), start, goal, rate, t) == Min(start * ratio(Exponent(1, rate, t)), goal)
    ensures goal < start ==>
      GlideSample(ratio, Direction(start, goal), start, goal, rate, t) == Max(start * ratio(Exponent(-1, rate, t)), goal)
  {
  }

  /** No overshoot and a direction fixed for the block: every sample of a
      glide is positive and lies between the block-start value and the goal,
      and every later sample lies between an earlier one and the goal, so the
      trajectory moves monotonically toward the goal and, once it reaches it,
      holds there. */
  lemma {:induction false} GlideTowardGoal(ratio: real -> real, start: real, goal: real, rate: real, times: seq<real>)
    requires RatioLaw(ratio) && 0.0 < start && 0.0 <= rate && TimeAxis(times)
    ensures var r := GlideArray(ratio, start, goal, rate, times);
      (forall i :: 0 <= i < |r| ==> 0.0 < r[i] && Between(r[i], start, goal)) &&
      (forall i, j :: 0 <= i <= j < |r| ==> Between(r[j], r[i], goal))
  {
    var r := GlideArray(ratio, start, goal, rate, times);
    forall i, j | 0 <= i <= j < |r|
      ensures 0.0 < r[i] && Between(r[i], start, goal) && Between(r[j], r[i], goal)
    {
      GlideSampleFacts(ratio, start, goal, rate, times[i], times[j]);
    }
  }

  /** A glide from a positive value stays positive, whatever the goal and
      whatever the sign of the rate: the scaled value is positive, and
      clamping it only ever replaces it by a goal that lies beyond the
      positive start. */
  lemma {:induction false} GlidePositive(ratio: real -> real, start: real, goal: real, rate: real, times: seq<real>)
    requires RatioLaw(ratio) && 0.0 < start
    ensures var r := GlideArray(ratio, start, goal, rate, times);
      forall i :: 0 <= i < |r| ==> 0.0 < r[i]
  {
    var r := GlideArray(ratio, start, goal, rate, times);
    forall i | 0 <= i < |r|
      ensures 0.0 < r[i]
    {
      var e := Exponent(Direction(start, goal), rate, times[i]);
      MulStrictlyMonotone(start, 0.0, ratio(e));
    }
  }

  /** A glide whose start is already at the goal is flat at the goal. */
  lemma {:induction false} GlideAtRest(ratio: real -> real, start: real, goal: real, rate: real, times: seq<real>)
    requires RatioLaw(ratio) && start == goal
    ensures forall i :: 0 <= i < |times| ==>
      start * ratio(Exponent(Direction(start, goal), rate, times[i])) == start
    ensures forall i :: 0 <= i < |times| ==> GlideArray(ratio, start, goal, rate, times)[i] == goal
  {
    forall i | 0 <= i < |times|
      ensures start * ratio(Exponent(Direction(start, goal), rate, times[i])) == start
    {
      assert Exponent(Direction(start, goal), rate, times[i]) == 0.0;
    }
  }

  /** The mute floor, for any loudness rate: an emitted amplitude is exactly
      0 when its glide value is at or below the cutoff, and otherwise it is
      that glide value, above the cutoff. When the rate is non-negative the
      glide approaches the goal, so a kept amplitude also lies between the
      block-start amplitude and the goal. */
  lemma {:induction false} AmplitudeMuteFloor(c: Conversions, amplitude: real, goal: real, decibelsPerSecond: real,
                           cutoff: real, times: seq<real>)
    requires RatioLaw(c.decibelRatio) && 0.0 < amplitude && TimeAxis(times)
    ensures var a := AmplitudeArray(c, amplitude, goal, decibelsPerSecond, cutoff, times);
      var g := GlideArray(c.decibelRatio, amplitude, goal, decibelsPerSecond, times);
      forall i :: 0 <= i < |a| ==>
        (a[i] == 0.0 <==> g[i] <= cutoff) &&
        (cutoff < g[i] ==> a[i] == g[i] && cutoff < a[i]) &&
        (0.0 <= decibelsPerSecond && cutoff < g[i] ==> Between(a[i], amplitude, goal))
  {
    GlidePositive(c.decibelRatio, amplitude, goal, decibelsPerSecond, times);
    if 0.0 <= decibelsPerSecond {
      GlideTowardGoal(c.decibelRatio, amplitude, goal, decibelsPerSecond, times);
    }
  }
}
