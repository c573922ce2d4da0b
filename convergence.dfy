/** Repeated calls of next_data: the frequency glide reaches its goal after
    finitely many blocks and then stays there. Each block restarts its time
    axis at 0 and stores the glide's value at the block's last time, so one
    block of `frames` frames scales a frequency that has not yet reached the
    goal by the ratio law at pitchPerSecond * (frames - 1) / samplerate,
    upward or downward. */
module Convergence {
  import opened Utilities
  import opened Glide
  import opened Block

  /** The voice after k calls of next_data with `frames` frames each. */
  function Iterate(s: Settings, v: Voice, frames: nat, k: nat): (w: Voice)
    requires 0 < s.samplerate && 2 <= frames
    ensures w.goalFrequency == v.goalFrequency && w.goalAmplitude == v.goalAmplitude
    ensures w.waveform == v.waveform
    decreases k
  {
    if k == 0 then v else NextVoice(s, Iterate(s, v, frames, k - 1), frames)
  }

  /** The factor one block applies to a frequency gliding in direction `dir`. */
  function BlockRatio(s: Settings, frames: nat, dir: int): real
    requires 0 < s.samplerate
  {
    s.conv.intervalRatio(Exponent(dir, s.pitchPerSecond, (frames - 1) as real / s.samplerate as real))
  }

  /** With a positive pitch rate one block raises an upward glide by a factor
      above 1 and lowers a downward glide by a positive factor below 1. */
  lemma {:induction false} BlockRatioBounds(s: Settings, frames: nat)
    requires ValidSettings(s) && 2 <= frames && 0.0 < s.pitchPerSecond
    ensures 1.0 < BlockRatio(s, frames, 1)
    ensures 0.0 < BlockRatio(s, frames, -1) < 1.0
  {
    var t := (frames - 1) as real / s.samplerate as real;
    DivMonotone(0.0, 1.0, s.samplerate as real);
    MulStrictlyMonotone((frames - 1) as real, 0.0, 1.0 / s.samplerate as real);
    assert 0.0 < t;
    MulStrictlyMonotone(s.pitchPerSecond, 0.0, t);
    var up, down := Exponent(1, s.pitchPerSecond, t), Exponent(-1, s.pitchPerSecond, t);
    assert 0.0 < up && down < 0.0;
    assert s.conv.intervalRatio(0.0) < s.conv.intervalRatio(up);
    assert s.conv.intervalRatio(down) < s.conv.intervalRatio(0.0);
  }

  /** Some whole number of steps of a positive size covers any distance. */
  lemma {:induction false} StepsCover(dist: real, step: real) returns (n: nat)
    requires 0.0 <= dist && 0.0 < step
    ensures dist <= n as real * step
  {
    var q := dist / step;
    DivMonotone(0.0, dist, step);
    n := q.Floor + 1;
    assert q < n as real;
    MulMonotone(step, q, n as real);
    assert q * step == dist;
  }

  /** A positive distance needs at least one step. */
  lemma {:induction false} SomeStepsLeft(n: nat, dist: real, step: real)
    requires 0.0 < dist <= n as real * step
    ensures 0 < n
  {
  }

  /** One step fewer covers what is left after closing at least one step. */
  lemma {:induction false} OneStepFewer(n: nat, dist: real, step: real)
    requires 0 < n && dist + step <= n as real * step
    ensures dist <= (n - 1) as real * step
  {
    assert (n - 1) as real * step == n as real * step - step;
  }

  /** An upward step from f >= f0 by a factor r > 1 climbs by at least
      f0 * (r - 1). */
  lemma {:induction false} ClimbStep(f0: real, f: real, r: real)
    requires 0.0 < f0 <= f && 1.0 < r
    ensures 0.0 < f0 * (r - 1.0) && f + f0 * (r - 1.0) <= f * r
  {
    MulStrictlyMonotone(f0, 0.0, r - 1.0);
    MulMonotone(r - 1.0, f0, f);
    assert f0 * (r - 1.0) == (r - 1.0) * f0;
    assert f * r == f + (r - 1.0) * f;
  }

  /** A downward step from f above a positive goal by a positive factor
      r < 1 falls by at least goal * (1 - r). */
  lemma {:induction false} FallStep(f: real, r: real, goal: real)
    requires 0.0 < goal < f && 0.0 < r < 1.0
    ensures 0.0 < goal * (1.0 - r) && f * r + goal * (1.0 - r) <= f
  {
    var q := 1.0 - r;
    MulStrictlyMonotone(goal, 0.0, q);
    MulMonotone(q, goal, f);
    assert goal * (1.0 - r) == q * goal;
    assert f * r == f - q * f;
    assert f * r + goal * (1.0 - r) == f - q * f + q * goal;
  }

  /** A block that climbs without reaching the goal uses up one of the n
      climbs that covered the distance. */
  lemma {:induction false} ClimbBudget(f0: real, f: real, r: real, goal: real, n: nat)
    requires 0.0 < f0 <= f < goal && 1.0 < r && Min(f * r, goal) < goal
    requires goal - f <= n as real * (f0 * (r - 1.0))
    ensures 0 < n && f0 <= Min(f * r, goal)
    ensures goal - Min(f * r, goal) <= (n - 1) as real * (f0 * (r - 1.0))
  {
    ClimbStep(f0, f, r);
    SomeStepsLeft(n, goal - f, f0 * (r - 1.0));
    OneStepFewer(n, goal - f * r, f0 * (r - 1.0));
  }

  /** A block that falls without reaching the goal uses up one of the n
      falls that covered the distance. */
  lemma {:induction false} FallBudget(f: real, r: real, goal: real, n: nat)
    requires 0.0 < goal < f && 0.0 < r < 1.0 && goal < Max(f * r, goal)
    requires f - goal <= n as real * (goal * (1.0 - r))
    ensures 0 < n
    ensures Max(f * r, goal) - goal <= (n - 1) as real * (goal * (1.0 - r))
  {
    FallStep(f, r, goal);
    SomeStepsLeft(n, f - goal, goal * (1.0 - r));
    OneStepFewer(n, f * r - goal, goal * (1.0 - r));
  }

  /** The stored frequency one block later, as a recurrence on reals: below
      the goal it is scaled by `up` and capped at the goal, above the goal
      scaled by `down` and floored at the goal, and at the goal it stays. */
  function BlockStep(f: real, goal: real, up: real, down: real): real {
    if f < goal then Min(f * up, goal)
    else if goal < f then Max(f * down, goal)
    else goal
  }

  /** The stored frequency after k blocks of the recurrence. */
  function FrequencyAfter(f: real, goal: real, up: real, down: real, k: nat): real
    decreases k
  {
    if k == 0 then f else BlockStep(FrequencyAfter(f, goal, up, down, k - 1), goal, up, down)
  }

  /** After k calls of next_data the stored frequency is the recurrence
      started from the voice's frequency, with the two block ratios. */
  lemma {:induction false} IterateFrequency(s: Settings, v: Voice, frames: nat, k: nat)
    requires 0 < s.samplerate && 2 <= frames
    ensures Iterate(s, v, frames, k).frequency ==
      FrequencyAfter(v.frequency, v.goalFrequency, BlockRatio(s, frames, 1), BlockRatio(s, frames, -1), k)
    decreases k
  {
    if k > 0 {
      var u := Iterate(s, v, frames, k - 1);
      IterateFrequency(s, v, frames, k - 1);
      StoredFrequency(s, u, frames);
      GlideSampleStep(s.conv.intervalRatio, u.frequency, u.goalFrequency, s.pitchPerSecond,
                      (frames - 1) as real / s.samplerate as real);
    }
  }

  /** A glide sample taken at time t is one block of the recurrence with the
      ratios the law gives at t, upward and downward. */
  lemma {:induction false} GlideSampleStep(ratio: real -> real, f: real, goal: real, rate: real, t: real)
    ensures GlideSample(ratio, Direction(f, goal), f, goal, rate, t) ==
      BlockStep(f, goal, ratio(Exponent(1, rate, t)), ratio(Exponent(-1, rate, t)))
  {
    GlideSampleClamped(ratio, f, goal, rate, t);
    if f == goal {
      BoundedByEndLaw(f * ratio(Exponent(Direction(f, goal), rate, t)), f, goal);
    }
  }

  /** k + 1 blocks of the recurrence are one block followed by k more. */
  lemma {:induction false} FrequencyAfterFirst(f: real, goal: real, up: real, down: real, k: nat)
    ensures FrequencyAfter(f, goal, up, down, k + 1) == FrequencyAfter(BlockStep(f, goal, up, down), goal, up, down, k)
    decreases k
  {
    if k > 0 {
      FrequencyAfterFirst(f, goal, up, down, k - 1);
    }
  }

  /** An upward glide from at least f0 reaches its goal within n blocks when
      n climbs of f0 * (up - 1) each cover the distance to it. */
  lemma {:induction false} ReachesUp(f0: real, f: real, goal: real, up: real, down: real, n: nat) returns (k: nat)
    requires 0.0 < f0 <= f <= goal && 1.0 < up
    requires goal - f <= n as real * (f0 * (up - 1.0))
    ensures k <= n && FrequencyAfter(f, goal, up, down, k) == goal
    decreases n
  {
    if f == goal {
      return 0;
    }
    var g := BlockStep(f, goal, up, down);
    assert FrequencyAfter(f, goal, up, down, 1) == g;
    if g == goal {
      return 1;
    }
    ClimbBudget(f0, f, up, goal, n);
    var j := ReachesUp(f0, g, goal, up, down, n - 1);
    FrequencyAfterFirst(f, goal, up, down, j);
    k := j + 1;
  }

  /** A downward glide to a positive goal reaches it within n blocks when n
      falls of goal * (1 - down) each cover the distance to it. */
  lemma {:induction false} ReachesDown(f: real, goal: real, up: real, down: real, n: nat) returns (k: nat)
    requires 0.0 < goal <= f && 0.0 < down < 1.0
    requires f - goal <= n as real * (goal * (1.0 - down))
    ensures k <= n && FrequencyAfter(f, goal, up, down, k) == goal
    decreases n
  {
    if f == goal {
      return 0;
    }
    var g := BlockStep(f, goal, up, down);
    assert FrequencyAfter(f, goal, up, down, 1) == g;
    if g == goal {
      return 1;
    }
    FallBudget(f, down, goal, n);
    var j := ReachesDown(g, goal, up, down, n - 1);
    FrequencyAfterFirst(f, goal, up, down, j);
    k := j + 1;
  }

  /** Once the recurrence is at the goal, every later block keeps it there. */
  lemma {:induction false} StaysAtGoal(f: real, goal: real, up: real, down: real, k: nat, j: nat)
    requires k <= j && FrequencyAfter(f, goal, up, down, k) == goal
    ensures FrequencyAfter(f, goal, up, down, j) == goal
    decreases j
  {
    if k < j {
      StaysAtGoal(f, goal, up, down, k, j - 1);
    }
  }

  /** Convergence in blocks: with a positive pitch rate and a positive goal,
      repeated calls of next_data bring the stored frequency to the goal
      after finitely many blocks, and it stays there. */
  lemma {:induction false} GlideReachesGoal(s: Settings, v: Voice, frames: nat) returns (k: nat)
    requires ValidSettings(s) && 2 <= frames && 0.0 < s.pitchPerSecond
    requires 0.0 < v.frequency && 0.0 < v.goalFrequency
    ensures forall j :: k <= j ==> Iterate(s, v, frames, j).frequency == v.goalFrequency
  {
    BlockRatioBounds(s, frames);
    var f, goal := v.frequency, v.goalFrequency;
    var up, down := BlockRatio(s, frames, 1), BlockRatio(s, frames, -1);
    if f <= goal {
      ClimbStep(f, f, up);
      var n := StepsCover(goal - f, f * (up - 1.0));
      k := ReachesUp(f, f, goal, up, down, n);
    } else {
      FallStep(f, down, goal);
      var n := StepsCover(f - goal, goal * (1.0 - down));
      k := ReachesDown(f, goal, up, down, n);
    }
    forall j | k <= j
      ensures Iterate(s, v, frames, j).frequency == goal
    {
      StaysAtGoal(f, goal, up, down, k, j);
      IterateFrequency(s, v, frames, j);
    }
  }
}
