/** The helpers the generator calls from pysinewave/utilities.py.
    That file is not part of this model. The transcendental conversions
    (a pitch interval to a frequency ratio, decibels to an amplitude ratio)
    and the reference frequency of pitch 0 are supplied as parameters, and
    only the laws the generator relies on are assumed of them (RatioLaw).
    The three small helpers direction, bounded_by_end and
    frames_to_time_array are defined by the behaviour their call sites
    rely on. */
module Utilities {

  /** The library's unit conversions. */
  datatype Conversions = Conversions(
    intervalRatio: real -> real,  // interval_to_frequency_ratio: pitch interval -> frequency ratio
    decibelRatio: real -> real,   // decibels_to_amplitude_ratio: decibels -> linear amplitude ratio
    referenceFrequency: real)     // the frequency that pitch_to_frequency gives pitch 0

  /** What is assumed of a ratio law such as 2^(x/12) or 10^(x/20):
      it is 1 at 0, positive and strictly increasing. */
  ghost predicate RatioLaw(ratio: real -> real) {
    ratio(0.0) == 1.0 &&
    (forall x :: 0.0 < ratio(x)) &&
    (forall x, y :: x < y ==> ratio(x) < ratio(y))
  }

  /** Both conversions obey their laws and the reference tone is a frequency. */
  ghost predicate Lawful(c: Conversions) {
    RatioLaw(c.intervalRatio) && RatioLaw(c.decibelRatio) && 0.0 < c.referenceFrequency
  }

  function Min(a: real, b: real): real { if a <= b then a else b }

  function Max(a: real, b: real): real { if a <= b then b else a }

  /** x lies on the closed segment between a and b, whichever way round. */
  predicate Between(x: real, a: real, b: real) {
    (a <= x <= b) || (b <= x <= a)
  }

  /** pitch_to_frequency: the reference frequency scaled by the interval
      ratio of the pitch; a positive reference and ratio give a positive
      frequency. PitchToFrequencyLaw states what the ratio law adds. */
  function PitchToFrequency(c: Conversions, pitch: real): (f: real)
    ensures 0.0 < c.referenceFrequency && 0.0 < c.intervalRatio(pitch) ==> 0.0 < f
  {
    c.referenceFrequency * c.intervalRatio(pitch)
  }

  /** Pitch 0 is the reference tone, every pitch maps to a positive
      frequency, and a higher pitch to a higher frequency. */
  lemma {:induction false} PitchToFrequencyLaw(c: Conversions, p: real, q: real)
    requires Lawful(c)
    ensures PitchToFrequency(c, 0.0) == c.referenceFrequency
    ensures 0.0 < PitchToFrequency(c, p)
    ensures p < q ==> PitchToFrequency(c, p) < PitchToFrequency(c, q)
  {
    MulStrictlyMonotone(c.referenceFrequency, 0.0, c.intervalRatio(p));
    if p < q {
      MulStrictlyMonotone(c.referenceFrequency, c.intervalRatio(p), c.intervalRatio(q));
      assert PitchToFrequency(c, p) < PitchToFrequency(c, q);
    }
  }

  /** direction(start, end): +1 when end lies above start, -1 below, 0 when equal. */
  function Direction(start: real, end: real): (d: int)
    ensures d == 1 <==> start < end
    ensures d == -1 <==> end < start
    ensures d == 0 <==> start == end
  {
    if end > start then 1 else if end < start then -1 else 0
  }

  /** bounded_by_end(x, start, end): x with everything past `end`, seen from
      `start`, replaced by `end`. When start equals end there is no direction
      to glide in and the result is `end`; under a ratio law that is also
      what scaling start by ratio(0) == 1 gives (Glide.GlideAtRest). */
  function BoundedByEnd(x: real, start: real, end: real): real {
    if start < end then Min(x, end)
    else if end < start then Max(x, end)
    else end
  }

  /** The clamp never lets a candidate past `end`, whatever the candidate:
      the result is x or `end`, it is never beyond `end` seen from `start`,
      a candidate that has not passed `end` is kept, and the result is `end`
      exactly when the candidate has reached or passed it. */
  lemma {:induction false} BoundedByEndLaw(x: real, start: real, end: real)
    ensures var r := BoundedByEnd(x, start, end);
      (start < end ==> r <= end) &&
      (end < start ==> end <= r) &&
      (start == end ==> r == end) &&
      (r == x || r == end) &&
      (Between(x, start, end) ==> r == x) &&
      (r == end <==> Between(end, start, x))
  {
  }

  /** frames_to_time_array(start, frames, samplerate): the times in seconds
      of `frames` consecutive frames, beginning with frame `start`. */
  function FramesToTimeArray(start: int, frames: nat, samplerate: int): (t: seq<real>)
    requires 0 < samplerate
    ensures |t| == frames
  {
    seq(frames, i requires 0 <= i < frames => (start + i) as real / samplerate as real)
  }

  /** The time axis of a block starts at 0, never runs backwards, and its
      first step is one sample period. */
  lemma {:induction false} TimeArrayShape(frames: nat, samplerate: int)
    requires 0 < samplerate
    ensures var t := FramesToTimeArray(0, frames, samplerate);
      (forall i :: 0 <= i < frames ==> 0.0 <= t[i]) &&
      (forall i, j :: 0 <= i <= j < frames ==> t[i] <= t[j]) &&
      (2 <= frames ==> t[0] == 0.0 && t[1] - t[0] == 1.0 / samplerate as real)
  {
    var t := FramesToTimeArray(0, frames, samplerate);
    var sr := samplerate as real;
    forall i, j | 0 <= i <= j < frames ensures t[i] <= t[j] {
      assert t[i] == i as real / sr && t[j] == j as real / sr;
      DivMonotone(i as real, j as real, sr);
    }
    forall i | 0 <= i < frames ensures 0.0 <= t[i] {
      DivMonotone(0.0, i as real, sr);
    }
  }

  /** Consequences of a ratio law: it is at least 1 on the non-negative
      reals, at most 1 on the non-positive ones, and monotone. */
  lemma {:induction false} RatioFacts(ratio: real -> real, x: real, y: real)
    requires RatioLaw(ratio)
    ensures 0.0 <= x ==> 1.0 <= ratio(x)
    ensures x <= 0.0 ==> ratio(x) <= 1.0
    ensures x <= y ==> ratio(x) <= ratio(y)
  {
  }

  lemma {:induction false} MulStrictlyMonotone(k: real, a: real, b: real)
    requires 0.0 < k && a < b
    ensures k * a < k * b
  {
    assert k * b - k * a == k * (b - a);
  }

  lemma {:induction false} MulMonotone(k: real, a: real, b: real)
    requires 0.0 <= k && a <= b
    ensures k * a <= k * b
  {
    assert k * b - k * a == k * (b - a);
  }

  lemma {:induction false} MulAntitone(k: real, a: real, b: real)
    requires k <= 0.0 && a <= b
    ensures k * b <= k * a
  {
    assert k * a - k * b == k * (a - b);
  }

  lemma {:induction false} DivMonotone(a: real, b: real, d: real)
    requires a <= b && 0.0 < d
    ensures a / d <= b / d
  {
    assert b / d - a / d == (b - a) / d;
  }

  lemma {:induction false} ScaleBounds(x: real, m: real, dt: real)
    requires 0.0 <= x <= m && 0.0 < dt
    ensures 0.0 <= x * dt <= m * dt
  {
    assert m * dt - x * dt == (m - x) * dt;
  }

  lemma {:induction false} MulSucc(n: int, c: real)
    ensures (n + 1) as real * c == n as real * c + c
  {
  }
}
