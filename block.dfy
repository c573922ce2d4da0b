/** One call of next_data, as a function of the generator's state: the
    block it renders (frequencies, phases, amplitudes, samples) and the
    state it leaves behind. The class in generator.dfy performs the same
    call step by step and is proved equal to these functions. */
module Block {
  import opened Utilities
  import opened Glide
  import opened Phase

  /** np.pi, as the shortest decimal that rounds to the double nearest to pi. */
  const Pi: real := 3.141592653589793

  /** What a generator fixes at construction. */
  datatype Settings = Settings(
    conv: Conversions,
    pitchPerSecond: real,
    decibelsPerSecond: real,
    samplerate: int,
    phaseCutoff: real,
    amplitudeCutoff: real)

  /** What next_data reads and writes: the current and goal frequency and
      amplitude, the accumulated phase (in cycles) and the waveform. */
  datatype Voice = Voice(
    frequency: real,
    amplitude: real,
    phase: real,
    goalFrequency: real,
    goalAmplitude: real,
    waveform: real -> real)

  /** The per-sample arrays of one block. */
  datatype Block = Block(frequencies: seq<real>, phases: seq<real>, amplitudes: seq<real>, samples: seq<real>)

  /** The conversions obey their laws, the sample rate is positive and the
      mute threshold is a positive amplitude. */
  ghost predicate ValidSettings(s: Settings) {
    Lawful(s.conv) && 0 < s.samplerate && 0.0 < s.amplitudeCutoff
  }

  /** A voice that can be rendered: positive frequency and amplitude, and a
      phase that has not run backwards past 0. */
  predicate ValidVoice(v: Voice) {
    0.0 < v.frequency && 0.0 < v.amplitude && 0.0 <= v.phase
  }

  /** The sinewave array: each amplitude times the waveform at 2 * pi times
      the phase. */
  function Synthesize(amps: seq<real>, phases: seq<real>, waveform: real -> real): (r: seq<real>)
    requires |amps| == |phases|
    ensures |r| == |amps|
  {
    seq(|amps|, i requires 0 <= i < |amps| => amps[i] * waveform(2.0 * Pi * phases[i]))
  }

  /** A muted sample is silent, whatever the waveform. */
  lemma {:induction false} SynthesizeSilent(amps: seq<real>, phases: seq<real>, waveform: real -> real)
    requires |amps| == |phases|
    ensures var r := Synthesize(amps, phases, waveform);
      forall i :: 0 <= i < |r| ==> (amps[i] == 0.0 ==> r[i] == 0.0)
  {
  }

  /** The arrays next_data computes for a block of `frames` samples. The
      sample period is read from the first two times, so a block needs at
      least two frames. */
  function Render(s: Settings, v: Voice, frames: nat): (b: Block)
    requires 0 < s.samplerate && 2 <= frames
    ensures |b.frequencies| == |b.phases| == |b.amplitudes| == |b.samples| == frames
  {
    var times := FramesToTimeArray(0, frames, s.samplerate);
    var dt := times[1] - times[0];
    var f := FrequencyArray(s.conv, v.frequency, v.goalFrequency, s.pitchPerSecond, times);
    var p := PhaseArray(v.phase, f, dt);
    var a := AmplitudeArray(s.conv, v.amplitude, v.goalAmplitude, s.decibelsPerSecond, s.amplitudeCutoff, times);
    Block(f, p, a, Synthesize(a, p, v.waveform))
  }

  /** The state next_data leaves: the last frequency, the last amplitude
      raised to at least the cutoff, and the last phase reduced once. The
      goals and the waveform are kept. */
  function NextVoice(s: Settings, v: Voice, frames: nat): (w: Voice)
    requires 0 < s.samplerate && 2 <= frames
    ensures w.goalFrequency == v.goalFrequency && w.goalAmplitude == v.goalAmplitude
    ensures w.waveform == v.waveform
  {
    var b := Render(s, v, frames);
    v.(frequency := b.frequencies[frames - 1],
       amplitude := Max(b.amplitudes[frames - 1], s.amplitudeCutoff),
       phase := Wrap(b.phases[frames - 1], s.phaseCutoff))
  }

  /** The time array of a block is a time axis and its step is a positive
      1 / samplerate. */
  lemma {:induction false} BlockTimes(s: Settings, frames: nat)
    requires 0 < s.samplerate && 2 <= frames
    ensures var times := FramesToTimeArray(0, frames, s.samplerate);
      TimeAxis(times) && times[1] - times[0] == 1.0 / s.samplerate as real &&
      0.0 < 1.0 / s.samplerate as real
  {
    TimeArrayShape(frames, s.samplerate);
    DivMonotone(0.0, 1.0, s.samplerate as real);
    assert 0.0 / s.samplerate as real == 0.0;
  }

  /** The arrays of a rendered block: the frequency and amplitude glides of
      the block's time array, the running phase of the frequencies at the
      sample period 1 / samplerate, and the synthesized samples. */
  lemma {:induction false} RenderParts(s: Settings, v: Voice, frames: nat)
    requires 0 < s.samplerate && 2 <= frames
    ensures var b := Render(s, v, frames);
      var times := FramesToTimeArray(0, frames, s.samplerate);
      b.frequencies == FrequencyArray(s.conv, v.frequency, v.goalFrequency, s.pitchPerSecond, times) &&
      b.phases == PhaseArray(v.phase, b.frequencies, 1.0 / s.samplerate as real) &&
      b.amplitudes == AmplitudeArray(s.conv, v.amplitude, v.goalAmplitude, s.decibelsPerSecond, s.amplitudeCutoff, times) &&
      b.samples == Synthesize(b.amplitudes, b.phases, v.waveform)
  {
    BlockTimes(s, frames);
  }

  /** No overshoot, one direction per block: every frequency of the block is
      positive and between the block-start frequency and the goal, and every
      later frequency is between an earlier one and the goal. */
  lemma {:induction false} BlockFrequenciesGlide(s: Settings, v: Voice, frames: nat)
    requires ValidSettings(s) && 2 <= frames && 0.0 < v.frequency && 0.0 <= s.pitchPerSecond
    ensures var f := Render(s, v, frames).frequencies;
      (forall i :: 0 <= i < frames ==> 0.0 < f[i] && Between(f[i], v.frequency, v.goalFrequency)) &&
      (forall i, j :: 0 <= i <= j < frames ==> Between(f[j], f[i], v.goalFrequency))
  {
    BlockTimes(s, frames);
    RenderParts(s, v, frames);
    var times := FramesToTimeArray(0, frames, s.samplerate);
    GlideTowardGoal(s.conv.intervalRatio, v.frequency, v.goalFrequency, s.pitchPerSecond, times);
  }

  /** The block and the next voice, from the three arrays computed the way
      next_data computes them. */
  lemma {:induction false} RenderFrom(s: Settings, v: Voice, frames: nat, times: seq<real>,
                                      f: seq<real>, p: seq<real>, a: seq<real>)
    requires 0 < s.samplerate && 2 <= frames
    requires times == FramesToTimeArray(0, frames, s.samplerate)
    requires f == FrequencyArray(s.conv, v.frequency, v.goalFrequency, s.pitchPerSecond, times)
    requires p == PhaseArray(v.phase, f, times[1] - times[0])
    requires a == AmplitudeArray(s.conv, v.amplitude, v.goalAmplitude, s.decibelsPerSecond, s.amplitudeCutoff, times)
    ensures Render(s, v, frames) == Block(f, p, a, Synthesize(a, p, v.waveform))
    ensures NextVoice(s, v, frames) ==
      v.(frequency := f[frames - 1], amplitude := Max(a[frames - 1], s.amplitudeCutoff),
         phase := Wrap(p[frames - 1], s.phaseCutoff))
  {
  }

  /** Steady tone: at the goal frequency the whole block sits at the goal,
      the phase advances by goal / samplerate cycles per sample, and the
      stored frequency stays at the goal. */
  lemma {:induction false} BlockSteadyTone(s: Settings, v: Voice, frames: nat)
    requires 0 < s.samplerate && 2 <= frames && v.frequency == v.goalFrequency
    ensures forall i :: 0 <= i < frames ==> Render(s, v, frames).frequencies[i] == v.goalFrequency
    ensures forall i :: 0 <= i < frames ==>
      Render(s, v, frames).phases[i] == v.phase + (i + 1) as real * (v.goalFrequency * (1.0 / s.samplerate as real))
    ensures NextVoice(s, v, frames).frequency == v.goalFrequency
  {
    BlockAtGoal(s, v, frames);
    BlockPhasesSteady(s, v, frames);
    NextVoiceAtRest(s, v, frames);
  }

  /** At the goal every frequency sample is the goal. */
  lemma {:induction false} BlockAtGoal(s: Settings, v: Voice, frames: nat)
    requires 0 < s.samplerate && 2 <= frames && v.frequency == v.goalFrequency
    ensures forall i :: 0 <= i < frames ==> Render(s, v, frames).frequencies[i] == v.goalFrequency
  {
    RenderParts(s, v, frames);
  }

  /** At the goal the phase advances by the same amount every sample. */
  lemma {:induction false} BlockPhasesSteady(s: Settings, v: Voice, frames: nat)
    requires 0 < s.samplerate && 2 <= frames && v.frequency == v.goalFrequency
    ensures forall i :: 0 <= i < frames ==>
      Render(s, v, frames).phases[i] == v.phase + (i + 1) as real * (v.goalFrequency * (1.0 / s.samplerate as real))
  {
    BlockAtGoal(s, v, frames);
    var b := Render(s, v, frames);
    var dt := 1.0 / s.samplerate as real;
    assert b.phases == PhaseArray(v.phase, b.frequencies, dt) by {
      RenderParts(s, v, frames);
    }
    PhaseSteady(v.phase, b.frequencies, dt, v.goalFrequency);
  }

  /** At the goal the stored frequency stays at the goal. */
  lemma {:induction false} NextVoiceAtRest(s: Settings, v: Voice, frames: nat)
    requires 0 < s.samplerate && 2 <= frames && v.frequency == v.goalFrequency
    ensures NextVoice(s, v, frames).frequency == v.goalFrequency
  {
    BlockAtGoal(s, v, frames);
    assert NextVoice(s, v, frames).frequency == Render(s, v, frames).frequencies[frames - 1];
  }

  /** The mute floor against the stored floor, for any loudness rate: an
      emitted amplitude is exactly 0 where the glide is at or below the
      cutoff, and otherwise equals the glide value (between the block-start
      amplitude and the goal when the rate is non-negative); a muted sample
      is silent; and the stored amplitude is never below the cutoff: it is
      the last emitted amplitude unless that one was muted, in which case it
      is the cutoff itself. */
  lemma {:induction false} BlockAmplitudes(s: Settings, v: Voice, frames: nat)
    requires ValidSettings(s) && 2 <= frames && 0.0 < v.amplitude
    ensures var b := Render(s, v, frames);
      var g := GlideArray(s.conv.decibelRatio, v.amplitude, v.goalAmplitude, s.decibelsPerSecond,
                          FramesToTimeArray(0, frames, s.samplerate));
      var w := NextVoice(s, v, frames);
      (forall i :: 0 <= i < frames ==>
         (b.amplitudes[i] == 0.0 <==> g[i] <= s.amplitudeCutoff) &&
         (s.amplitudeCutoff < g[i] ==> b.amplitudes[i] == g[i]) &&
         (0.0 <= s.decibelsPerSecond && s.amplitudeCutoff < g[i] ==>
            Between(b.amplitudes[i], v.amplitude, v.goalAmplitude)) &&
         (b.amplitudes[i] == 0.0 ==> b.samples[i] == 0.0)) &&
      s.amplitudeCutoff <= w.amplitude &&
      (b.amplitudes[frames - 1] == 0.0 ==> w.amplitude == s.amplitudeCutoff) &&
      (b.amplitudes[frames - 1] != 0.0 ==> w.amplitude == b.amplitudes[frames - 1])
  {
    BlockTimes(s, frames);
    RenderParts(s, v, frames);
    var times := FramesToTimeArray(0, frames, s.samplerate);
    AmplitudeMuteFloor(s.conv, v.amplitude, v.goalAmplitude, s.decibelsPerSecond, s.amplitudeCutoff, times);
    var b := Render(s, v, frames);
    SynthesizeSilent(b.amplitudes, b.phases, v.waveform);
  }

  /** Phase continuity across blocks: the phases of a block followed by
      those of the next block, the latter shifted back by what the wrap took
      off, are the running phase of the two blocks' frequencies taken
      together. The wrap takes off exactly one cutoff when the last phase is
      past it and nothing otherwise. */
  lemma {:induction false} BlockPhaseContinuous(s: Settings, v: Voice, n: nat, m: nat)
    requires 0 < s.samplerate && 2 <= n && 2 <= m
    ensures var b1 := Render(s, v, n);
      var w := NextVoice(s, v, n);
      var b2 := Render(s, w, m);
      var shift := b1.phases[n - 1] - w.phase;
      ((b1.phases[n - 1] > s.phaseCutoff && shift == s.phaseCutoff) ||
       (b1.phases[n - 1] <= s.phaseCutoff && shift == 0.0)) &&
      b1.phases + Shifted(b2.phases, shift) ==
        PhaseArray(v.phase, b1.frequencies + b2.frequencies, 1.0 / s.samplerate as real)
  {
    var b1 := Render(s, v, n);
    var w := NextVoice(s, v, n);
    RenderParts(s, v, n);
    RenderParts(s, w, m);
    assert w.phase == Wrap(b1.phases[n - 1], s.phaseCutoff);
    PhaseResumed(v.phase, b1.frequencies, Render(s, w, m).frequencies, 1.0 / s.samplerate as real, w.phase);
  }

  /** next_data keeps a voice renderable, whatever the goals and whatever the
      sign of the rates: the stored frequency and amplitude stay positive and
      the stored phase stays non-negative. */
  lemma {:induction false} NextVoicePreservesValid(s: Settings, v: Voice, frames: nat)
    requires ValidSettings(s) && ValidVoice(v) && 2 <= frames
    ensures ValidVoice(NextVoice(s, v, frames))
  {
    BlockTimes(s, frames);
    RenderParts(s, v, frames);
    var times := FramesToTimeArray(0, frames, s.samplerate);
    var b := Render(s, v, frames);
    GlidePositive(s.conv.intervalRatio, v.frequency, v.goalFrequency, s.pitchPerSecond, times);
    PhaseIncreasing(v.phase, b.frequencies, 1.0 / s.samplerate as real);
    WrapBounds(v.phase, b.phases[frames - 1] - v.phase, s.phaseCutoff);
  }

  /** With a non-negative pitch rate every frequency of a block is
      positive and at most the larger of the block-start and goal frequencies. */
  lemma {:induction false} BlockFrequenciesBelow(s: Settings, v: Voice, frames: nat)
    requires ValidSettings(s) && 2 <= frames && 0.0 < v.frequency && 0.0 <= s.pitchPerSecond
    ensures var f := Render(s, v, frames).frequencies;
      forall i :: 0 <= i < frames ==> 0.0 < f[i] <= Max(v.frequency, v.goalFrequency)
  {
    BlockFrequenciesGlide(s, v, frames);
  }

  /** The bounded phase wrap, for any rates: if the phase was within
      [0, cutoff] and the block advances it by at most one cutoff, the stored
      phase is again within [0, cutoff]. */
  lemma {:induction false} NextVoicePhaseBounded(s: Settings, v: Voice, frames: nat)
    requires ValidSettings(s) && ValidVoice(v) && 2 <= frames
    requires v.phase <= s.phaseCutoff
    requires Render(s, v, frames).phases[frames - 1] - v.phase <= s.phaseCutoff
    ensures 0.0 <= NextVoice(s, v, frames).phase <= s.phaseCutoff
  {
    BlockTimes(s, frames);
    RenderParts(s, v, frames);
    var times := FramesToTimeArray(0, frames, s.samplerate);
    var b := Render(s, v, frames);
    GlidePositive(s.conv.intervalRatio, v.frequency, v.goalFrequency, s.pitchPerSecond, times);
    PhaseIncreasing(v.phase, b.frequencies, 1.0 / s.samplerate as real);
    WrapBounds(v.phase, b.phases[frames - 1] - v.phase, s.phaseCutoff);
  }

  /** The glide reaches the goal within the block exactly when the
      unclamped exponential at the block's last time has reached or passed
      it; the stored frequency is then the goal itself. */
  lemma {:induction false} NextVoiceReachesGoal(s: Settings, v: Voice, frames: nat)
    requires 0 < s.samplerate && 2 <= frames
    ensures NextVoice(s, v, frames).frequency == v.goalFrequency <==>
        Between(v.goalFrequency, v.frequency, v.frequency * s.conv.intervalRatio(Exponent(Direction(v.frequency, v.goalFrequency), s.pitchPerSecond, (frames - 1) as real / s.samplerate as real)))
  {
    var t := (frames - 1) as real / s.samplerate as real;
    var g := GlideSample(s.conv.intervalRatio, Direction(v.frequency, v.goalFrequency), v.frequency, v.goalFrequency,
                         s.pitchPerSecond, t);
    var reached := Between(v.goalFrequency, v.frequency,
                           v.frequency * s.conv.intervalRatio(Exponent(Direction(v.frequency, v.goalFrequency), s.pitchPerSecond, t)));
    assert g == v.goalFrequency <==> reached by {
      GlideSampleAtGoal(s.conv.intervalRatio, v.frequency, v.goalFrequency, s.pitchPerSecond, t);
    }
    StoredFrequency(s, v, frames);
  }

  /** The stored frequency is the glide sample at the block's last time. */
  lemma {:induction false} StoredFrequency(s: Settings, v: Voice, frames: nat)
    requires 0 < s.samplerate && 2 <= frames
    ensures NextVoice(s, v, frames).frequency ==
      GlideSample(s.conv.intervalRatio, Direction(v.frequency, v.goalFrequency), v.frequency, v.goalFrequency,
                  s.pitchPerSecond, (frames - 1) as real / s.samplerate as real)
  {
    RenderParts(s, v, frames);
    var times := FramesToTimeArray(0, frames, s.samplerate);
    assert times[frames - 1] == (frames - 1) as real / s.samplerate as real;
  }

  /** The stored frequency moves toward the goal and never past it. */
  lemma {:induction false} NextVoiceApproachesGoal(s: Settings, v: Voice, frames: nat)
    requires ValidSettings(s) && 2 <= frames && 0.0 < v.frequency && 0.0 <= s.pitchPerSecond
    ensures Between(NextVoice(s, v, frames).frequency, v.frequency, v.goalFrequency)
  {
    BlockFrequenciesGlide(s, v, frames);
  }
}
