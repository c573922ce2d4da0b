# pysinewave's SineWaveGenerator, modelled in Dafny

pysinewave plays a tone whose pitch and loudness glide smoothly to the
goals a caller sets. Its engine is the `SineWaveGenerator` class in
`pysinewave/sinewave_generator.py`. The class holds:

- a current frequency and amplitude;
- goals for each of those;
- an accumulated phase, in cycles;
- a waveform function.

The goal setters (`set_frequency`, `set_pitch`, `set_amplitude`,
`set_decibels`, `set_waveform`) write only their own field. `next_data(frames)`
renders one block of samples in five steps:

1. It glides the frequency from its current value toward the goal. The
   direction is chosen once per block, and the glide is clamped at the goal.
2. It glides the amplitude in the same way. A mute floor then zeroes every
   amplitude at or below the cutoff.
3. It takes the phase to be the previous phase plus a running sum of
   `frequency * delta_time`.
4. It emits `amplitude * waveform(2π · phase)`.
5. It stores the last frequency, the last amplitude raised to at least the
   cutoff, and the last phase. The stored phase is reduced once by the phase
   cutoff when it exceeds it.

The model has six modules, one file each.

- `Utilities` (utilities.dfy) covers the helpers the class calls in
  `pysinewave/utilities.py`, a file that is not part of this model.
  - The two conversions (a pitch interval to a frequency ratio, decibels to
    an amplitude ratio) and the reference frequency of pitch 0 are
    parameters. They come in a `Conversions` value. All that is assumed of
    each ratio is its law (`RatioLaw`): it is 1 at 0, positive everywhere
    and strictly increasing.
  - `direction`, `bounded_by_end` and `frames_to_time_array` are defined by
    what their call sites need. The direction is +1, -1 or 0. The clamp is a
    minimum when gliding up, a maximum when gliding down, and the goal when
    there is no glide. The times of a block are `i / samplerate`.
- `Glide` (glide.dfy) holds `new_frequency_array` and `new_amplitude_array`
  as functions on sequences of reals, and their no-overshoot and mute-floor
  properties.
- `Phase` (phase.dfy) holds `new_phase_array`. `np.cumsum` is a prefix sum
  built on a recursive `Sum`. This module also proves continuity across
  blocks and the bound on the phase wrap.
- `Block` (block.dfy) states one call of `next_data` as pure functions of
  the generator's settings and state. `Render` gives the arrays of the block
  and `NextVoice` gives the state left behind. The block-level properties
  are proved here.
- `Generator` (generator.dfy) holds the class itself.
  - Its constant fields are fixed by the constructor. Its mutable fields are
    changed by setters whose `modifies` names only the one field each
    writes.
  - `NewAmplitudeArray` zeroes muted entries one at a time in a loop.
  - `NextData` performs `next_data` step by step. It is proved to return
    `Render`'s samples and to leave exactly `NextVoice`'s state. It keeps the
    class invariant `Valid`: lawful conversions, a positive sample rate and
    mute threshold, positive frequency and amplitude, and a non-negative
    phase.
- `Convergence` (convergence.dfy) iterates `NextVoice` over repeated calls
  of `next_data`. Each block scales a frequency that has not reached its
  goal by one fixed ratio, upward or downward, and stores the goal once the
  clamp applies. So with a positive pitch rate the stored frequency reaches
  the goal after finitely many blocks and stays there.

## Model

| member | source | states |
|---|---|---|
| Utilities.PitchToFrequencyLaw | pysinewave/sinewave_generator.py:13 | pitch 0 gives the reference frequency; every pitch gives a positive frequency; a higher pitch gives a strictly higher frequency |
| Utilities.PitchToFrequency | pysinewave/sinewave_generator.py:13 | a positive reference frequency and a positive interval ratio give a positive frequency |
| Utilities.BoundedByEndLaw | pysinewave/sinewave_generator.py:31 | whatever the candidate, the clamp returns the candidate or the end, never a value past the end seen from the start; it keeps a candidate that has not passed the end, and it returns the end exactly when the candidate has reached or passed it |
| Utilities.Direction | pysinewave/sinewave_generator.py:28 | the glide direction is +1 exactly when the goal lies above the start, -1 exactly when it lies below, and 0 exactly when they are equal |
| Utilities.FramesToTimeArray | pysinewave/sinewave_generator.py:69 | a block of `frames` frames has exactly `frames` times |
| Utilities.TimeArrayShape | pysinewave/sinewave_generator.py:69-70 | the times of a block are non-negative and never decrease; with two or more frames the first time is 0 and delta_time is one sample period, 1 / samplerate |
| Glide.GlideArray | pysinewave/sinewave_generator.py:28-31 | a glide has one sample per time; its meaning is stated by GlideTowardGoal, GlidePositive and GlideAtRest |
| Glide.FrequencyArray | pysinewave/sinewave_generator.py:26-31 | new_frequency_array gives one frequency per time |
| Glide.GlideSampleFacts | pysinewave/sinewave_generator.py:28-31 | for two times t <= u, the sample at t is positive and lies between the block-start value and the goal, and the sample at u lies between the one at t and the goal |
| Glide.GlideTowardGoal | pysinewave/sinewave_generator.py:28-31 | no overshoot and one direction per block: every sample is positive and lies between the block-start value and the goal, and every later sample lies between an earlier one and the goal |
| Glide.GlidePositive | pysinewave/sinewave_generator.py:29-31 | a glide from a positive value stays positive whatever the goal and whatever the sign of the rate |
| Glide.GlideAtRest | pysinewave/sinewave_generator.py:28-31 | when the start equals the goal, the direction is 0, so the scale factor at every time is 1 and every sample equals the goal |
| Glide.GlideSampleAtGoal | pysinewave/sinewave_generator.py:28-31 | a glide sample equals the goal exactly when the unclamped exponential at that time has reached or passed the goal |
| Glide.GlideSampleClamped | pysinewave/sinewave_generator.py:28-31 | gliding up, a sample is the smaller of the unclamped exponential and the goal; gliding down, it is the larger of the two |
| Glide.MuteFloor | pysinewave/sinewave_generator.py:39 | the mute floor keeps the length of the amplitude array |
| Glide.AmplitudeArray | pysinewave/sinewave_generator.py:33-40 | new_amplitude_array gives one amplitude per time |
| Glide.AmplitudeMuteFloor | pysinewave/sinewave_generator.py:35-39 | for any loudness rate, an emitted amplitude is 0 exactly when its glide value is at or below the cutoff, and otherwise it equals the glide value and lies above the cutoff; with a non-negative rate a kept amplitude also lies between the block-start amplitude and the goal |
| Phase.CumSum | pysinewave/sinewave_generator.py:44 | the running sum has one entry per increment |
| Phase.CumSumStep | pysinewave/sinewave_generator.py:44 | the running sum starts at the first increment, and each later entry is the previous entry plus the next increment |
| Phase.Increments | pysinewave/sinewave_generator.py:44 | there is one phase increment per frequency |
| Phase.Shifted | pysinewave/sinewave_generator.py:44 | adding the previous phase to every entry keeps the length |
| Phase.PhaseArray | pysinewave/sinewave_generator.py:42-44 | the phase array has one phase per frequency, so `frames` phases per block |
| Phase.PhaseStep | pysinewave/sinewave_generator.py:44 | the first phase is the previous phase plus freq[0]·delta_time, and each later phase is the one before plus freq[i]·delta_time |
| Phase.PhaseFirst | pysinewave/sinewave_generator.py:44 | the first phase of a block is the previous phase plus freq[0]·delta_time |
| Phase.PhaseNext | pysinewave/sinewave_generator.py:44 | each later phase is the one before plus that frame's freq·delta_time |
| Phase.PhaseIncreasing | pysinewave/sinewave_generator.py:44 | with positive frequencies and a positive delta_time, every phase exceeds the previous phase and the array is strictly increasing |
| Phase.SumAppend | pysinewave/sinewave_generator.py:44 | the sum of two concatenated runs is the sum of their sums |
| Phase.PhaseArraySplit | pysinewave/sinewave_generator.py:44 | the phases of two runs of frequencies taken together are the phases of the first run followed by the phases of the second, resumed from the first run's last phase |
| Phase.PhaseResumed | pysinewave/sinewave_generator.py:44 | the phases of a second run started from any phase q, shifted by the first run's last phase minus q, continue the first run's phases exactly |
| Phase.PhaseSteady | pysinewave/sinewave_generator.py:44 | at a constant frequency g, phase i is the previous phase plus (i + 1)·g·delta_time |
| Phase.PhaseAdvanceBound | pysinewave/sinewave_generator.py:44 | with frequencies in [0, m], a block advances the phase by between 0 and frames·m·delta_time |
| Phase.Wrap | pysinewave/sinewave_generator.py:89-91 | the reduction takes off exactly one cutoff from a phase past the cutoff and nothing from any other phase; with a positive cutoff a phase past it becomes a smaller positive phase |
| Phase.WrapBounds | pysinewave/sinewave_generator.py:89-91 | the reduced phase is non-negative, and it is at most the cutoff when the phase before the block and the block's advance are each at most the cutoff |
| Phase.PhaseWrapBounded | pysinewave/sinewave_generator.py:89-91 | if a block's bounded frequencies advance the phase by at most the cutoff, a phase in [0, cutoff] is again in [0, cutoff] after the reduction |
| Block.Synthesize | pysinewave/sinewave_generator.py:82 | the sinewave array has one sample per amplitude |
| Block.SynthesizeSilent | pysinewave/sinewave_generator.py:82 | a sample whose amplitude is 0 is 0 whatever the waveform |
| Block.Render | pysinewave/sinewave_generator.py:69-82 | a block of `frames` frames has `frames` frequencies, phases, amplitudes and samples |
| Block.NextVoice | pysinewave/sinewave_generator.py:84-91 | next_data leaves the goals and the waveform as they were |
| Block.BlockTimes | pysinewave/sinewave_generator.py:69-70 | a block's times are non-negative and in order, and delta_time is the positive 1 / samplerate |
| Block.RenderParts | pysinewave/sinewave_generator.py:69-82 | a block's frequencies are the pitch glide of its times; its phases are the running phase of those frequencies at 1 / samplerate; its amplitudes are the loudness glide with the mute floor; its samples are the amplitudes times the waveform of the phases |
| Block.RenderFrom | pysinewave/sinewave_generator.py:69-91 | from the time array, the frequency, phase and amplitude arrays computed the way next_data computes them, the block is those arrays with their samples, and the stored state is their last entries, the amplitude raised to the cutoff and the phase reduced |
| Block.BlockFrequenciesGlide | pysinewave/sinewave_generator.py:73 | every frequency of a block is positive and lies between the block-start frequency and the goal, and every later frequency lies between an earlier one and the goal |
| Block.BlockAtGoal | pysinewave/sinewave_generator.py:28-31 | a block that starts at the goal frequency has every frequency equal to the goal |
| Block.BlockSteadyTone | pysinewave/sinewave_generator.py:28-31 | at the goal frequency, the whole block is at the goal, phase i is the previous phase plus (i + 1)·goal / samplerate, and the stored frequency stays at the goal |
| Block.BlockPhasesSteady | pysinewave/sinewave_generator.py:44 | at the goal frequency, phase i of the block is the previous phase plus (i + 1)·goal / samplerate |
| Block.NextVoiceAtRest | pysinewave/sinewave_generator.py:85 | a call that starts at the goal frequency stores the goal frequency |
| Block.BlockAmplitudes | pysinewave/sinewave_generator.py:79-86 | for any loudness rate, emitted amplitudes are 0 exactly where the glide is at or below the cutoff and equal the glide elsewhere, muted samples are silent, and the stored amplitude is never below the cutoff (the cutoff when the last amplitude was muted, the last amplitude otherwise); with a non-negative rate kept amplitudes also lie between the start and the goal |
| Block.BlockPhaseContinuous | pysinewave/sinewave_generator.py:89-91 | the reduction takes off exactly one cutoff when the last phase exceeds it and nothing otherwise; a block's phases followed by the next block's phases, with that reduction added back, are the running phase of both blocks' frequencies together |
| Block.NextVoicePreservesValid | pysinewave/sinewave_generator.py:85-91 | for any goals and any sign of the rates, the stored frequency and amplitude stay positive and the stored phase stays non-negative |
| Block.BlockFrequenciesBelow | pysinewave/sinewave_generator.py:73 | every frequency of a block is positive and at most the larger of the block-start and goal frequencies |
| Block.NextVoicePhaseBounded | pysinewave/sinewave_generator.py:89-91 | for any rates, if the phase before the call was in [0, cutoff] and the block advanced it by at most one cutoff, the stored phase is again in [0, cutoff] |
| Block.StoredFrequency | pysinewave/sinewave_generator.py:85 | the stored frequency is the glide sample at the block's last time, (frames - 1) / samplerate |
| Block.NextVoiceReachesGoal | pysinewave/sinewave_generator.py:85 | the stored frequency equals the goal exactly when the unclamped glide at the block's last time has reached or passed the goal |
| Block.NextVoiceApproachesGoal | pysinewave/sinewave_generator.py:85 | the stored frequency lies between the block-start frequency and the goal |
| Convergence.Iterate | pysinewave/sinewave_generator.py:65-91 | repeated calls of next_data keep the goals and the waveform |
| Convergence.BlockRatioBounds | pysinewave/sinewave_generator.py:28-31 | with a positive pitch rate and at least two frames, one block scales an upward glide by a factor above 1 and a downward glide by a positive factor below 1 |
| Convergence.GlideSampleStep | pysinewave/sinewave_generator.py:28-31 | a glide sample is one step of the recurrence: below the goal, the start scaled up and capped at the goal; above it, scaled down and floored at the goal; at the goal, the goal |
| Convergence.IterateFrequency | pysinewave/sinewave_generator.py:65-91 | after k calls of next_data the stored frequency is k steps of that recurrence from the starting frequency, with the two block ratios |
| Convergence.ReachesUp | pysinewave/sinewave_generator.py:28-31 | an upward glide from a frequency of at least f0 > 0 reaches its goal within n blocks when n rises of f0·(ratio - 1) cover the distance |
| Convergence.ReachesDown | pysinewave/sinewave_generator.py:28-31 | a downward glide to a positive goal reaches it within n blocks when n falls of goal·(1 - ratio) cover the distance |
| Convergence.StaysAtGoal | pysinewave/sinewave_generator.py:28-31 | once the stored frequency is at the goal, every later block keeps it there |
| Convergence.GlideReachesGoal | pysinewave/sinewave_generator.py:65-91 | with a positive pitch rate and positive start and goal frequencies, there is a block count after which every further call of next_data leaves the stored frequency at the goal |
| Generator.SineWaveGenerator.constructor | pysinewave/sinewave_generator.py:11-24 | the generator starts at rest: the goals equal the current frequency and amplitude, the phase is 0, the settings are the arguments, the mute threshold is the amplitude ratio of db_cutoff, and the class invariant holds |
| Generator.SineWaveGenerator.SetFrequency | pysinewave/sinewave_generator.py:46-48 | only the goal frequency changes, to the argument; the invariant is kept |
| Generator.SineWaveGenerator.SetPitch | pysinewave/sinewave_generator.py:50-52 | only the goal frequency changes, to the frequency of the pitch; the invariant is kept |
| Generator.SineWaveGenerator.SetAmplitude | pysinewave/sinewave_generator.py:54-56 | only the goal amplitude changes, to the argument; the invariant is kept |
| Generator.SineWaveGenerator.SetWaveform | pysinewave/sinewave_generator.py:58-59 | only the waveform changes; the invariant is kept |
| Generator.SineWaveGenerator.SetDecibels | pysinewave/sinewave_generator.py:61-63 | only the goal amplitude changes, to the amplitude ratio of the decibels; the invariant is kept |
| Generator.SineWaveGenerator.NewAmplitudeArray | pysinewave/sinewave_generator.py:33-40 | the in-place zeroing loop yields exactly the loudness glide with the mute floor, whose properties Glide.AmplitudeMuteFloor states |
| Generator.SineWaveGenerator.NextData | pysinewave/sinewave_generator.py:65-95 | with fewer than two frames the call fails with IndexError and changes nothing; otherwise it returns the rendered block's samples and leaves exactly the state NextVoice describes; the class invariant is kept |

## Left out

- `pysinewave/sinewave.py` is not part of this model. It is glue: an audio output stream, a callback running on another thread, status messages on stderr, reshaping into channels, and setters that only forward to the generator.
- Floating point is not modelled. Arithmetic is on `real`, `np.pi` is the decimal 3.141592653589793, and `np.cumsum` is an exact prefix sum. Nothing is claimed about rounding, or about wrapped and unwrapped phases giving bit-equal samples.
- `pysinewave/utilities.py` is not part of this model. Its two ratio conversions and the reference frequency are parameters, of which only `RatioLaw` is assumed. The 2^(p/12) and 10^(dB/20) laws themselves are not proved.
- The waveform is an uninterpreted `real -> real` function. Nothing about `np.sin` is used.
- Thread safety between the goal setters and an audio callback is not modelled. The source has no locking.
- The commented-out debug print after the phase update is not modelled.
- Generator.SineWaveGenerator.constructor: the samplerate and waveform arguments have no defaults. The default sample rate is a constant of `pysinewave/utilities.py`, and `np.sin` is an external function. The conversions, samplerate and waveform come first in the argument list because they have no defaults.
- Generator.SineWaveGenerator.constructor: requires lawful conversions and a positive sample rate, which the source does not check. With a zero sample rate the time array of a block cannot be formed.
- Generator.SineWaveGenerator.NextData: requires the class invariant that the constructor establishes and every method keeps. A frame count below two, including a negative one, is modelled as the IndexError that reading the second time raises. That assumes `frames_to_time_array` returns fewer than two times for such a count.
- Integer-valued defaults and arguments (pitch_per_second=12, phase_cutoff=2000000000, the initial phase 0) are reals. Numpy array types are sequences.
- Glide.GlideTowardGoal: stated for a non-negative rate only. With a negative rate the glide moves away from the goal, and the source makes no promise for that case. GlidePositive covers every rate.
- Block.BlockFrequenciesGlide, Block.BlockFrequenciesBelow, Block.NextVoiceApproachesGoal: stated for a non-negative pitch rate only, for the same reason.
- Block.BlockAmplitudes, Glide.AmplitudeMuteFloor: only the clause placing kept amplitudes between the start and the goal assumes a non-negative decibel rate, for the same reason. The mute floor, the silence of muted samples and the stored-amplitude floor hold for every rate.
- Convergence.GlideReachesGoal: stated for calls with one fixed frame count of at least two, a positive pitch rate and positive start and goal frequencies. The audio callback may ask for a different frame count each time; a frame count that varies per call is not modelled. No bound on the number of blocks is given beyond its existence.
