/** The SineWaveGenerator class of pysinewave/sinewave_generator.py: a small
    state machine whose goal setters only write goals and whose next_data
    renders one block, gliding frequency and amplitude toward the goals,
    and stores where the block ended. */
module Generator {
  import opened Utilities
  import opened Glide
  import opened Phase
  import opened Block

  /** What next_data returns: the samples of the block, or the IndexError
      raised by reading the second entry of a time array that has fewer than
      two entries. */
  datatype Output = Samples(data: seq<real>) | IndexError

  class SineWaveGenerator {
    const conv: Conversions
    const pitchPerSecond: real
    const decibelsPerSecond: real
    const samplerate: int
    const phaseCutoff: real
    const amplitudeCutoff: real

    var frequency: real
    var amplitude: real
    var phase: real
    var goalFrequency: real
    var goalAmplitude: real
    var waveform: real -> real

    /** The settings fixed at construction. */
    function Config(): Settings {
      Settings(conv, pitchPerSecond, decibelsPerSecond, samplerate, phaseCutoff, amplitudeCutoff)
    }

    /** The fields next_data reads and writes. */
    function State(): Voice
      reads this
    {
      Voice(frequency, amplitude, phase, goalFrequency, goalAmplitude, waveform)
    }

    /** The class invariant: lawful conversions, a positive sample rate and
      mute threshold, positive frequency and amplitude, non-negative phase. */
    ghost predicate Valid()
      reads this
    {
      ValidSettings(Config()) && ValidVoice(State())
    }

    /** __init__: the generator starts at rest at the given pitch and
        loudness, with phase 0 and the goals equal to the current values. */
    constructor(conv: Conversions, samplerate: int, waveform: real -> real, pitch: real,
                pitchPerSecond: real := 12.0, decibels: real := 1.0, decibelsPerSecond: real := 1.0,
                phaseCutoff: real := 2000000000.0, dbCutoff: real := -100.0)
      requires Lawful(conv) && 0 < samplerate
      ensures Valid()
      ensures frequency == PitchToFrequency(conv, pitch) && amplitude == conv.decibelRatio(decibels)
      ensures phase == 0.0 && goalFrequency == frequency && goalAmplitude == amplitude
      ensures this.waveform == waveform && amplitudeCutoff == conv.decibelRatio(dbCutoff)
      ensures Config() == Settings(conv, pitchPerSecond, decibelsPerSecond, samplerate, phaseCutoff, amplitudeCutoff)
    {
      this.conv := conv;
      this.frequency := PitchToFrequency(conv, pitch);
      this.phase := 0.0;
      this.amplitude := conv.decibelRatio(decibels);
      this.pitchPerSecond := pitchPerSecond;
      this.decibelsPerSecond := decibelsPerSecond;
      this.goalFrequency := PitchToFrequency(conv, pitch);
      this.goalAmplitude := conv.decibelRatio(decibels);
      this.samplerate := samplerate;
      this.waveform := waveform;
      this.phaseCutoff := phaseCutoff;
      this.amplitudeCutoff := conv.decibelRatio(dbCutoff);
      PitchToFrequencyLaw(conv, pitch, pitch);
    }

    /** set_frequency: only the goal frequency changes. */
    method SetFrequency(frequency: real)
      modifies this`goalFrequency
      ensures State() == old(State()).(goalFrequency := frequency)
      ensures old(Valid()) ==> Valid()
    {
      goalFrequency := frequency;
    }

    /** set_pitch: only the goal frequency changes, to the frequency of the pitch. */
    method SetPitch(pitch: real)
      modifies this`goalFrequency
      ensures State() == old(State()).(goalFrequency := PitchToFrequency(conv, pitch))
      ensures old(Valid()) ==> Valid()
    {
      goalFrequency := PitchToFrequency(conv, pitch);
    }

    /** set_amplitude: only the goal amplitude changes. */
    method SetAmplitude(amplitude: real)
      modifies this`goalAmplitude
      ensures State() == old(State()).(goalAmplitude := amplitude)
      ensures old(Valid()) ==> Valid()
    {
      goalAmplitude := amplitude;
    }

    /** set_decibels: only the goal amplitude changes, to the amplitude ratio
        of the decibels. */
    method SetDecibels(decibels: real)
      modifies this`goalAmplitude
      ensures State() == old(State()).(goalAmplitude := conv.decibelRatio(decibels))
      ensures old(Valid()) ==> Valid()
    {
      goalAmplitude := conv.decibelRatio(decibels);
    }

    /** set_waveform: only the waveform changes. */
    method SetWaveform(waveform: real -> real)
      modifies this`waveform
      ensures State() == old(State()).(waveform := waveform)
      ensures old(Valid()) ==> Valid()
    {
      this.waveform := waveform;
    }

    /** new_amplitude_array: the loudness glide of the block, then every
        entry at or below the cutoff overwritten with 0, one entry at a time. */
    method NewAmplitudeArray(times: seq<real>) returns (amps: seq<real>)
      ensures amps == AmplitudeArray(conv, amplitude, goalAmplitude, decibelsPerSecond, amplitudeCutoff, times)
    {
      amps := GlideArray(conv.decibelRatio, amplitude, goalAmplitude, decibelsPerSecond, times);
      ghost var glide := amps;
      var i := 0;
      while i < |amps|
        invariant 0 <= i <= |amps| == |glide|
        invariant forall k :: 0 <= k < i ==> amps[k] == MuteFloor(glide, amplitudeCutoff)[k]
        invariant forall k :: i <= k < |amps| ==> amps[k] == glide[k]
      {
        if amps[i] <= amplitudeCutoff {
          amps := amps[i := 0.0];
        }
        i := i + 1;
      }
    }

    /** next_data: with fewer than two frames the call fails before touching
        the state; otherwise it returns the block's samples and stores the
        last frequency, the last amplitude raised to the cutoff, and the last
        phase reduced once by the phase cutoff. The invariant is kept. */
    method NextData(frames: int) returns (out: Output)
      requires Valid()
      modifies this`frequency, this`amplitude, this`phase
      ensures Valid()
      ensures frames < 2 ==> out == IndexError && State() == old(State())
      ensures 2 <= frames ==>
        out == Samples(Render(Config(), old(State()), frames).samples) &&
        State() == NextVoice(Config(), old(State()), frames)
    {
      if frames < 2 {
        return IndexError;
      }
      ghost var v := State();
      var times := FramesToTimeArray(0, frames, samplerate);
      var deltaTime := times[1] - times[0];
      var newFrequencies := FrequencyArray(conv, frequency, goalFrequency, pitchPerSecond, times);
      var newPhases := PhaseArray(phase, newFrequencies, deltaTime);
      var newAmplitudes := NewAmplitudeArray(times);
      var samples := Synthesize(newAmplitudes, newPhases, waveform);
      RenderFrom(Config(), v, frames, times, newFrequencies, newPhases, newAmplitudes);

      frequency := newFrequencies[frames - 1];
      amplitude := Max(newAmplitudes[frames - 1], amplitudeCutoff);

      phase := newPhases[frames - 1];
      if phase > phaseCutoff {
        phase := phase - phaseCutoff;
      }
      out := Samples(samples);
      NextVoicePreservesValid(Config(), v, frames);
    }
  }
}
