/** The phase trajectory of one block (new_phase_array): the block-start
    phase plus the running sum (np.cumsum) of frequency * delta_time; and
    the once-only reduction next_data applies to the phase it stores. */
module Phase {
  import opened Utilities

  /** The sum of a sequence of reals, folded from the left. */
  function Sum(xs: seq<real>): real {
    if |xs| == 0 then 0.0 else Sum(xs[..|xs| - 1]) + xs[|xs| - 1]
  }

  /** np.cumsum: element i of the result is the sum of the first i + 1
      elements. */
  function CumSum(xs: seq<real>): (r: seq<real>)
    ensures |r| == |xs|
  {
    seq(|xs|, i requires 0 <= i < |xs| => Sum(xs[..i + 1]))
  }

  /** The running sum starts at the first element and then adds one element
      at a time. */
  lemma {:induction false} CumSumStep(xs: seq<real>)
    ensures var r := CumSum(xs);
      (0 < |xs| ==> r[0] == xs[0]) &&
      (forall i, j :: 0 <= i && j == i + 1 < |xs| ==> r[j] == r[i] + xs[j])
  {
    var r := CumSum(xs);
    if 0 < |xs| {
      assert xs[..1][..0] == [];
      assert r[0] == Sum(xs[..1]) == Sum(xs[..1][..0]) + xs[0];
    }
    forall i, j | 0 <= i && j == i + 1 < |xs|
      ensures r[j] == r[i] + xs[j]
    {
      var p := xs[..j + 1];
      assert p[..j] == xs[..i + 1];
      assert r[j] == Sum(p) == Sum(p[..j]) + p[j];
    }
  }

  /** The phase advance of each sample: its frequency times the sample period. */
  function Increments(freqs: seq<real>, dt: real): (r: seq<real>)
    ensures |r| == |freqs|
  {
    seq(|freqs|, i requires 0 <= i < |freqs| => freqs[i] * dt)
  }

  /** Every element of `xs` moved by `d`. */
  function Shifted(xs: seq<real>, d: real): (r: seq<real>)
    ensures |r| == |xs|
  {
    seq(|xs|, i requires 0 <= i < |xs| => xs[i] + d)
  }

  /** new_phase_array: the block-start phase plus the running sum of the
      phase advances. */
  function PhaseArray(phase: real, freqs: seq<real>, dt: real): (r: seq<real>)
    ensures |r| == |freqs|
  {
    Shifted(CumSum(Increments(freqs, dt)), phase)
  }

  /** The phase array advances sample by sample: the first element is one
      advance past the block-start phase, and each further element is the
      previous one plus that sample's frequency times delta_time. */
  lemma {:induction false} PhaseStep(phase: real, freqs: seq<real>, dt: real)
    ensures var r := PhaseArray(phase, freqs, dt);
      (0 < |r| ==> r[0] == phase + freqs[0] * dt) &&
      (forall i, j :: 0 <= i && j == i + 1 < |r| ==> r[j] == r[i] + freqs[j] * dt)
  {
    var r := PhaseArray(phase, freqs, dt);
    if 0 < |r| {
      PhaseFirst(phase, freqs, dt);
    }
    forall i, j | 0 <= i && j == i + 1 < |r|
      ensures r[j] == r[i] + freqs[j] * dt
    {
      PhaseNext(phase, freqs, dt, i);
    }
  }

  /** The first phase is one advance past the block-start phase. */
  lemma {:induction false} PhaseFirst(phase: real, freqs: seq<real>, dt: real)
    requires 0 < |freqs|
    ensures PhaseArray(phase, freqs, dt)[0] == phase + freqs[0] * dt
  {
    var inc := Increments(freqs, dt);
    var p := inc[..1];
    assert p[..0] == [];
    assert CumSum(inc)[0] == Sum(p) == Sum(p[..0]) + p[0];
  }

  /** Each later phase is one advance past the phase before it. */
  lemma {:induction false} PhaseNext(phase: real, freqs: seq<real>, dt: real, i: nat)
    requires i + 1 < |freqs|
    ensures PhaseArray(phase, freqs, dt)[i + 1] == PhaseArray(phase, freqs, dt)[i] + freqs[i + 1] * dt
  {
    var inc := Increments(freqs, dt);
    var c := CumSum(inc);
    var p := inc[..i + 2];
    assert p[..i + 1] == inc[..i + 1];
    assert c[i + 1] == Sum(p) == Sum(p[..i + 1]) + p[i + 1];
  }

  /** A sequence whose every element is below the next is strictly increasing. */
  lemma {:induction false} StepsIncrease(r: seq<real>, i: int, j: int)
    requires forall k, l :: 0 <= k && l == k + 1 < |r| ==> r[k] < r[l]
    requires 0 <= i < j < |r|
    ensures r[i] < r[j]
    decreases j - i
  {
    if i + 1 < j {
      StepsIncrease(r, i + 1, j);
    }
  }

  /** With positive frequencies and a positive sample period the phase array
      is strictly increasing, and every phase lies beyond the block-start
      phase. */
  lemma {:induction false} PhaseIncreasing(phase: real, freqs: seq<real>, dt: real)
    requires 0.0 < dt
    requires forall i :: 0 <= i < |freqs| ==> 0.0 < freqs[i]
    ensures var r := PhaseArray(phase, freqs, dt);
      (forall i :: 0 <= i < |r| ==> phase < r[i]) &&
      (forall i, j :: 0 <= i < j < |r| ==> r[i] < r[j])
  {
    PhaseStep(phase, freqs, dt);
    PositiveStepsIncrease(phase, PhaseArray(phase, freqs, dt), freqs, dt);
  }

  /** A sequence that starts one positive step past `start` and then keeps
      taking positive steps lies beyond `start` and is strictly increasing. */
  lemma {:induction false} PositiveStepsIncrease(start: real, r: seq<real>, freqs: seq<real>, dt: real)
    requires 0.0 < dt && |r| == |freqs|
    requires forall i :: 0 <= i < |freqs| ==> 0.0 < freqs[i]
    requires 0 < |r| ==> r[0] == start + freqs[0] * dt
    requires forall i, j :: 0 <= i && j == i + 1 < |r| ==> r[j] == r[i] + freqs[j] * dt
    ensures forall i :: 0 <= i < |r| ==> start < r[i]
    ensures forall i, j :: 0 <= i < j < |r| ==> r[i] < r[j]
  {
    forall k | 0 <= k < |r|
      ensures 0.0 < freqs[k] * dt
    {
      MulStrictlyMonotone(dt, 0.0, freqs[k]);
    }
    assert forall k, l :: 0 <= k && l == k + 1 < |r| ==> r[k] < r[l];
    forall i, j | 0 <= i < j < |r|
      ensures r[i] < r[j]
    {
      StepsIncrease(r, i, j);
    }
    forall i | 0 <= i < |r|
      ensures start < r[i]
    {
      if 0 < i {
        StepsIncrease(r, 0, i);
      }
    }
  }

  /** The sum of a concatenation is the sum of the parts. */
  lemma {:induction false} SumAppend(a: seq<real>, b: seq<real>)
    ensures Sum(a + b) == Sum(a) + Sum(b)
    decreases |b|
  {
    if b == [] {
      assert a + b == a;
    } else {
      var b' := b[..|b| - 1];
      assert (a + b)[..|a + b| - 1] == a + b';
      assert Sum(a + b) == Sum(a + b') + b[|b| - 1];
      SumAppend(a, b');
    }
  }

  /** The phase advances of two blocks are those of their concatenation. */
  lemma {:induction false} IncrementsAppend(f1: seq<real>, f2: seq<real>, dt: real)
    ensures Increments(f1 + f2, dt) == Increments(f1, dt) + Increments(f2, dt)
  {
    var whole, parts := Increments(f1 + f2, dt), Increments(f1, dt) + Increments(f2, dt);
    forall i | 0 <= i < |whole|
      ensures whole[i] == parts[i]
    {
      if i < |f1| {
        assert (f1 + f2)[i] == f1[i];
      } else {
        assert (f1 + f2)[i] == f2[i - |f1|];
      }
    }
  }

  /** Phase continuity across blocks: accumulating the frequencies of two
      consecutive blocks in one go gives the phases of the first block
      followed by the phases of the second block started from the first
      block's last phase. */
  lemma {:induction false} PhaseArraySplit(phase: real, f1: seq<real>, f2: seq<real>, dt: real)
    requires 0 < |f1|
    ensures var p1 := PhaseArray(phase, f1, dt);
      PhaseArray(phase, f1 + f2, dt) == p1 + PhaseArray(p1[|p1| - 1], f2, dt)
  {
    var inc1, inc2 := Increments(f1, dt), Increments(f2, dt);
    IncrementsAppend(f1, f2, dt);
    var inc := inc1 + inc2;
    var p1 := PhaseArray(phase, f1, dt);
    var whole := PhaseArray(phase, f1 + f2, dt);
    var rest := PhaseArray(p1[|p1| - 1], f2, dt);
    assert inc1[..|inc1|] == inc1;
    forall i | 0 <= i < |whole|
      ensures whole[i] == (p1 + rest)[i]
    {
      if i < |f1| {
        assert inc[..i + 1] == inc1[..i + 1];
      } else {
        var k := i - |f1|;
        assert inc[..i + 1] == inc1 + inc2[..k + 1];
        SumAppend(inc1, inc2[..k + 1]);
      }
    }
  }

  /** Continuity when the second block resumes from a phase q other than the
      first block's last phase: shifted back by the difference, its phases
      continue the running phase of both blocks' frequencies together. */
  lemma {:induction false} PhaseResumed(phase: real, f1: seq<real>, f2: seq<real>, dt: real, q: real)
    requires 0 < |f1|
    ensures var p1 := PhaseArray(phase, f1, dt);
      p1 + Shifted(PhaseArray(q, f2, dt), p1[|p1| - 1] - q) == PhaseArray(phase, f1 + f2, dt)
  {
    var p1 := PhaseArray(phase, f1, dt);
    PhaseArraySplit(phase, f1, f2, dt);
    assert Shifted(PhaseArray(q, f2, dt), p1[|p1| - 1] - q) == PhaseArray(p1[|p1| - 1], f2, dt);
  }

  /** The sum of n copies of c is n * c. */
  lemma {:induction false} SumConstant(xs: seq<real>, c: real)
    requires forall i :: 0 <= i < |xs| ==> xs[i] == c
    ensures Sum(xs) == |xs| as real * c
  {
    if xs != [] {
      SumConstant(xs[..|xs| - 1], c);
      MulSucc(|xs| - 1, c);
    }
  }

  /** At a constant frequency g the phase advances by g * dt per sample:
      element i is the block-start phase plus (i + 1) * g * dt. */
  lemma {:induction false} PhaseSteady(phase: real, freqs: seq<real>, dt: real, g: real)
    requires forall i :: 0 <= i < |freqs| ==> freqs[i] == g
    ensures var r := PhaseArray(phase, freqs, dt);
      forall i :: 0 <= i < |r| ==> r[i] == phase + (i + 1) as real * (g * dt)
  {
    var inc := Increments(freqs, dt);
    var r := PhaseArray(phase, freqs, dt);
    forall i | 0 <= i < |r|
      ensures r[i] == phase + (i + 1) as real * (g * dt)
    {
      var prefix := inc[..i + 1];
      assert |prefix| == i + 1;
      SumConstant(prefix, g * dt);
      assert r[i] == phase + Sum(prefix);
    }
  }

  /** The sum of n numbers each at most m is at most n * m, and the sum of
      non-negative numbers is non-negative. */
  lemma {:induction false} SumBounds(xs: seq<real>, m: real)
    requires forall i :: 0 <= i < |xs| ==> 0.0 <= xs[i] <= m
    ensures 0.0 <= Sum(xs) <= |xs| as real * m
  {
    if xs != [] {
      SumBounds(xs[..|xs| - 1], m);
      MulSucc(|xs| - 1, m);
    }
  }

  /** Each phase advance of frequencies in [0, m] lies in [0, m * dt]. */
  lemma {:induction false} IncrementBounds(freqs: seq<real>, dt: real, m: real)
    requires 0.0 < dt
    requires forall i :: 0 <= i < |freqs| ==> 0.0 <= freqs[i] <= m
    ensures var inc := Increments(freqs, dt);
      forall i :: 0 <= i < |inc| ==> 0.0 <= inc[i] <= m * dt
  {
    forall i | 0 <= i < |freqs|
      ensures 0.0 <= freqs[i] * dt <= m * dt
    {
      ScaleBounds(freqs[i], m, dt);
    }
  }

  /** The phase advance of a whole block: the last phase lies at least the
      block-start phase and at most n * m * dt beyond it, when its n
      frequencies are non-negative and at most m. */
  lemma {:induction false} PhaseAdvanceBound(phase: real, freqs: seq<real>, dt: real, m: real)
    requires 0 < |freqs| && 0.0 < dt
    requires forall i :: 0 <= i < |freqs| ==> 0.0 <= freqs[i] <= m
    ensures var r := PhaseArray(phase, freqs, dt);
      phase <= r[|r| - 1] <= phase + |freqs| as real * (m * dt)
  {
    var inc := Increments(freqs, dt);
    IncrementBounds(freqs, dt, m);
    SumBounds(inc, m * dt);
    var r := PhaseArray(phase, freqs, dt);
    assert inc[..|inc|] == inc;
    assert r[|r| - 1] == phase + Sum(inc);
  }

  /** The once-only phase reduction: a phase past the cutoff loses exactly
      one cutoff and any other phase is kept; with a positive cutoff, a phase
      past it becomes a smaller positive phase. */
  function Wrap(phase: real, cutoff: real): (r: real)
    ensures phase - r == (if cutoff < phase then cutoff else 0.0)
    ensures 0.0 < cutoff < phase ==> 0.0 < r < phase
  {
    if phase > cutoff then phase - cutoff else phase
  }

  /** The reduction keeps a non-negative phase non-negative, and brings a
      phase that had at most one cutoff to go before it, advanced by at most
      one cutoff, back to at most one cutoff. */
  lemma {:induction false} WrapBounds(phase: real, advance: real, cutoff: real)
    requires 0.0 <= phase && 0.0 <= advance
    ensures 0.0 <= Wrap(phase + advance, cutoff)
    ensures phase <= cutoff && advance <= cutoff ==> Wrap(phase + advance, cutoff) <= cutoff
  {
  }

  /** The bounded phase wrap for a block: if the block-start phase is within
      [0, cutoff] and the n frequencies are non-negative and at most m, with
      n * m * dt at most one cutoff, the reduced last phase is again within
      [0, cutoff]. */
  lemma {:induction false} PhaseWrapBounded(phase: real, freqs: seq<real>, dt: real, m: real, cutoff: real)
    requires 0 < |freqs| && 0.0 < dt && 0.0 <= phase <= cutoff
    requires forall i :: 0 <= i < |freqs| ==> 0.0 <= freqs[i] <= m
    requires |freqs| as real * (m * dt) <= cutoff
    ensures var r := PhaseArray(phase, freqs, dt);
      0.0 <= Wrap(r[|r| - 1], cutoff) <= cutoff
  {
    var r := PhaseArray(phase, freqs, dt);
    PhaseAdvanceBound(phase, freqs, dt, m);
    WrapBounds(phase, r[|r| - 1] - phase, cutoff);
  }
}
