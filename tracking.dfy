/** The per-sample loop of work() as functions: one iteration is `Step`,
    the first k iterations of a call are `Run`.  The state threaded through
    the iterations holds the output buffer, the loop's frequency and phase,
    and the three diagnostic streams written so far. */
module Tracking {
  import opened Numerics

  /** What the loop reads from the block and never changes: both tap vectors,
      the gains and the frequency limits. */
  datatype LoopParams = LoopParams(
    lower: seq<Complex>, upper: seq<Complex>,
    alpha: real, beta: real,
    minFreq: real, maxFreq: real)
  {
    predicate WellFormed()
    {
      |lower| == |upper| && |lower| > 0
    }
  }

  datatype LoopState = LoopState(
    out: seq<Complex>,
    freq: real, phase: real,
    frq: seq<real>, phs: seq<real>, err: seq<real>)

  /** The band-edge error: |lower . window|^2 - |upper . window|^2. */
  function Discriminator(p: LoopParams, window: seq<Complex>): real
    requires |window| == |p.lower| == |p.upper|
  {
    Norm(Dot(p.lower, window)) - Norm(Dot(p.upper, window))
  }

  /** The requirement of iteration i on the input and the output buffer. */
  predicate StepFits(p: LoopParams, input: seq<Complex>, s: LoopState, i: int)
  {
    p.WellFormed() && 0 <= i < |input| && i + |p.lower| <= |s.out|
  }

  /** The output buffer once iteration i has stored the derotated sample
      input[i] * expj(phase) at out[i + filter_size - 1]. */
  function Derotated(p: LoopParams, m: Libm, input: seq<Complex>, s: LoopState, i: int): (out: seq<Complex>)
    requires StepFits(p, input, s, i)
    ensures |out| == |s.out|
  {
    s.out[i + |p.lower| - 1 := Mul(input[i], Expj(m, s.phase))]
  }

  /** The error of iteration i, from the window out[i .. i + filter_size - 1]. */
  function StepError(p: LoopParams, m: Libm, input: seq<Complex>, s: LoopState, i: int): real
    requires StepFits(p, input, s, i)
  {
    Discriminator(p, Derotated(p, m, input, s, i)[i..i + |p.lower|])
  }

  /** d_freq + d_beta * error. */
  function AdvanceFreq(freq: real, beta: real, error: real): real
  {
    freq + beta * error
  }

  /** d_phase + d_freq + d_alpha * error; freq is the advanced frequency. */
  function AdvancePhase(phase: real, freq: real, alpha: real, error: real): real
  {
    phase + freq + alpha * error
  }

  /** Iteration i: derotate input[i] into out[i + filter_size - 1], correlate
      out[i .. i + filter_size - 1] with both filters, advance the frequency,
      advance the phase by the advanced (not yet clamped) frequency, wrap the
      phase, clamp the frequency and record all three. */
  function Step(p: LoopParams, m: Libm, input: seq<Complex>, s: LoopState, i: int): (t: LoopState)
    requires StepFits(p, input, s, i)
    ensures |t.out| == |s.out|
    ensures t.frq == s.frq + [t.freq] && t.phs == s.phs + [t.phase]
    ensures t.err == s.err + [StepError(p, m, input, s, i)]
    ensures p.minFreq <= p.maxFreq ==> p.minFreq <= t.freq <= p.maxFreq
  {
    var error := StepError(p, m, input, s, i);
    var freq := AdvanceFreq(s.freq, p.beta, error);
    var phase := Wrap(AdvancePhase(s.phase, freq, p.alpha, error));
    var clamped := Clamp(freq, p.minFreq, p.maxFreq);
    LoopState(Derotated(p, m, input, s, i), clamped, phase,
              s.frq + [clamped], s.phs + [phase], s.err + [error])
  }

  /** The requirement of the first k iterations: k input samples and
      k + filter_size - 1 output slots. */
  predicate RunFits(p: LoopParams, input: seq<Complex>, s0: LoopState, k: nat)
  {
    p.WellFormed() && k <= |input| && (k == 0 || k + |p.lower| - 1 <= |s0.out|)
  }

  /** The state after the first k iterations of a call that starts in s0. */
  function Run(p: LoopParams, m: Libm, input: seq<Complex>, s0: LoopState, k: nat): (r: LoopState)
    requires RunFits(p, input, s0, k)
    ensures |r.out| == |s0.out|
    ensures |r.frq| == |s0.frq| + k && |r.phs| == |s0.phs| + k && |r.err| == |s0.err| + k
    ensures k > 0 && p.minFreq <= p.maxFreq ==> p.minFreq <= r.freq <= p.maxFreq
    decreases k
  {
    if k == 0 then s0
    else Step(p, m, input, Run(p, m, input, s0, k - 1), k - 1)
  }

  /** The first k + 1 iterations are the first k followed by iteration k. */
  lemma RunExtends(p: LoopParams, m: Libm, input: seq<Complex>, s0: LoopState, k: nat)
    requires RunFits(p, input, s0, k + 1)
    ensures RunFits(p, input, s0, k) && StepFits(p, input, Run(p, m, input, s0, k), k)
    ensures Run(p, m, input, s0, k + 1) == Step(p, m, input, Run(p, m, input, s0, k), k)
  {
  }

  /** Iteration i writes out[i + filter_size - 1] and nothing else in the
      output buffer; so after k iterations the slots filter_size - 1 ..
      k + filter_size - 2 hold the derotated inputs and every other slot
      holds what it held when the call began. */
  lemma {:induction false} RunWritesOneSlotPerIteration(
    p: LoopParams, m: Libm, input: seq<Complex>, s0: LoopState, k: nat, j: int)
    requires RunFits(p, input, s0, k) && 0 <= j < |s0.out|
    ensures var fs := |p.lower|;
      Run(p, m, input, s0, k).out[j] ==
        if fs - 1 <= j < k + fs - 1
        then Mul(input[j - fs + 1], Expj(m, Run(p, m, input, s0, j - fs + 1).phase))
        else s0.out[j]
    decreases k
  {
    if k > 0 {
      RunWritesOneSlotPerIteration(p, m, input, s0, k - 1, j);
    }
  }

  /** One iteration reads the output buffer only in its window
      out[i .. i + filter_size - 2] (the slot after it is the one it writes):
      two states that agree there, and on frequency and phase, step to the
      same frequency, phase and error. */
  lemma StepReadsOnlyItsWindow(
    p: LoopParams, m: Libm, input: seq<Complex>, s: LoopState, t: LoopState, i: int)
    requires StepFits(p, input, s, i) && StepFits(p, input, t, i)
    requires s.freq == t.freq && s.phase == t.phase
    requires s.out[i..i + |p.lower| - 1] == t.out[i..i + |p.lower| - 1]
    ensures StepError(p, m, input, s, i) == StepError(p, m, input, t, i)
    ensures Step(p, m, input, s, i).freq == Step(p, m, input, t, i).freq
    ensures Step(p, m, input, s, i).phase == Step(p, m, input, t, i).phase
  {
    var fs := |p.lower|;
    var a, b := Derotated(p, m, input, s, i), Derotated(p, m, input, t, i);
    assert a[i..i + fs] == b[i..i + fs] by {
      forall j | i <= j < i + fs ensures a[j] == b[j] {
        if j < i + fs - 1 {
          assert s.out[i..i + fs - 1][j - i] == t.out[i..i + fs - 1][j - i];
        }
      }
    }
  }

  /** The diagnostic streams of a call record, for each iteration i, the
      frequency and phase after that iteration and the error computed from
      that iteration's window. */
  lemma {:induction false} RunRecordsEachIteration(
    p: LoopParams, m: Libm, input: seq<Complex>, s0: LoopState, k: nat, i: nat)
    requires RunFits(p, input, s0, k) && s0.frq == [] && s0.phs == [] && s0.err == []
    requires i < k
    ensures var r, after := Run(p, m, input, s0, k), Run(p, m, input, s0, i + 1);
      r.frq[i] == after.freq && r.phs[i] == after.phase &&
      r.err[i] == Discriminator(p, after.out[i..i + |p.lower|])
    decreases k
  {
    var prev := Run(p, m, input, s0, k - 1);
    var r := Step(p, m, input, prev, k - 1);
    assert Run(p, m, input, s0, k) == r;
    if i < k - 1 {
      RunRecordsEachIteration(p, m, input, s0, k - 1, i);
      assert r.frq[i] == prev.frq[i] && r.phs[i] == prev.phs[i] && r.err[i] == prev.err[i];
    } else {
      assert r.err[i] == StepError(p, m, input, prev, i);
    }
  }
}
