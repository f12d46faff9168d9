/** The gr_fll_band_edge_cc block: its configuration, its validating setters,
    the redesign of the band-edge filters, and work(), which runs the
    frequency-locked loop over one block of samples.

    The object's fields are the block's members; setters and work() update
    them in place.  A setter or constructor that would throw
    std::out_of_range returns a `Fail` (or `Failure`) instead and changes
    nothing. */
module FllBandEdgeBlock {
  import opened Numerics
  import opened LoopGains
  import opened BandEdge
  import opened Tracking

  /** The range checks that throw std::out_of_range, one per parameter. */
  datatype ParamError =
    | InvalidSamplesPerSymbol
    | InvalidRolloff
    | InvalidFilterSize
    | InvalidBandwidth
    | InvalidDampingFactor
    | InvalidAlpha
    | InvalidBeta

  /** The outcome of a setter: it returned, or it threw. */
  datatype Outcome = Pass | Fail(error: ParamError)

  /** The outcome of construction: an object, or the exception thrown. */
  datatype Result<T> = Success(value: T) | Failure(error: ParamError)

  /** The constructor's checks in the order it makes them; the first one to
      fail is the exception thrown. */
  function ConstructorCheck(sps: real, rolloff: real, filterSize: int, bandwidth: real): (r: Outcome)
    ensures r == Pass <==> sps > 0.0 && 0.0 <= rolloff <= 1.0 && filterSize > 0 && bandwidth >= 0.0
    ensures r == Fail(InvalidSamplesPerSymbol) <==> sps <= 0.0
    ensures r == Fail(InvalidRolloff) <==> sps > 0.0 && (rolloff < 0.0 || rolloff > 1.0)
    ensures r == Fail(InvalidFilterSize) <==> sps > 0.0 && 0.0 <= rolloff <= 1.0 && filterSize <= 0
    ensures r == Fail(InvalidBandwidth) <==>
      sps > 0.0 && 0.0 <= rolloff <= 1.0 && filterSize > 0 && bandwidth < 0.0
  {
    if sps <= 0.0 then Fail(InvalidSamplesPerSymbol)
    else if rolloff < 0.0 || rolloff > 1.0 then Fail(InvalidRolloff)
    else if filterSize <= 0 then Fail(InvalidFilterSize)
    else if bandwidth < 0.0 then Fail(InvalidBandwidth)
    else Pass
  }

  /** 2 pi (2 / sps): the frequency limit, in radians per sample, fixed at
      construction.  It is 4 pi / sps, one sps-th of two full turns. */
  function FreqLimit(sps: real): (f: real)
    requires sps > 0.0
    ensures f > 0.0
    ensures f * sps == 2.0 * TwoPi
  {
    PositiveQuotient(2.0, sps);
    TwoPi * (2.0 / sps)
  }

  lemma PositiveQuotient(a: real, b: real)
    requires a > 0.0 && b > 0.0
    ensures a / b > 0.0
  {
    var q := a / b;
    assert q * b == a;
  }

  /** sqrt(2)/2, the critically damped default, is a damping factor the setter would accept. */
  lemma DefaultDampingInRange(m: Libm)
    requires m.Valid()
    ensures 0.0 <= m.sqrt(2.0) / 2.0 <= 1.0
  {
    var r := m.sqrt(2.0);
    assert 0.0 <= r && r * r == 2.0;
    if r > 2.0 {
      AboveTwoSquared(r);
    }
  }

  lemma AboveTwoSquared(r: real)
    requires r > 2.0
    ensures r * r > 4.0
  {
  }

  /** Overwriting the first untouched slot of a buffer whose first |log|
      slots hold a log extends the log by one. */
  lemma LogAppend(log: seq<real>, orig: seq<real>, x: real)
    requires |log| < |orig|
    ensures (log + orig[|log|..])[|log| := x] == (log + [x]) + orig[|log| + 1..]
  {
  }

  /** The three diagnostic outputs hold the recorded frequencies, phases
      and errors of a state, followed by their original contents. */
  ghost predicate Logged(aux: seq<array<real>>, s: LoopState, orig: seq<seq<real>>)
    reads if |aux| == 3 then {aux[0], aux[1], aux[2]} else {}
  {
    && |aux| == 3 && |orig| == 3
    && aux[0] != aux[1] && aux[1] != aux[2] && aux[0] != aux[2]
    && |s.frq| == |s.phs| == |s.err| <= |orig[0]|
    && |s.frq| <= |orig[1]| && |s.frq| <= |orig[2]|
    && aux[0][..] == s.frq + orig[0][|s.frq|..]
    && aux[1][..] == s.phs + orig[1][|s.phs|..]
    && aux[2][..] == s.err + orig[2][|s.err|..]
  }

  /** Storing the spec's element at k extends a suffix agreement by one slot. */
  lemma SuffixGrows<T>(before: seq<T>, spec: seq<T>, k: nat, x: T)
    requires k < |before| == |spec| && before[k + 1..] == spec[k + 1..] && spec[k] == x
    ensures before[k := x][k..] == spec[k..]
  {
    assert before[k := x][k..] == [x] + before[k + 1..];
    assert spec[k..] == [x] + spec[k + 1..];
  }

  /** Every member of the block, for stating what an operation changes. */
  datatype Fields = Fields(
    sps: real, rolloff: real, filterSize: int, loopBw: real, damping: real,
    alpha: real, beta: real, maxFreq: real, minFreq: real,
    freq: real, phase: real, updated: bool, history: int,
    tapsLower: array<Complex>, tapsUpper: array<Complex>)

  class FllBandEdge {
    /** The maths library the block calls (sin, cos, sqrt). */
    const libm: Libm

    var sps: real
    var rolloff: real
    var filterSize: int
    var loopBw: real
    var damping: real
    var alpha: real
    var beta: real
    var maxFreq: real
    var minFreq: real
    var freq: real
    var phase: real
    /** Set by every filter redesign; the next work() call clears it and produces nothing. */
    var updated: bool
    /** The history the block asks of the scheduler (set_history). */
    var history: int
    var tapsLower: array<Complex>
    var tapsUpper: array<Complex>

    ghost function Snapshot(): Fields
      reads this
    {
      Fields(sps, rolloff, filterSize, loopBw, damping, alpha, beta, maxFreq, minFreq,
             freq, phase, updated, history, tapsLower, tapsUpper)
    }

    /** What work() reads and does not change. */
    ghost function Params(): LoopParams
      reads this, tapsLower, tapsUpper
    {
      LoopParams(tapsLower[..], tapsUpper[..], alpha, beta, minFreq, maxFreq)
    }

    /** The object invariant: every parameter is in the range its setter
        admits, the gains are non-negative with alpha at most 1, the
        frequency lies within its limits, and both filters are the design
        for the current samples per symbol, rolloff and filter length. */
    ghost predicate Valid()
      reads this, tapsLower, tapsUpper
    {
      && sps > 0.0 && 0.0 <= rolloff <= 1.0 && filterSize > 0
      && loopBw >= 0.0 && 0.0 <= damping <= 1.0
      && 0.0 <= alpha <= 1.0 && 0.0 <= beta
      && maxFreq > 0.0 && minFreq == -maxFreq && minFreq <= freq <= maxFreq
      && history == filterSize + 1
      && tapsLower != tapsUpper
      && tapsUpper[..] == UpperTaps(libm, sps, rolloff, filterSize)
      && tapsLower[..] == LowerTaps(libm, sps, rolloff, filterSize)
    }

    /** The constructor once its checks have passed: the limits come from
        samps_per_sym, the damping is sqrt(2)/2, the gains come from the
        bandwidth, the filters are designed (which leaves the redesign flag
        set) and the loop starts at zero frequency and phase. */
    constructor (libm: Libm, sampsPerSym: real, rolloff: real, filterSize: int, bandwidth: real)
      requires libm.Valid()
      requires ConstructorCheck(sampsPerSym, rolloff, filterSize, bandwidth) == Pass
      ensures Valid() && this.libm == libm
      ensures fresh(tapsLower) && fresh(tapsUpper)
      ensures damping == libm.sqrt(2.0) / 2.0
      ensures Snapshot() == Fields(
        sampsPerSym, rolloff, filterSize, bandwidth, damping,
        CriticalGains(damping, bandwidth).alpha, CriticalGains(damping, bandwidth).beta,
        FreqLimit(sampsPerSym), -FreqLimit(sampsPerSym),
        0.0, 0.0, true, filterSize + 1, tapsLower, tapsUpper)
    {
      this.libm := libm;
      updated := false;
      sps := sampsPerSym;
      this.rolloff := rolloff;
      this.filterSize := filterSize;
      loopBw := bandwidth;
      maxFreq := FreqLimit(sampsPerSym);
      minFreq := -FreqLimit(sampsPerSym);
      damping := libm.sqrt(2.0) / 2.0;
      tapsLower := new Complex[0];
      tapsUpper := new Complex[0];
      new;
      DefaultDampingInRange(libm);
      // set_loop_bandwidth(bandwidth): its range check has already passed
      loopBw := bandwidth;
      UpdateGains();
      DesignFilter(sps, this.rolloff, this.filterSize);
      freq := 0.0;
      phase := 0.0;
      CriticalGainsBounds(damping, bandwidth);
    }

    /** The two stored filters are mirror images in frequency: every lower
        band-edge tap is the complex conjugate of the upper tap in its slot. */
    lemma TapsAreConjugates()
      requires Valid() && libm.Valid()
      ensures tapsLower.Length == tapsUpper.Length == filterSize
      ensures forall j :: 0 <= j < filterSize ==> tapsLower[j] == Conj(tapsUpper[j])
    {
      LowerIsConjugateOfUpper(libm, sps, rolloff, filterSize);
      forall j | 0 <= j < filterSize
        ensures tapsLower[j] == Conj(tapsUpper[j])
      {
        assert tapsLower[j] == tapsLower[..][j] && tapsUpper[j] == tapsUpper[..][j];
      }
    }

    /** The constructor with its checks: it throws the first failing check,
        and otherwise yields a new block in the state the constructor promises. */
    static method TryCreate(libm: Libm, sampsPerSym: real, rolloff: real, filterSize: int, bandwidth: real)
      returns (r: Result<FllBandEdge>)
      requires libm.Valid()
      ensures r.Failure? <==> ConstructorCheck(sampsPerSym, rolloff, filterSize, bandwidth) != Pass
      ensures r.Failure? ==> ConstructorCheck(sampsPerSym, rolloff, filterSize, bandwidth) == Fail(r.error)
      ensures r.Success? ==> fresh(r.value) && r.value.Valid()
      ensures r.Success? ==> r.value.libm == libm && r.value.damping == libm.sqrt(2.0) / 2.0
      ensures r.Success? ==> fresh(r.value.tapsLower) && fresh(r.value.tapsUpper)
      ensures r.Success? ==> r.value.Snapshot() == Fields(
        sampsPerSym, rolloff, filterSize, bandwidth, r.value.damping,
        CriticalGains(r.value.damping, bandwidth).alpha, CriticalGains(r.value.damping, bandwidth).beta,
        FreqLimit(sampsPerSym), -FreqLimit(sampsPerSym),
        0.0, 0.0, true, filterSize + 1, r.value.tapsLower, r.value.tapsUpper)
    {
      var check := ConstructorCheck(sampsPerSym, rolloff, filterSize, bandwidth);
      if check.Fail? {
        return Failure(check.error);
      }
      var b := new FllBandEdge(libm, sampsPerSym, rolloff, filterSize, bandwidth);
      r := Success(b);
    }

    /** update_gains: alpha and beta from the damping factor and the loop bandwidth. */
    method UpdateGains()
      requires 0.0 <= damping <= 1.0 && loopBw >= 0.0
      modifies this
      ensures Snapshot() == old(Snapshot()).(
        alpha := CriticalGains(old(damping), old(loopBw)).alpha,
        beta := CriticalGains(old(damping), old(loopBw)).beta)
    {
      var denom := Denominator(damping, loopBw);
      alpha := (4.0 * damping * loopBw) / denom;
      beta := (4.0 * loopBw * loopBw) / denom;
    }

    /** The first loop of design_filter: the baseband prototype and its power
        (the signed sum of its taps). */
    method BuildPrototype(sampsPerSym: real, rolloff: real, filterSize: int)
      returns (bbTaps: seq<real>, power: real)
      requires sampsPerSym > 0.0 && filterSize > 0
      ensures bbTaps == Prototype(libm, sampsPerSym, rolloff, filterSize)
      ensures power == Sum(bbTaps)
    {
      var half := HalfSpan(sampsPerSym, filterSize);
      ghost var proto := Prototype(libm, sampsPerSym, rolloff, filterSize);
      power := 0.0;
      bbTaps := [];
      for i := 0 to filterSize
        invariant bbTaps == proto[..i]
        invariant power == Sum(bbTaps)
      {
        var tap := PrototypeTap(libm, sampsPerSym, rolloff, half, i);
        power := power + tap;
        SumAppend(bbTaps, tap);
        bbTaps := bbTaps + [tap];
      }
      assert bbTaps == proto[..filterSize];
    }

    /** The second loop of design_filter: normalises design index i, turns it
        into a conjugate pair of band-edge coefficients and stores the pair at
        slot filter_size - 1 - i of two new arrays. */
    method BuildEdgeFilters(sampsPerSym: real, rolloff: real, filterSize: int, bbTaps: seq<real>, power: real)
      returns (lower: array<Complex>, upper: array<Complex>)
      requires sampsPerSym > 0.0 && filterSize > 0
      requires bbTaps == Prototype(libm, sampsPerSym, rolloff, filterSize) && power == Sum(bbTaps)
      ensures fresh(lower) && fresh(upper) && lower != upper
      ensures upper[..] == UpperTaps(libm, sampsPerSym, rolloff, filterSize)
      ensures lower[..] == LowerTaps(libm, sampsPerSym, rolloff, filterSize)
    {
      ghost var lowerSpec := LowerTaps(libm, sampsPerSym, rolloff, filterSize);
      ghost var upperSpec := UpperTaps(libm, sampsPerSym, rolloff, filterSize);
      lower := new Complex[filterSize];
      upper := new Complex[filterSize];
      for i := 0 to filterSize
        invariant lower[filterSize - i..] == lowerSpec[filterSize - i..]
        invariant upper[filterSize - i..] == upperSpec[filterSize - i..]
      {
        var tap := Quotient(bbTaps[i], power);
        var angle := EdgeAngle(sampsPerSym, rolloff, filterSize, i);
        var t1 := Scale(tap, Expj(libm, -angle));
        var t2 := Scale(tap, Expj(libm, angle));
        assert t1 == lowerSpec[filterSize - 1 - i] && t2 == upperSpec[filterSize - 1 - i] by {
          SlotOfDesignIndex(libm, sampsPerSym, rolloff, filterSize, i);
        }
        ghost var lowerBefore, upperBefore := lower[..], upper[..];
        lower[filterSize - i - 1] := t1;
        upper[filterSize - i - 1] := t2;
        SuffixGrows(lowerBefore, lowerSpec, filterSize - i - 1, t1);
        SuffixGrows(upperBefore, upperSpec, filterSize - i - 1, t2);
      }
      assert lower[..] == lower[0..];
      assert upper[..] == upper[0..];
    }

    /** design_filter: builds the baseband prototype, then both band-edge
        filters in reverse order, raises the redesign flag and asks for
        filter_size + 1 samples of history. */
    method DesignFilter(sampsPerSym: real, rolloff: real, filterSize: int)
      requires sampsPerSym > 0.0 && filterSize > 0
      modifies this
      ensures fresh(tapsLower) && fresh(tapsUpper) && tapsLower != tapsUpper
      ensures tapsUpper[..] == UpperTaps(libm, sampsPerSym, rolloff, filterSize)
      ensures tapsLower[..] == LowerTaps(libm, sampsPerSym, rolloff, filterSize)
      ensures Snapshot() == old(Snapshot()).(
        updated := true, history := filterSize + 1,
        tapsLower := tapsLower, tapsUpper := tapsUpper)
    {
      var bbTaps, power := BuildPrototype(sampsPerSym, rolloff, filterSize);
      var lower, upper := BuildEdgeFilters(sampsPerSym, rolloff, filterSize, bbTaps, power);
      tapsLower, tapsUpper := lower, upper;
      updated := true;
      history := filterSize + 1;
    }

    /** set_loop_bandwidth: rejects a negative bandwidth, otherwise stores it and re-derives the gains. */
    method SetLoopBandwidth(bw: real) returns (r: Outcome)
      requires Valid()
      modifies this
      ensures Valid()
      ensures r == (if bw < 0.0 then Fail(InvalidBandwidth) else Pass)
      ensures r.Fail? ==> Snapshot() == old(Snapshot())
      ensures r.Pass? ==> Snapshot() == old(Snapshot()).(
        loopBw := bw,
        alpha := CriticalGains(damping, bw).alpha,
        beta := CriticalGains(damping, bw).beta)
      ensures r.Pass? ==> GetLoopBandwidth() == bw
    {
      if bw < 0.0 {
        return Fail(InvalidBandwidth);
      }
      loopBw := bw;
      UpdateGains();
      CriticalGainsBounds(damping, bw);
      r := Pass;
    }

    /** set_damping_factor: rejects a factor outside [0,1], otherwise stores it and re-derives the gains. */
    method SetDampingFactor(df: real) returns (r: Outcome)
      requires Valid()
      modifies this
      ensures Valid()
      ensures r == (if df < 0.0 || df > 1.0 then Fail(InvalidDampingFactor) else Pass)
      ensures r.Fail? ==> Snapshot() == old(Snapshot())
      ensures r.Pass? ==> Snapshot() == old(Snapshot()).(
        damping := df,
        alpha := CriticalGains(df, loopBw).alpha,
        beta := CriticalGains(df, loopBw).beta)
      ensures r.Pass? ==> GetDampingFactor() == df
    {
      if df < 0.0 || df > 1.0 {
        return Fail(InvalidDampingFactor);
      }
      damping := df;
      UpdateGains();
      CriticalGainsBounds(df, loopBw);
      r := Pass;
    }

    /** set_alpha: rejects a gain outside [0,1], otherwise stores it as given. */
    method SetAlpha(a: real) returns (r: Outcome)
      requires Valid()
      modifies this
      ensures Valid()
      ensures r == (if a < 0.0 || a > 1.0 then Fail(InvalidAlpha) else Pass)
      ensures r.Fail? ==> Snapshot() == old(Snapshot())
      ensures r.Pass? ==> Snapshot() == old(Snapshot()).(alpha := a)
      ensures r.Pass? ==> GetAlpha() == a
    {
      if a < 0.0 || a > 1.0 {
        return Fail(InvalidAlpha);
      }
      alpha := a;
      r := Pass;
    }

    /** set_beta: rejects a gain outside [0,1], otherwise stores it as given. */
    method SetBeta(b: real) returns (r: Outcome)
      requires Valid()
      modifies this
      ensures Valid()
      ensures r == (if b < 0.0 || b > 1.0 then Fail(InvalidBeta) else Pass)
      ensures r.Fail? ==> Snapshot() == old(Snapshot())
      ensures r.Pass? ==> Snapshot() == old(Snapshot()).(beta := b)
      ensures r.Pass? ==> GetBeta() == b
    {
      if b < 0.0 || b > 1.0 {
        return Fail(InvalidBeta);
      }
      beta := b;
      r := Pass;
    }

    /** set_samples_per_symbol: rejects a non-positive value, otherwise stores
        it and redesigns the filters.  The frequency limits keep the values
        the constructor gave them. */
    method SetSamplesPerSymbol(x: real) returns (r: Outcome)
      requires Valid()
      modifies this
      ensures Valid()
      ensures r == (if x <= 0.0 then Fail(InvalidSamplesPerSymbol) else Pass)
      ensures r.Fail? ==> Snapshot() == old(Snapshot())
      ensures r.Pass? ==> fresh(tapsLower) && fresh(tapsUpper)
      ensures r.Pass? ==> Snapshot() == old(Snapshot()).(
        sps := x, updated := true, tapsLower := tapsLower, tapsUpper := tapsUpper)
      ensures r.Pass? ==> GetSamplesPerSymbol() == x
    {
      if x <= 0.0 {
        return Fail(InvalidSamplesPerSymbol);
      }
      sps := x;
      DesignFilter(sps, rolloff, filterSize);
      r := Pass;
    }

    /** set_rolloff: rejects a factor outside [0,1], otherwise stores it and redesigns the filters. */
    method SetRolloff(x: real) returns (r: Outcome)
      requires Valid()
      modifies this
      ensures Valid()
      ensures r == (if x < 0.0 || x > 1.0 then Fail(InvalidRolloff) else Pass)
      ensures r.Fail? ==> Snapshot() == old(Snapshot())
      ensures r.Pass? ==> fresh(tapsLower) && fresh(tapsUpper)
      ensures r.Pass? ==> Snapshot() == old(Snapshot()).(
        rolloff := x, updated := true, tapsLower := tapsLower, tapsUpper := tapsUpper)
      ensures r.Pass? ==> GetRolloff() == x
    {
      if x < 0.0 || x > 1.0 {
        return Fail(InvalidRolloff);
      }
      rolloff := x;
      DesignFilter(sps, rolloff, filterSize);
      r := Pass;
    }

    /** set_filter_size: rejects a non-positive length, otherwise stores it,
        redesigns the filters and asks for the matching history. */
    method SetFilterSize(n: int) returns (r: Outcome)
      requires Valid()
      modifies this
      ensures Valid()
      ensures r == (if n <= 0 then Fail(InvalidFilterSize) else Pass)
      ensures r.Fail? ==> Snapshot() == old(Snapshot())
      ensures r.Pass? ==> fresh(tapsLower) && fresh(tapsUpper)
      ensures r.Pass? ==> Snapshot() == old(Snapshot()).(
        filterSize := n, updated := true, history := n + 1,
        tapsLower := tapsLower, tapsUpper := tapsUpper)
      ensures r.Pass? ==> GetFilterSize() == n
    {
      if n <= 0 {
        return Fail(InvalidFilterSize);
      }
      filterSize := n;
      DesignFilter(sps, rolloff, filterSize);
      r := Pass;
    }

    function GetLoopBandwidth(): real
      reads this
    {
      loopBw
    }

    function GetDampingFactor(): real
      reads this
    {
      damping
    }

    function GetAlpha(): real
      reads this
    {
      alpha
    }

    function GetBeta(): real
      reads this
    {
      beta
    }

    function GetSamplesPerSymbol(): real
      reads this
    {
      sps
    }

    function GetRolloff(): real
      reads this
    {
      rolloff
    }

    function GetFilterSize(): int
      reads this
    {
      filterSize
    }

    /** The inner loop of work(): correlates out[i .. i + filter_size - 1]
        with both filters. */
    method Correlate(out: array<Complex>, i: int) returns (outUpper: Complex, outLower: Complex)
      requires tapsUpper.Length == filterSize && tapsLower.Length == filterSize
      requires 0 <= i && i + filterSize <= out.Length
      ensures outUpper == Dot(tapsUpper[..], out[i..i + filterSize])
      ensures outLower == Dot(tapsLower[..], out[i..i + filterSize])
    {
      outUpper, outLower := Zero, Zero;
      for k := 0 to filterSize
        invariant outUpper == Dot(tapsUpper[..k], out[i..i + k])
        invariant outLower == Dot(tapsLower[..k], out[i..i + k])
      {
        assert tapsUpper[..k + 1][..k] == tapsUpper[..k];
        assert tapsLower[..k + 1][..k] == tapsLower[..k];
        assert out[i..i + k + 1][..k] == out[i..i + k];
        outUpper := Add(outUpper, Mul(tapsUpper[k], out[i + k]));
        outLower := Add(outLower, Mul(tapsLower[k], out[i + k]));
      }
      assert tapsUpper[..filterSize] == tapsUpper[..];
      assert tapsLower[..filterSize] == tapsLower[..];
    }

    /** One iteration of work()'s loop: derotate input[i] into
        out[i + filter_size - 1], correlate the window, advance the frequency
        and the phase, wrap the phase and clamp the frequency.  It returns
        the error and leaves every other member as it was. */
    method Advance(input: seq<Complex>, out: array<Complex>, i: int, ghost p: LoopParams, ghost s: LoopState)
      returns (error: real)
      requires p == Params() && out != tapsLower && out != tapsUpper
      requires filterSize == |p.lower| && StepFits(p, input, s, i)
      requires s.out == out[..] && s.freq == freq && s.phase == phase
      modifies this`freq, this`phase, out
      ensures error == StepError(p, libm, input, s, i)
      ensures out[..] == Step(p, libm, input, s, i).out
      ensures freq == Step(p, libm, input, s, i).freq && phase == Step(p, libm, input, s, i).phase
    {
      var ncoOut := Expj(libm, phase);
      out[i + filterSize - 1] := Mul(input[i], ncoOut);
      assert out[..] == Derotated(p, libm, input, s, i);

      var outUpper, outLower := Correlate(out, i);
      error := Norm(outLower) - Norm(outUpper);

      freq := AdvanceFreq(freq, beta, error);
      phase := AdvancePhase(phase, freq, alpha, error);

      if phase > Pi {
        phase := phase - TwoPi;
      } else if phase < -Pi {
        phase := phase + TwoPi;
      }

      if freq > maxFreq {
        freq := maxFreq;
      } else if freq < minFreq {
        freq := minFreq;
      }
    }

    /** Writes the frequency, phase and error of sample i into the three
        diagnostic outputs. */
    static method Record(aux: seq<array<real>>, i: int, f: real, ph: real, e: real)
      requires |aux| == 3 && aux[0] != aux[1] && aux[1] != aux[2] && aux[0] != aux[2]
      requires 0 <= i < aux[0].Length && i < aux[1].Length && i < aux[2].Length
      modifies aux[0], aux[1], aux[2]
      ensures aux[0][..] == old(aux[0][..])[i := f]
      ensures aux[1][..] == old(aux[1][..])[i := ph]
      ensures aux[2][..] == old(aux[2][..])[i := e]
    {
      aux[0][i] := f;
      aux[1][i] := ph;
      aux[2][i] := e;
    }

    /** One pass of work()'s loop body over sample i, diagnostics included. */
    method TrackStep(input: seq<Complex>, out: array<Complex>, aux: seq<array<real>>, i: int,
                     ghost p: LoopParams, ghost st: LoopState, ghost orig: seq<seq<real>>)
      requires p == Params() && out != tapsLower && out != tapsUpper
      requires filterSize == |p.lower| && StepFits(p, input, st, i)
      requires st.out == out[..] && st.freq == freq && st.phase == phase
      requires |aux| == 0 || Logged(aux, st, orig)
      requires |aux| == 3 ==> |st.frq| == i && i < aux[0].Length && i < aux[1].Length && i < aux[2].Length
      modifies this`freq, this`phase, out, aux
      ensures Params() == p
      ensures var t := Step(p, libm, input, st, i);
        && out[..] == t.out && freq == t.freq && phase == t.phase
        && (|aux| == 0 || Logged(aux, t, orig))
    {
      var error := Advance(input, out, i, p, st);
      if |aux| == 3 {
        Record(aux, i, freq, phase, error);
        LogAppend(st.frq, orig[0], freq);
        LogAppend(st.phs, orig[1], phase);
        LogAppend(st.err, orig[2], error);
      }
    }

    /** The loop of work() over count samples: it reads the taps, the gains
        and the limits, and changes only the frequency, the phase, the output
        and the diagnostic outputs. */
    method Track(count: nat, input: seq<Complex>, out: array<Complex>, aux: seq<array<real>>)
      requires filterSize > 0 && tapsLower.Length == filterSize && tapsUpper.Length == filterSize
      requires minFreq <= maxFreq
      requires out != tapsLower && out != tapsUpper
      requires count <= |input| && (count == 0 || count + filterSize - 1 <= out.Length)
      requires |aux| == 0 || |aux| == 3
      requires |aux| == 3 ==>
        aux[0] != aux[1] && aux[1] != aux[2] && aux[0] != aux[2] &&
        count <= aux[0].Length && count <= aux[1].Length && count <= aux[2].Length
      modifies this`freq, this`phase, out, aux
      ensures var r := Run(old(Params()), libm, input, LoopState(old(out[..]), old(freq), old(phase), [], [], []), count);
        && freq == r.freq && phase == r.phase && out[..] == r.out
        && (|aux| == 3 ==>
              && aux[0][..] == r.frq + old(aux[0][..])[count..]
              && aux[1][..] == r.phs + old(aux[1][..])[count..]
              && aux[2][..] == r.err + old(aux[2][..])[count..])
    {
      ghost var p := Params();
      ghost var s0 := LoopState(out[..], freq, phase, [], [], []);
      ghost var st := s0;
      ghost var orig := if |aux| == 3 then [aux[0][..], aux[1][..], aux[2][..]] else [];
      for i := 0 to count
        invariant RunFits(p, input, s0, i) && st == Run(p, libm, input, s0, i)
        invariant Params() == p
        invariant out[..] == st.out && freq == st.freq && phase == st.phase
        invariant |aux| == 0 || Logged(aux, st, orig)
      {
        assert RunFits(p, input, s0, i + 1);
        RunExtends(p, libm, input, s0, i);
        TrackStep(input, out, aux, i, p, st, orig);
        st := Step(p, libm, input, st, i);
      }
    }

    /** work: right after a redesign it clears the flag and produces nothing;
        otherwise it runs the loop over noutput_items samples, writing the
        corrected samples into out (shifted by filter_size - 1) and, when the
        scheduler gave it three more output buffers (aux), the frequency,
        phase and error of every sample. */
    method Work(noutputItems: int, input: seq<Complex>, out: array<Complex>, aux: seq<array<real>>)
      returns (produced: int)
      requires Valid()
      requires out != tapsLower && out != tapsUpper
      requires noutputItems <= |input|
      requires noutputItems <= 0 || noutputItems + filterSize - 1 <= out.Length
      requires |aux| == 3 ==>
        aux[0] != aux[1] && aux[1] != aux[2] && aux[0] != aux[2] &&
        noutputItems <= aux[0].Length && noutputItems <= aux[1].Length && noutputItems <= aux[2].Length
      modifies this, out, aux
      ensures Valid()
      ensures produced == if old(updated) then 0 else noutputItems
      ensures old(updated) ==>
        && Snapshot() == old(Snapshot()).(updated := false)
        && out[..] == old(out[..])
        && forall j :: 0 <= j < |aux| ==> aux[j][..] == old(aux[j][..])
      ensures !old(updated) ==> Snapshot() == old(Snapshot()).(freq := freq, phase := phase)
      ensures !old(updated) ==>
        var count := if noutputItems < 0 then 0 else noutputItems;
        var r := Run(old(Params()), libm, input, LoopState(old(out[..]), old(freq), old(phase), [], [], []), count);
        && freq == r.freq && phase == r.phase && out[..] == r.out
        && (|aux| == 3 ==>
              && aux[0][..] == r.frq + old(aux[0][..])[count..]
              && aux[1][..] == r.phs + old(aux[1][..])[count..]
              && aux[2][..] == r.err + old(aux[2][..])[count..])
        && (|aux| != 3 ==> forall j :: 0 <= j < |aux| ==> aux[j][..] == old(aux[j][..]))
    {
      if updated {
        updated := false;
        return 0;  // the history may have changed since the scheduler last asked
      }
      var count := if noutputItems < 0 then 0 else noutputItems;
      var diagnostics := if |aux| == 3 then aux else [];
      Track(count, input, out, diagnostics);
      produced := noutputItems;
    }

    /** The redesign handshake at start-up: the constructor leaves the flag
        raised, so the first work() call produces nothing and the second one
        produces every item asked for. */
    static method StartUp(libm: Libm, sampsPerSym: real, rolloff: real, filterSize: int, bandwidth: real,
                          n: nat, input: seq<Complex>, out: array<Complex>)
      returns (first: int, second: int)
      requires libm.Valid()
      requires ConstructorCheck(sampsPerSym, rolloff, filterSize, bandwidth) == Pass
      requires n <= |input| && n + filterSize - 1 <= out.Length
      modifies out
      ensures first == 0 && second == n
    {
      var block := new FllBandEdge(libm, sampsPerSym, rolloff, filterSize, bandwidth);
      first := block.Work(n, input, out, []);
      second := block.Work(n, input, out, []);
    }
  }
}
