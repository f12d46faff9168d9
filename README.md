# Band-edge frequency-locked loop (gr_fll_band_edge_cc)

A Dafny model of GNU Radio's `gr_fll_band_edge_cc` block. The block corrects
the residual carrier frequency of a complex baseband stream. It filters the
derotated signal through two band-edge filters, one at each edge of the
signal's band. The difference of their output powers drives a second-order
frequency-locked loop.

The model covers:

- **Configuration** (`FllBandEdgeBlock`). The constructor and the `set_*`
  setters each check one range. Where the C++ code throws
  `std::out_of_range`, the model returns `Fail` or `Failure` and changes
  nothing.
- **Gain derivation** (`LoopGains`). `update_gains` computes alpha and beta
  from the damping factor and the loop bandwidth. The model proves their
  bounds.
- **Filter design** (`BandEdge`, `FllBandEdge.DesignFilter`). Two loops:
  - the first builds the baseband prototype and its signed power;
  - the second fills both tap arrays in reversed index order.

  The redesign then raises the `updated` flag and sets the history to
  `filter_size + 1`.
- **The redesign handshake.** The first `work` call after a redesign clears
  the flag and produces nothing.
- **The per-sample loop of `work`** (`Tracking`, `FllBandEdge.Work`). Each
  iteration:
  1. derotates `in[i]` into `out[i + filter_size - 1]`;
  2. correlates the window `out[i .. i + filter_size - 1]` with both filters;
  3. advances the frequency, then the phase using the unclamped frequency;
  4. wraps the phase by at most one 2π;
  5. clamps the frequency to its limits.

  When four output buffers are connected, it also records the frequency,
  phase and error of each sample.

How the model represents the block:

- **Numbers.** Floats are `real`. The maths library is a `Libm` value holding
  `sin`, `cos` and `sqrt`. Its `Valid()` predicate states the only facts the
  proofs use: sin is odd, cos is even, and sqrt is a square root.
- **`work`'s loop as functions.** `Tracking.Step` is one iteration and
  `Tracking.Run` is the first k iterations. The imperative methods `Advance`,
  `TrackStep`, `Track` and `Work` are proved equal to these functions.
  Lemmas then state what the functions do: which buffer slots each iteration
  writes and reads, the clamp range, and what the diagnostics record.

Four behaviours of the code that a reader might not expect, and that the model
follows as written:

- **Frequency limits.** The limits ±2π·(2/sps) depend on the samples per
  symbol, but they are set only in the constructor
  (`gr_fll_band_edge_cc.cc:88-89`). `set_samples_per_symbol` redesigns the
  filters and leaves the limits unchanged.
- **The first `work` call.** The constructor calls `design_filter`, which
  raises `d_updated`, so the first `work` call after construction returns 0
  (`FllBandEdge.StartUp`).
- **Phase range.** The wrap tests `phase < -M_PI` strictly, so the phase lies
  in [−π, π] with −π itself left unchanged. A single correction brings the
  phase into that range only when the unwrapped phase lies in [−3π, 3π]
  (`Numerics.Wrap`).
- **Correlation window.** The history is filter_size + 1 samples, but each
  iteration correlates filter_size samples, `out[i]` to
  `out[i + filter_size - 1]`.

## Model

| member | source | states |
|---|---|---|
| `Numerics.Norm` | gnuradio-core/src/lib/general/gr_fll_band_edge_cc.cc:326 | std::norm, the squared magnitude, is never negative |
| `Numerics.ScaledExpjConj` | gnuradio-core/src/lib/general/gr_fll_band_edge_cc.cc:258-259 | tap * expj(-x) is the complex conjugate of tap * expj(x), for any odd sin and even cos |
| `Numerics.Rint` | gnuradio-core/src/lib/general/gr_fll_band_edge_cc.cc:233 | rint gives an integer within 1/2 of its argument, and on a tie the even one |
| `Numerics.Quotient` | gnuradio-core/src/lib/general/gr_fll_band_edge_cc.cc:254 | for a non-zero power, the normalised tap times the power gives back the prototype tap |
| `Numerics.Clamp` | gnuradio-core/src/lib/general/gr_fll_band_edge_cc.cc:336-339 | the upper limit is tested first: a value above max becomes max, otherwise a value below min becomes min, and a value in range is kept. The result lies in [min, max] when min <= max |
| `Numerics.Wrap` | gnuradio-core/src/lib/general/gr_fll_band_edge_cc.cc:331-334 | a phase above π loses 2π, a phase below −π gains 2π, and a phase in [−π, π] (both ends included) is kept. A phase in [−3π, 3π] lands in [−π, π]; beyond ±3π the result stays outside [−π, π] |
| `LoopGains.Denominator` | gnuradio-core/src/lib/general/gr_fll_band_edge_cc.cc:225 | for damping in [0,1] and bw >= 0, 1 + 2·damping·bw + bw² is at least 1 and at least 1 + bw², so the division never fails |
| `LoopGains.CriticalGainsBounds` | gnuradio-core/src/lib/general/gr_fll_band_edge_cc.cc:225-227 | for the damping and bandwidth the setters admit: alpha is in [0,1]; beta is in [0,4); bw = 0 gives alpha = beta = 0; alpha > 0 exactly when damping > 0 and bw > 0 |
| `LoopGains.AlphaBounds` | gnuradio-core/src/lib/general/gr_fll_band_edge_cc.cc:226 | alpha = 4·damping·bw / denom lies in [0,1], and is positive exactly when damping and bw both are |
| `LoopGains.BetaBounds` | gnuradio-core/src/lib/general/gr_fll_band_edge_cc.cc:227 | beta = 4·bw² / denom lies in [0,4) and is 0 when bw is 0 |
| `LoopGains.DerivedBetaMayExceedSetterRange` | gnuradio-core/src/lib/general/gr_fll_band_edge_cc.cc:144-147 | a beta derived by update_gains (damping 0, bw 2) is above 1, outside the range set_beta accepts for a beta given directly |
| `BandEdge.Prototype` | gnuradio-core/src/lib/general/gr_fll_band_edge_cc.cc:238-244 | the baseband prototype has exactly filter_size taps |
| `BandEdge.Sum` | gnuradio-core/src/lib/general/gr_fll_band_edge_cc.cc:234-241 | definition with no contract: the signed sum of the taps accumulated from the first, the `power` of design_filter |
| `BandEdge.SumAppend` | gnuradio-core/src/lib/general/gr_fll_band_edge_cc.cc:241 | adding one tap to the power accumulator adds it to the signed sum |
| `BandEdge.UpperTaps` | gnuradio-core/src/lib/general/gr_fll_band_edge_cc.cc:246-262 | d_taps_upper has exactly filter_size entries |
| `BandEdge.LowerTaps` | gnuradio-core/src/lib/general/gr_fll_band_edge_cc.cc:246-262 | d_taps_lower has exactly filter_size entries |
| `BandEdge.SlotOfDesignIndex` | gnuradio-core/src/lib/general/gr_fll_band_edge_cc.cc:253-262 | slot filter_size−1−i of each filter holds the normalised prototype tap i times expj(∓2π(1+rolloff)k); as i covers [0, filter_size) this reaches every slot once |
| `BandEdge.EdgeCoefficientsConjugate` | gnuradio-core/src/lib/general/gr_fll_band_edge_cc.cc:258-259 | t1 is the complex conjugate of t2 |
| `BandEdge.SlotConjugate` | gnuradio-core/src/lib/general/gr_fll_band_edge_cc.cc:261-262 | in one slot, the lower tap is the conjugate of the upper tap |
| `BandEdge.LowerIsConjugateOfUpper` | gnuradio-core/src/lib/general/gr_fll_band_edge_cc.cc:253-263 | every lower tap is the complex conjugate of the upper tap in the same slot |
| `Tracking.Derotated` | gnuradio-core/src/lib/general/gr_fll_band_edge_cc.cc:316-317 | storing the derotated sample keeps the length of the output buffer |
| `Tracking.StepError` | gnuradio-core/src/lib/general/gr_fll_band_edge_cc.cc:316-326 | definition with no contract: the error of iteration i, the discriminator of the window out[i .. i+fs−1] after the derotated sample is stored |
| `Tracking.Step` | gnuradio-core/src/lib/general/gr_fll_band_edge_cc.cc:316-345 | one iteration keeps the buffer length; it appends the clamped frequency, the wrapped phase and the error to the three diagnostic streams; the new frequency lies in [min_freq, max_freq] |
| `Tracking.Run` | gnuradio-core/src/lib/general/gr_fll_band_edge_cc.cc:315-346 | after k iterations, each diagnostic stream has grown by exactly k entries, and if k > 0 the frequency lies in [min_freq, max_freq] |
| `Tracking.RunExtends` | gnuradio-core/src/lib/general/gr_fll_band_edge_cc.cc:315 | the first k + 1 iterations are the first k followed by iteration k |
| `Tracking.RunWritesOneSlotPerIteration` | gnuradio-core/src/lib/general/gr_fll_band_edge_cc.cc:315-317 | after k iterations, out[j] for j in [fs−1, k+fs−1) holds in[j−fs+1] derotated by the phase before iteration j−fs+1; every other slot keeps its old value |
| `Tracking.StepReadsOnlyItsWindow` | gnuradio-core/src/lib/general/gr_fll_band_edge_cc.cc:320-325 | an iteration reads the buffer only at out[i .. i+fs−2]. Two states that agree there, and on frequency and phase, give the same error, frequency and phase |
| `Tracking.RunRecordsEachIteration` | gnuradio-core/src/lib/general/gr_fll_band_edge_cc.cc:341-345 | frq[i] and phs[i] are the frequency and phase after iteration i, and err[i] is the discriminator applied to that iteration's window |
| `FllBandEdgeBlock.ConstructorCheck` | gnuradio-core/src/lib/general/gr_fll_band_edge_cc.cc:64-84 | construction fails exactly when sps <= 0, rolloff is outside [0,1], filter_size <= 0 or bandwidth < 0. The exception is the first failing check, in that order |
| `FllBandEdgeBlock.FreqLimit` | gnuradio-core/src/lib/general/gr_fll_band_edge_cc.cc:88-89 | the limit 2π·(2/sps) is positive and equals 4π/sps |
| `FllBandEdgeBlock.DefaultDampingInRange` | gnuradio-core/src/lib/general/gr_fll_band_edge_cc.cc:92 | the default damping sqrt(2)/2 lies in [0,1] |
| `FllBandEdgeBlock.LogAppend` | gnuradio-core/src/lib/general/gr_fll_band_edge_cc.cc:341-345 | writing entry i of a diagnostic buffer whose first i entries are the log extends the log by one and keeps the rest |
| `FllBandEdgeBlock.FllBandEdge.constructor` | gnuradio-core/src/lib/general/gr_fll_band_edge_cc.cc:56-103 | the new block satisfies the invariant. The limits are ±FreqLimit(sps) and the damping is sqrt(2)/2. The gains are update_gains' values. Freq and phase are 0, updated is true and the history is filter_size + 1 |
| `FllBandEdgeBlock.FllBandEdge.TryCreate` | gnuradio-core/src/lib/general/gr_fll_band_edge_cc.cc:62-103 | fails, with the first failing check, exactly when a check fails. Otherwise it returns a fresh valid block whose maths library is the one given and whose state is the constructor's: the arguments stored, the damping sqrt(2)/2, update_gains' gains, limits ±FreqLimit(sps), zero frequency and phase, the flag raised, history filter_size + 1 and fresh tap arrays |
| `FllBandEdgeBlock.FllBandEdge.TapsAreConjugates` | gnuradio-core/src/lib/general/gr_fll_band_edge_cc.cc:246-262 | in a valid block whose maths library satisfies `Libm.Valid()` (every block made by the constructor or `TryCreate`), both tap arrays have filter_size entries and tapsLower[j] is the conjugate of tapsUpper[j] |
| `FllBandEdgeBlock.FllBandEdge.UpdateGains` | gnuradio-core/src/lib/general/gr_fll_band_edge_cc.cc:223-228 | alpha and beta become the critical gains of the damping and bandwidth; nothing else changes |
| `FllBandEdgeBlock.FllBandEdge.BuildPrototype` | gnuradio-core/src/lib/general/gr_fll_band_edge_cc.cc:233-244 | the loop builds exactly the prototype taps, and power is their signed sum |
| `FllBandEdgeBlock.FllBandEdge.BuildEdgeFilters` | gnuradio-core/src/lib/general/gr_fll_band_edge_cc.cc:246-263 | the reversed-order loop leaves two fresh, distinct arrays holding exactly the lower and upper band-edge designs |
| `FllBandEdgeBlock.FllBandEdge.DesignFilter` | gnuradio-core/src/lib/general/gr_fll_band_edge_cc.cc:231-269 | both tap arrays are replaced by the design, updated becomes true and the history becomes filter_size + 1; nothing else changes |
| `FllBandEdgeBlock.FllBandEdge.SetLoopBandwidth` | gnuradio-core/src/lib/general/gr_fll_band_edge_cc.cc:110-118 | fails with nothing changed exactly when bw < 0. Otherwise it stores bw and re-derives the gains; the taps, flag, history, frequency and phase are unchanged |
| `FllBandEdgeBlock.FllBandEdge.SetDampingFactor` | gnuradio-core/src/lib/general/gr_fll_band_edge_cc.cc:120-129 | fails with nothing changed exactly when df is outside [0,1]. Otherwise it stores df and re-derives the gains; nothing else changes |
| `FllBandEdgeBlock.FllBandEdge.SetAlpha` | gnuradio-core/src/lib/general/gr_fll_band_edge_cc.cc:132-139 | fails with nothing changed exactly when alpha is outside [0,1]. Otherwise it stores alpha as given, and get_alpha returns it |
| `FllBandEdgeBlock.FllBandEdge.SetBeta` | gnuradio-core/src/lib/general/gr_fll_band_edge_cc.cc:141-148 | fails with nothing changed exactly when beta is outside [0,1]. Otherwise it stores beta as given, and get_beta returns it |
| `FllBandEdgeBlock.FllBandEdge.SetSamplesPerSymbol` | gnuradio-core/src/lib/general/gr_fll_band_edge_cc.cc:150-158 | fails with nothing changed exactly when sps <= 0. Otherwise it stores sps and redesigns the filters, raising the flag; min_freq and max_freq keep their values |
| `FllBandEdgeBlock.FllBandEdge.SetRolloff` | gnuradio-core/src/lib/general/gr_fll_band_edge_cc.cc:160-168 | fails with nothing changed exactly when rolloff is outside [0,1]. Otherwise it stores rolloff, redesigns the filters and raises the flag |
| `FllBandEdgeBlock.FllBandEdge.SetFilterSize` | gnuradio-core/src/lib/general/gr_fll_band_edge_cc.cc:170-178 | fails with nothing changed exactly when filter_size <= 0. Otherwise it stores filter_size, redesigns the filters, raises the flag and sets the history to filter_size + 1 |
| `FllBandEdgeBlock.FllBandEdge.Correlate` | gnuradio-core/src/lib/general/gr_fll_band_edge_cc.cc:320-325 | the inner loop computes the dot products of both filters with out[i .. i+fs−1] |
| `FllBandEdgeBlock.FllBandEdge.Advance` | gnuradio-core/src/lib/general/gr_fll_band_edge_cc.cc:316-339 | one loop body computes Step's error, output buffer, frequency and phase |
| `FllBandEdgeBlock.FllBandEdge.Record` | gnuradio-core/src/lib/general/gr_fll_band_edge_cc.cc:341-345 | frq[i], phs[i] and err[i] are written and no other entry changes |
| `FllBandEdgeBlock.FllBandEdge.TrackStep` | gnuradio-core/src/lib/general/gr_fll_band_edge_cc.cc:316-345 | one iteration, diagnostics included, moves the block and its buffers from state s to Step(s). The taps, gains and limits are unchanged |
| `FllBandEdgeBlock.FllBandEdge.Track` | gnuradio-core/src/lib/general/gr_fll_band_edge_cc.cc:315-346 | the loop over count samples leaves frequency, phase, out and (with four outputs) the first count diagnostic entries equal to Run's; the diagnostic entries beyond count are unchanged |
| `FllBandEdgeBlock.FllBandEdge.Work` | gnuradio-core/src/lib/general/gr_fll_band_edge_cc.cc:290-349 | with the flag set: clears it, returns 0 and changes no other member and no buffer. Otherwise: returns noutput_items, changes only freq and phase among the members, and leaves freq, phase, out and the diagnostics as Run gives them. The diagnostics are written only with four outputs. The invariant is kept |
| `FllBandEdgeBlock.FllBandEdge.StartUp` | gnuradio-core/src/lib/general/gr_fll_band_edge_cc.cc:56-103 | right after construction the first work call produces 0 items and the second produces all n asked for |
| `Numerics.Sinc` | gnuradio-core/src/lib/general/gr_fll_band_edge_cc.cc:35-41 | definition with no contract: 1 at zero, sin(πx)/(πx) elsewhere |
| `Numerics.Expj` | gnuradio-core/src/lib/general/gr_fll_band_edge_cc.cc:316 | definition with no contract: gr_expj(x) = (cos x, sin x); its conjugate property is `Numerics.ScaledExpjConj` |
| `Numerics.Dot` | gnuradio-core/src/lib/general/gr_fll_band_edge_cc.cc:320-325 | definition with no contract: the sum of tap·sample products accumulated in index order; `FllBandEdge.Correlate` proves the loop computes it |
| `LoopGains.CriticalGains` | gnuradio-core/src/lib/general/gr_fll_band_edge_cc.cc:225-227 | definition with no contract: alpha = 4·damping·bw/denom and beta = 4·bw²/denom; its bounds are `LoopGains.CriticalGainsBounds` |
| `BandEdge.HalfSpan` | gnuradio-core/src/lib/general/gr_fll_band_edge_cc.cc:233 | definition with no contract: M = rint(filter_size / sps) |
| `BandEdge.PrototypeTap` | gnuradio-core/src/lib/general/gr_fll_band_edge_cc.cc:239-240 | definition with no contract: sinc(rolloff·k − ½) + sinc(rolloff·k + ½) with k = −M + 2i/sps |
| `BandEdge.EdgeAngle` | gnuradio-core/src/lib/general/gr_fll_band_edge_cc.cc:252-259 | definition with no contract: 2π(1 + rolloff)·(i − N)/(2·sps) with N = (filter_size − 1)/2 rounded down |
| `BandEdge.NormalizedTap` | gnuradio-core/src/lib/general/gr_fll_band_edge_cc.cc:254 | definition with no contract: bb_taps[i] / power |
| `BandEdge.UpperAt` | gnuradio-core/src/lib/general/gr_fll_band_edge_cc.cc:259 | definition with no contract: t2, the normalised tap times expj(+angle) |
| `BandEdge.LowerAt` | gnuradio-core/src/lib/general/gr_fll_band_edge_cc.cc:258 | definition with no contract: t1, the normalised tap times expj(−angle); `BandEdge.EdgeCoefficientsConjugate` relates it to t2 |
| `Tracking.Discriminator` | gnuradio-core/src/lib/general/gr_fll_band_edge_cc.cc:326 | definition with no contract: norm(out_lower) − norm(out_upper) of a window |
| `Tracking.AdvanceFreq` | gnuradio-core/src/lib/general/gr_fll_band_edge_cc.cc:328 | definition with no contract: freq + beta·error |
| `Tracking.AdvancePhase` | gnuradio-core/src/lib/general/gr_fll_band_edge_cc.cc:329 | definition with no contract: phase + freq + alpha·error, with the advanced, unclamped freq |
| `FllBandEdgeBlock.FllBandEdge.GetLoopBandwidth` | gnuradio-core/src/lib/general/gr_fll_band_edge_cc.cc:180-184 | definition with no contract: returns the loop bandwidth; `SetLoopBandwidth` ensures it returns the stored value |
| `FllBandEdgeBlock.FllBandEdge.GetDampingFactor` | gnuradio-core/src/lib/general/gr_fll_band_edge_cc.cc:186-190 | definition with no contract: returns the damping factor; `SetDampingFactor` ensures it returns the stored value |
| `FllBandEdgeBlock.FllBandEdge.GetAlpha` | gnuradio-core/src/lib/general/gr_fll_band_edge_cc.cc:192-196 | definition with no contract: returns alpha; `SetAlpha` ensures it returns the stored value |
| `FllBandEdgeBlock.FllBandEdge.GetBeta` | gnuradio-core/src/lib/general/gr_fll_band_edge_cc.cc:198-202 | definition with no contract: returns beta; `SetBeta` ensures it returns the stored value |
| `FllBandEdgeBlock.FllBandEdge.GetSamplesPerSymbol` | gnuradio-core/src/lib/general/gr_fll_band_edge_cc.cc:204-208 | definition with no contract: returns sps; `SetSamplesPerSymbol` ensures it returns the stored value |
| `FllBandEdgeBlock.FllBandEdge.GetRolloff` | gnuradio-core/src/lib/general/gr_fll_band_edge_cc.cc:210-214 | definition with no contract: returns the rolloff; `SetRolloff` ensures it returns the stored value |
| `FllBandEdgeBlock.FllBandEdge.GetFilterSize` | gnuradio-core/src/lib/general/gr_fll_band_edge_cc.cc:216-220 | definition with no contract: returns filter_size; `SetFilterSize` ensures it returns the stored value |

## Left out

- `print_taps` (lines 271-287) only prints the taps to stdout. It is I/O and not modelled.
- The factory `gr_make_fll_band_edge_cc` (lines 45-51) only wraps the constructor in a shared pointer. It is not modelled; `FllBandEdge.TryCreate` stands in for the throwing constructor.
- The `gr_sync_block` base class, the io-signature negotiation and the scheduler are outside this file:
  - `set_history` is modelled only as the `history` field;
  - the number of connected outputs is the length of the `aux` sequence of extra output buffers;
  - the input buffer is a sequence `input`.
- FllBandEdgeBlock.FllBandEdge.Work: requires `out` to have room for `noutput_items + filter_size - 1` items. The source's caller promises only `noutput_items` output slots: `set_history` concerns the input stream. The code writes `out[i + filter_size - 1]`, up to filter_size − 1 slots past the items it produces. At i = 0 it also reads `out[0 .. filter_size - 2]`, which this call has not written; the model takes them from the buffer's contents before the call. Behaviour when the buffer is shorter is not modelled.
- BandEdge.HalfSpan: `M = rint(filter_size / samps_per_sym)` is stored in a 32-bit `int`; the conversion is undefined when the quotient is outside the `int` range (a very small positive sps). The model's integer is unbounded, so that case is not modelled.
- Float rounding, and the values of `sin`, `cos`, `sqrt` and `gr_expj`, are not modelled. Arithmetic is on reals, and the maths functions are opaque values with only the parity and square-root facts. NaN and infinite arguments are not modelled either: every range check of the constructor and setters is false for a NaN, so the code accepts one, and sps = +inf passes its check and gives zero frequency limits.
- Numerics.Quotient: division by a zero filter power (IEEE infinity or NaN) is not modelled; the quotient is 0 there.
- The 32-bit `int` of `filter_size` is unbounded here. `filter_size + 1` overflowing at INT_MAX is not modelled.
- The loop's convergence and lock behaviour are signal-processing properties, not contracts of this code, and are not modelled.
- Concurrent calls to the setters and `work` are not modelled. The model assumes one caller at a time.
- The getters have no contracts of their own: each setter's contract states that the matching getter returns the stored value. Every getter returns its field.
