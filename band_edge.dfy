/** The band-edge filter design of design_filter, as functions of the
    samples per symbol, the rolloff factor and the filter length.

    The prototype is the sum of two sincs; it is normalised by the signed sum
    of its taps and spun up and down by (1 + rolloff) / (2 sps) of the sample
    rate.  The taps are stored in reverse design order. */
module BandEdge {
  import opened Numerics

  /** M = rint(filter_size / sps): the half-span of the prototype in symbols. */
  function HalfSpan(sps: real, n: nat): int
    requires sps > 0.0
  {
    Rint(n as real / sps)
  }

  /** Prototype tap i: sinc(rolloff k - 1/2) + sinc(rolloff k + 1/2) with k = -M + 2i / sps. */
  function PrototypeTap(m: Libm, sps: real, rolloff: real, half: int, i: int): real
    requires sps > 0.0
  {
    var k := -half as real + i as real * 2.0 / sps;
    Sinc(m, rolloff * k - 0.5) + Sinc(m, rolloff * k + 0.5)
  }

  /** The baseband prototype in design order (bb_taps). */
  function Prototype(m: Libm, sps: real, rolloff: real, n: nat): (taps: seq<real>)
    requires sps > 0.0
    ensures |taps| == n
  {
    seq(n, i => PrototypeTap(m, sps, rolloff, HalfSpan(sps, n), i))
  }

  /** The signed sum of the taps, accumulated from the first to the last. */
  function Sum(s: seq<real>): real
  {
    if s == [] then 0.0 else Sum(s[..|s| - 1]) + s[|s| - 1]
  }

  lemma SumAppend(s: seq<real>, x: real)
    ensures Sum(s + [x]) == Sum(s) + x
  {
    assert (s + [x])[..|s|] == s;
  }

  /** The phase 2 pi (1 + rolloff) k of design index i, with k = (i - N) / (2 sps) and N = (n - 1) / 2. */
  function EdgeAngle(sps: real, rolloff: real, n: nat, i: int): real
    requires sps > 0.0 && n > 0
  {
    var k := (i - (n - 1) / 2) as real / (2.0 * sps);
    TwoPi * (1.0 + rolloff) * k
  }

  /** The normalised prototype tap i: bb_taps[i] / power. */
  function NormalizedTap(m: Libm, sps: real, rolloff: real, n: nat, i: nat): real
    requires sps > 0.0 && i < n
  {
    var proto := Prototype(m, sps, rolloff, n);
    Quotient(proto[i], Sum(proto))
  }

  /** The upper band-edge coefficient of design index i (t2 in the source). */
  function UpperAt(m: Libm, sps: real, rolloff: real, n: nat, i: nat): Complex
    requires sps > 0.0 && i < n
  {
    Scale(NormalizedTap(m, sps, rolloff, n, i), Expj(m, EdgeAngle(sps, rolloff, n, i)))
  }

  /** The lower band-edge coefficient of design index i (t1 in the source). */
  function LowerAt(m: Libm, sps: real, rolloff: real, n: nat, i: nat): Complex
    requires sps > 0.0 && i < n
  {
    Scale(NormalizedTap(m, sps, rolloff, n, i), Expj(m, -EdgeAngle(sps, rolloff, n, i)))
  }

  /** d_taps_upper: slot j holds design index n - 1 - j. */
  function UpperTaps(m: Libm, sps: real, rolloff: real, n: nat): (taps: seq<Complex>)
    requires sps > 0.0
    ensures |taps| == n
  {
    seq(n, j requires 0 <= j < n => UpperAt(m, sps, rolloff, n, n - 1 - j))
  }

  /** d_taps_lower: slot j holds design index n - 1 - j. */
  function LowerTaps(m: Libm, sps: real, rolloff: real, n: nat): (taps: seq<Complex>)
    requires sps > 0.0
    ensures |taps| == n
  {
    seq(n, j requires 0 <= j < n => LowerAt(m, sps, rolloff, n, n - 1 - j))
  }

  /** Slot n - 1 - i of both filters, in terms of design index i: the
      normalised prototype tap times the phasor at plus or minus the edge angle. */
  lemma SlotOfDesignIndex(m: Libm, sps: real, rolloff: real, n: nat, i: nat)
    requires sps > 0.0 && i < n
    ensures var proto := Prototype(m, sps, rolloff, n);
      var tap := Quotient(proto[i], Sum(proto));
      var angle := EdgeAngle(sps, rolloff, n, i);
      && LowerTaps(m, sps, rolloff, n)[n - 1 - i] == Scale(tap, Expj(m, -angle))
      && UpperTaps(m, sps, rolloff, n)[n - 1 - i] == Scale(tap, Expj(m, angle))
  {
    var j := n - 1 - i;
    assert n - 1 - j == i;
    assert LowerTaps(m, sps, rolloff, n)[j] == LowerAt(m, sps, rolloff, n, i);
    assert UpperTaps(m, sps, rolloff, n)[j] == UpperAt(m, sps, rolloff, n, i);
  }

  /** The two coefficients of one design index are complex conjugates. */
  lemma EdgeCoefficientsConjugate(m: Libm, sps: real, rolloff: real, n: nat, i: nat)
    requires m.Valid() && sps > 0.0 && i < n
    ensures LowerAt(m, sps, rolloff, n, i) == Conj(UpperAt(m, sps, rolloff, n, i))
  {
    ScaledExpjConj(m, NormalizedTap(m, sps, rolloff, n, i), EdgeAngle(sps, rolloff, n, i));
  }

  /** One slot of the two filters holds a conjugate pair. */
  lemma SlotConjugate(m: Libm, sps: real, rolloff: real, n: nat, j: nat)
    requires m.Valid() && sps > 0.0 && j < n
    ensures LowerTaps(m, sps, rolloff, n)[j] == Conj(UpperTaps(m, sps, rolloff, n)[j])
  {
    var i := n - 1 - j;
    assert LowerTaps(m, sps, rolloff, n)[j] == LowerAt(m, sps, rolloff, n, i);
    assert UpperTaps(m, sps, rolloff, n)[j] == UpperAt(m, sps, rolloff, n, i);
    EdgeCoefficientsConjugate(m, sps, rolloff, n, i);
  }

  /** Every lower band-edge tap is the complex conjugate of the upper tap in the same slot. */
  lemma LowerIsConjugateOfUpper(m: Libm, sps: real, rolloff: real, n: nat)
    requires m.Valid() && sps > 0.0
    ensures forall j :: 0 <= j < n ==>
      LowerTaps(m, sps, rolloff, n)[j] == Conj(UpperTaps(m, sps, rolloff, n)[j])
  {
    forall j | 0 <= j < n
      ensures LowerTaps(m, sps, rolloff, n)[j] == Conj(UpperTaps(m, sps, rolloff, n)[j])
    {
      SlotConjugate(m, sps, rolloff, n, j);
    }
  }
}
