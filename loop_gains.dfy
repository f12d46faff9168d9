/** The loop-gain calculation of update_gains: the proportional gain alpha and
    the integral gain beta of the second-order loop, from the damping factor
    and the normalised loop bandwidth. */
module LoopGains {

  datatype Gains = Gains(alpha: real, beta: real)

  /** The common denominator 1 + 2 damping bw + bw^2. */
  function Denominator(damping: real, bw: real): (d: real)
    requires 0.0 <= damping <= 1.0 && bw >= 0.0
    ensures d >= 1.0
    ensures d >= 1.0 + bw * bw
  {
    1.0 + 2.0 * damping * bw + bw * bw
  }

  /** The gains update_gains stores: 4 damping bw / d and 4 bw^2 / d. */
  function CriticalGains(damping: real, bw: real): Gains
    requires 0.0 <= damping <= 1.0 && bw >= 0.0
  {
    var d := Denominator(damping, bw);
    Gains(4.0 * damping * bw / d, 4.0 * bw * bw / d)
  }

  /** For the damping and bandwidth the setters admit, alpha never leaves [0,1],
      beta is non-negative and below 4, and a zero bandwidth freezes the loop. */
  lemma CriticalGainsBounds(damping: real, bw: real)
    requires 0.0 <= damping <= 1.0 && bw >= 0.0
    ensures var g := CriticalGains(damping, bw);
      && 0.0 <= g.alpha <= 1.0
      && 0.0 <= g.beta < 4.0
      && (bw == 0.0 ==> g == Gains(0.0, 0.0))
      && (g.alpha > 0.0 <==> damping > 0.0 && bw > 0.0)
  {
    AlphaBounds(damping, bw);
    BetaBounds(damping, bw);
  }

  lemma AlphaBounds(damping: real, bw: real)
    requires 0.0 <= damping <= 1.0 && bw >= 0.0
    ensures 0.0 <= CriticalGains(damping, bw).alpha <= 1.0
    ensures CriticalGains(damping, bw).alpha > 0.0 <==> damping > 0.0 && bw > 0.0
  {
    var d := Denominator(damping, bw);
    ProductBounds(damping, bw);
    TwiceAtMostSquarePlusOne(bw);
    if damping > 0.0 && bw > 0.0 { ProductPositive(damping, bw); }
    QuotientBounds(4.0 * damping * bw, d);
  }

  lemma BetaBounds(damping: real, bw: real)
    requires 0.0 <= damping <= 1.0 && bw >= 0.0
    ensures 0.0 <= CriticalGains(damping, bw).beta < 4.0
    ensures bw == 0.0 ==> CriticalGains(damping, bw).beta == 0.0
  {
    QuotientBounds(4.0 * bw * bw, Denominator(damping, bw));
    if bw > 0.0 { SquarePositive(bw); }
  }

  /** 2x <= 1 + x^2, because (x - 1)^2 is non-negative. */
  lemma TwiceAtMostSquarePlusOne(x: real)
    ensures 2.0 * x <= 1.0 + x * x
  {
    var e := x - 1.0;
    assert x * x == (e + 1.0) * (e + 1.0) == e * e + 2.0 * e + 1.0;
    if e > 0.0 {
      SquarePositive(e);
    } else if e < 0.0 {
      SquarePositive(-e);
      assert (-e) * (-e) == e * e;
    }
  }

  lemma ProductBounds(x: real, y: real)
    requires 0.0 <= x <= 1.0 && y >= 0.0
    ensures 0.0 <= x * y <= y
  {
  }

  lemma SquarePositive(x: real)
    requires x > 0.0
    ensures x * x > 0.0 && 4.0 * x * x > 0.0
  {
  }

  lemma ProductPositive(x: real, y: real)
    requires x > 0.0 && y > 0.0
    ensures x * y > 0.0
  {
  }

  lemma QuotientBounds(a: real, d: real)
    requires d >= 1.0
    ensures a <= d ==> a / d <= 1.0
    ensures a >= 0.0 ==> a / d >= 0.0
    ensures a > 0.0 ==> a / d > 0.0
    ensures a < 4.0 * d ==> a / d < 4.0
    ensures a == 0.0 ==> a / d == 0.0
  {
    var q := a / d;
    assert q * d == a;
    if q > 1.0 { assert q * d > d; }
    if q < 0.0 { assert q * d < 0.0; }
    if q == 0.0 { assert q * d == 0.0; }
    if q >= 4.0 { assert q * d >= 4.0 * d; }
  }

  /** The gains update_gains derives need not lie in the range [0,1] that
      set_beta enforces on a beta given directly. */
  lemma DerivedBetaMayExceedSetterRange()
    ensures CriticalGains(0.0, 2.0).beta > 1.0
  {
    assert Denominator(0.0, 2.0) == 5.0;
  }
}
