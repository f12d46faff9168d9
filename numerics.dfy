/** Scalar and complex arithmetic the band-edge FLL is built from.

    Floats are modelled as `real`.  The transcendental functions of the C
    maths library are not defined here: a `Libm` value carries them, and its
    `Valid()` predicate lists the only facts the model relies on. */
module Numerics {

  /** M_PI from <math.h>, as a real literal. */
  const Pi: real := 3.14159265358979323846

  /** M_TWOPI as defined at the top of the block's source file. */
  const TwoPi: real := 2.0 * Pi

  /** The C maths library functions the block calls (sin, cos via gr_expj, sqrt). */
  datatype Libm = Libm(sin: real -> real, cos: real -> real, sqrt: real -> real)
  {
    /** sin is odd, cos is even and sqrt is a real square root.  The
        parity facts are triggered by a phasor (a sin and a cos of the same
        angle), so the sin inside sinc does not start a matching loop. */
    ghost predicate Valid()
    {
      (forall x {:trigger sin(x), cos(x)} :: sin(x) == -sin(-x) && cos(x) == cos(-x)) &&
      (forall x {:trigger sqrt(x)} :: 0.0 <= x ==> 0.0 <= sqrt(x) && sqrt(x) * sqrt(x) == x)
    }
  }

  /** std::complex<float>, as a pair of reals. */
  datatype Complex = Complex(re: real, im: real)

  const Zero: Complex := Complex(0.0, 0.0)

  function Add(a: Complex, b: Complex): Complex
  {
    Complex(a.re + b.re, a.im + b.im)
  }

  function Mul(a: Complex, b: Complex): Complex
  {
    Complex(a.re * b.re - a.im * b.im, a.re * b.im + a.im * b.re)
  }

  /** A float times a complex number. */
  function Scale(t: real, c: Complex): Complex
  {
    Complex(t * c.re, t * c.im)
  }

  function Conj(c: Complex): Complex
  {
    Complex(c.re, -c.im)
  }

  /** std::norm: the squared magnitude. */
  function Norm(c: Complex): (r: real)
    ensures r >= 0.0
  {
    c.re * c.re + c.im * c.im
  }

  /** gr_expj: the unit phasor at angle x. */
  function Expj(m: Libm, x: real): Complex
  {
    Complex(m.cos(x), m.sin(x))
  }

  /** The conjugate of a scaled phasor is the scaled phasor at the opposite angle. */
  lemma ScaledExpjConj(m: Libm, t: real, x: real)
    requires m.Valid()
    ensures Scale(t, Expj(m, -x)) == Conj(Scale(t, Expj(m, x)))
  {
    assert m.cos(x) == m.cos(-x);
    assert m.sin(x) == -m.sin(-x);
  }

  /** The block's sinc: 1 at zero, sin(pi x)/(pi x) elsewhere. */
  function Sinc(m: Libm, x: real): real
  {
    if x == 0.0 then 1.0 else m.sin(Pi * x) / (Pi * x)
  }

  /** rint under the default rounding mode: to the nearest integer, ties to even. */
  function Rint(x: real): (r: int)
    ensures x - 0.5 <= r as real <= x + 0.5
    ensures r as real - x == 0.5 || x - r as real == 0.5 ==> r % 2 == 0
  {
    var f := x.Floor;
    var d := x - f as real;
    if d < 0.5 then f
    else if d > 0.5 then f + 1
    else if f % 2 == 0 then f
    else f + 1
  }

  /** Float division where a zero divisor is not modelled (IEEE gives inf or NaN). */
  function Quotient(a: real, b: real): (r: real)
    ensures b != 0.0 ==> r * b == a
  {
    if b == 0.0 then 0.0 else a / b
  }

  /** Complex dot product sum_k a[k] * b[k], accumulated in index order. */
  function Dot(a: seq<Complex>, b: seq<Complex>): Complex
    requires |a| == |b|
    decreases |a|
  {
    if |a| == 0 then Zero
    else Add(Dot(a[..|a| - 1], b[..|b| - 1]), Mul(a[|a| - 1], b[|b| - 1]))
  }

  /** The saturating clamp of the frequency estimate: the upper bound is tested first. */
  function Clamp(x: real, lo: real, hi: real): (r: real)
    ensures lo <= hi ==> lo <= r <= hi
    ensures lo <= x <= hi ==> r == x
    ensures r == x || r == lo || r == hi
    ensures x > hi ==> r == hi
    ensures x <= hi && x < lo ==> r == lo
  {
    if x > hi then hi
    else if x < lo then lo
    else x
  }

  /** The phase wrap: one correction of 2 pi at most, never a modulo. */
  function Wrap(x: real): (r: real)
    ensures r == x || r == x - TwoPi || r == x + TwoPi
    ensures x > Pi ==> r == x - TwoPi
    ensures x < -Pi ==> r == x + TwoPi
    ensures -Pi <= x <= Pi ==> r == x
    ensures -3.0 * Pi <= x <= 3.0 * Pi ==> -Pi <= r <= Pi
    ensures x > 3.0 * Pi ==> r > Pi
    ensures x < -3.0 * Pi ==> r < -Pi
  {
    if x > Pi then x - TwoPi
    else if x < -Pi then x + TwoPi
    else x
  }
}
