/** The signal containers and complex arithmetic shared by the waveform
    utilities. Samples are exact reals: the single/double precision tag of
    the containers is not modelled. */
module Signals {

  /** A complex sample, stored as its real and imaginary parts. */
  datatype Complex = Complex(re: real, im: real)

  const Zero: Complex := Complex(0.0, 0.0)
  const One: Complex := Complex(1.0, 0.0)

  /** Complex product, written in the component form the shift kernel uses. */
  function Mul(a: Complex, b: Complex): (r: Complex)
    ensures r.re == a.re * b.re - a.im * b.im
    ensures r.im == a.re * b.im + a.im * b.re
  {
    Complex(a.re * b.re - a.im * b.im, a.re * b.im + a.im * b.re)
  }

  /** Uniformly sampled series in time: sample k is at epoch + k * deltaT. */
  datatype TimeSeries<T> = TimeSeries(data: seq<T>, deltaT: real, epoch: real)

  /** Uniformly sampled series in frequency: sample k is at k * deltaF. */
  datatype FrequencySeries<T> = FrequencySeries(data: seq<T>, deltaF: real, epoch: real)

  /** The frequency of bin k of a series sampled every delta_f. */
  function BinFrequency(k: int, deltaF: real): real {
    k as real * deltaF
  }

  /** `sample_frequencies` of a FrequencySeries: bin k sits at k * delta_f. */
  function GridFrequencies<T>(s: FrequencySeries<T>): (f: seq<real>)
    ensures |f| == |s.data|
  {
    seq(|s.data|, k => BinFrequency(k, s.deltaF))
  }

  /** pi as numpy.pi and lal.PI print it: the shortest decimal form of the
      double nearest pi. As an exact real it lies about 1.2e-16 below that
      double. */
  const Pi: real := 3.141592653589793

  /** Cosine and sine, left uninterpreted: the model never evaluates them. */
  datatype Trig = Trig(cos: real -> real, sin: real -> real)

  /** exp(i * angle) in terms of the cosine and sine of `t`. */
  function Cis(t: Trig, angle: real): Complex {
    Complex(t.cos(angle), t.sin(angle))
  }

  /** The laws of cosine and sine the equivalence proofs rely on: the angle
      addition formulas and the values at zero. */
  ghost predicate Lawful(t: Trig) {
    && t.cos(0.0) == 1.0
    && t.sin(0.0) == 0.0
    && forall a: real, b: real {:trigger Mul(Cis(t, a), Cis(t, b))} ::
         Mul(Cis(t, a), Cis(t, b)) == Cis(t, a + b)
  }

  /** Equal angles give equal rotations (stated for the solver, which does
      not carry products of reals into the rotation's argument by itself). */
  lemma SameAngle(t: Trig, a: real, b: real)
    requires a == b
    ensures Cis(t, a) == Cis(t, b)
  {
  }

  /** Rotating by a zero angle changes nothing. */
  lemma MulByCisZero(t: Trig, z: Complex)
    requires Lawful(t)
    ensures Mul(z, Cis(t, 0.0)) == z
  {
    assert Cis(t, 0.0) == One;
  }

  /** Rotations compose by adding their angles. */
  lemma CisAdd(t: Trig, a: real, b: real)
    requires Lawful(t)
    ensures Mul(Cis(t, a), Cis(t, b)) == Cis(t, a + b)
  {
  }

  /** Rotating by an angle and then by its negation is the identity. */
  lemma CisCancel(t: Trig, a: real, z: Complex)
    requires Lawful(t)
    ensures Mul(Cis(t, -a), Mul(Cis(t, a), z)) == z
  {
    CisAdd(t, -a, a);
    assert -a + a == 0.0;
    MulAssoc(Cis(t, -a), Cis(t, a), z);
  }

  lemma MulAssoc(a: Complex, b: Complex, c: Complex)
    ensures Mul(a, Mul(b, c)) == Mul(Mul(a, b), c)
  {
  }

  lemma MulCommutes(a: Complex, b: Complex)
    ensures Mul(a, b) == Mul(b, a)
  {
  }
}
