/** `ceilpow2`: the smallest power of two at or above an integer, computed
    from the significand and exponent that `math.frexp` returns. */
module PowerOfTwo {

  function Pow2(e: nat): (p: nat)
    ensures p >= 1
  {
    if e == 0 then 1 else 2 * Pow2(e - 1)
  }

  ghost predicate IsPow2(p: int) {
    exists e: nat :: Pow2(e) == p
  }

  lemma {:induction false} Pow2Order(d: nat, e: nat)
    ensures d <= e ==> Pow2(d) <= Pow2(e)
    ensures d < e ==> 2 * Pow2(d) <= Pow2(e)
    decreases e
  {
    if d < e {
      Pow2Order(d, e - 1);
    }
  }

  /** The exponent frexp reports for a positive integer m: the e with
      2^(e-1) <= m < 2^e. */
  function BitLength(m: nat): (e: nat)
    requires m >= 1
    ensures e >= 1
    ensures Pow2(e - 1) <= m < Pow2(e)
  {
    if m == 1 then 1 else BitLength(m / 2) + 1
  }

  /** |n|. */
  function Magnitude(n: int): nat {
    if n < 0 then -n else n
  }

  /** 2^e as a real, the factor frexp's significand is scaled by. */
  function Pow2Real(e: nat): real {
    Pow2(e) as real
  }

  /** What `math.frexp` returns: n == significand * 2^exponent. */
  datatype Frexp = Frexp(significand: real, exponent: int)

  /** `math.frexp` on an integer: n == significand * 2^exponent with the
      significand in [0.5, 1) in magnitude and carrying n's sign, so the
      exponent is the bit length of |n|; frexp(0) is (0.0, 0). */
  function FrexpOf(n: int): (f: Frexp)
    ensures n == 0 ==> f == Frexp(0.0, 0)
    ensures n != 0 ==> f.exponent >= 1 && Pow2(f.exponent - 1) <= Magnitude(n) < Pow2(f.exponent)
    ensures n != 0 ==> f.significand == n as real / Pow2Real(f.exponent)
    ensures n > 0 ==> 0.5 <= f.significand < 1.0
    ensures n < 0 ==> -1.0 < f.significand <= -0.5
  {
    if n == 0 then Frexp(0.0, 0)
    else
      var e := BitLength(Magnitude(n));
      FrexpParts(n, e);
      Frexp(n as real / Pow2Real(e), e)
  }

  /** n / 2^e for the bit length e of |n| lies in [0.5, 1) in magnitude and
      has the sign of n. */
  lemma FrexpParts(n: int, e: nat)
    requires n != 0 && e == BitLength(Magnitude(n))
    ensures n > 0 ==> 0.5 <= n as real / Pow2Real(e) < 1.0
    ensures n < 0 ==> -1.0 < n as real / Pow2Real(e) <= -0.5
  {
    if n < 0 {
      SignificandBounds(-n, e);
      QuotientBounds(n as real, Pow2Real(e));
    } else {
      SignificandBounds(n, e);
    }
  }

  lemma SignificandBounds(m: nat, e: nat)
    requires m >= 1 && e >= 1
    requires Pow2(e - 1) <= m < Pow2(e)
    ensures 0.5 <= m as real / Pow2(e) as real < 1.0
    ensures m as real / Pow2(e) as real == 0.5 <==> m == Pow2(e - 1)
  {
    var p := Pow2(e) as real;
    assert p == 2.0 * Pow2(e - 1) as real;
    QuotientBounds(m as real, p);
  }

  /** How a quotient by a positive real compares with 1/2 and 1. */
  lemma QuotientBounds(a: real, p: real)
    requires p > 0.0
    ensures a / p < 1.0 <==> a < p
    ensures a / p >= 0.5 <==> 2.0 * a >= p
    ensures a / p == 0.5 <==> 2.0 * a == p
    ensures (-a) / p == -(a / p)
    ensures (a / p) * p == a
  {
    QuotientAtLeastHalf(a, p);
    QuotientBelowOne(a, p);
    QuotientHalf(a, p);
  }

  lemma QuotientBelowOne(a: real, p: real)
    requires p > 0.0
    ensures a / p < 1.0 <==> a < p
  {
  }

  lemma QuotientHalf(a: real, p: real)
    requires p > 0.0
    ensures a / p == 0.5 <==> 2.0 * a == p
  {
  }

  lemma QuotientAtLeastHalf(a: real, p: real)
    requires p > 0.0
    ensures a / p >= 0.5 <==> 2.0 * a >= p
  {
    var q := a / p;
    assert a == q * p;
    if q >= 0.5 {
      assert q * p >= 0.5 * p;
    } else {
      assert q * p < 0.5 * p;
    }
  }

  /** `ceilpow2(n)`: a negative significand answers 1; a significand of
      exactly 0.5 (n a power of two) lowers the exponent by one before the
      shift `1 << exponent`. */
  function CeilPow2(n: int): (p: nat)
    ensures n <= 0 ==> p == 1
    ensures n >= 1 ==> IsPow2(p) && n <= p < 2 * n
  {
    var f := FrexpOf(n);
    if f.significand < 0.0 then 1
    else if f.significand == 0.5 then
      CeilPow2Positive(n, f);
      Pow2(f.exponent - 1)
    else
      assert f.exponent >= 0;
      CeilPow2Positive(n, f);
      Pow2(f.exponent)
  }

  lemma CeilPow2Positive(n: int, f: Frexp)
    requires f == FrexpOf(n) && f.significand >= 0.0
    ensures f.exponent >= 0
    ensures f.significand == 0.5 ==> n >= 1 && f.exponent >= 1 && Pow2(f.exponent - 1) == n
    ensures f.significand != 0.5 && n >= 1 ==>
              Pow2(f.exponent - 1) < n < Pow2(f.exponent) && Pow2(f.exponent) < 2 * n
  {
    if n != 0 {
      var e := BitLength(n);
      SignificandBounds(n, e);
      assert Pow2(e) == 2 * Pow2(e - 1);
    }
  }

  /** The reference meaning of ceilpow2: the least power of two that is at
      least n. */
  ghost predicate IsLeastPow2AtLeast(n: int, p: int) {
    && IsPow2(p)
    && n <= p
    && forall e: nat :: n <= Pow2(e) ==> p <= Pow2(e)
  }

  /** ceilpow2 agrees with its reference meaning on every integer, so an
      exact power of two maps to itself and every n <= 0 maps to 2^0. */
  lemma CeilPow2IsLeast(n: int)
    ensures IsLeastPow2AtLeast(n, CeilPow2(n))
  {
    var p := CeilPow2(n);
    if n <= 0 {
      assert Pow2(0) == p;
    } else {
      var k: nat :| Pow2(k) == p;
      forall e: nat | n <= Pow2(e)
        ensures p <= Pow2(e)
      {
        Pow2Order(e, k);
        Pow2Order(k, e);
      }
    }
  }

  /** A power of two is its own ceiling. */
  lemma CeilPow2OfPow2(e: nat)
    ensures CeilPow2(Pow2(e)) == Pow2(e)
  {
    CeilPow2IsLeast(Pow2(e));
    var k: nat :| Pow2(k) == CeilPow2(Pow2(e));
    Pow2Order(k, e);
    Pow2Order(e, k);
  }

  /** Small worked values: 1, 2 and 3 map to 1, 2 and 4. */
  lemma CeilPow2SmallExamples()
    ensures CeilPow2(1) == 1 && CeilPow2(2) == 2 && CeilPow2(3) == 4
  {
    CeilPow2OfPow2(0);
    CeilPow2OfPow2(1);
    CeilPow2IsLeast(3);
    assert Pow2(2) == 4;
    var k: nat :| Pow2(k) == CeilPow2(3);
    Pow2Order(k, 2);
    Pow2Order(2, k);
  }

  /** Around 2^10: 1024 maps to itself and 1025 to 2048. */
  lemma CeilPow2LargeExamples()
    ensures CeilPow2(1024) == 1024 && CeilPow2(1025) == 2048
  {
    assert Pow2(10) == 1024;
    CeilPow2OfPow2(10);
    assert Pow2(11) == 2048;
    CeilPow2IsLeast(1025);
    var k: nat :| Pow2(k) == CeilPow2(1025);
    Pow2Order(k, 11);
    Pow2Order(11, k);
  }
}
