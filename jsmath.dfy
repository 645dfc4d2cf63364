/** The parts of JavaScript's Math object that the pages use, on exact reals.
    Transcendental functions are not computed: a page receives them as the
    function-valued fields of a RealLib value, so nothing is assumed about them. */
module JsMath {

  /** Math.sqrt, Math.acos, Math.log10 and Math.pow with a real exponent, left uninterpreted. */
  datatype RealLib = RealLib(
    sqrt: real -> real,
    acos: real -> real,
    log10: real -> real,
    pow: (real, real) -> real)

  /** Math.PI, as the decimal JavaScript prints for it. */
  const PI: real := 3.141592653589793

  /** x raised to a natural power. */
  function Pow(x: real, n: nat): real
  {
    if n == 0 then 1.0 else x * Pow(x, n - 1)
  }

  /** True when y is a whole number that is not negative. */
  predicate IsNatural(y: real)
  {
    y >= 0.0 && y == y.Floor as real
  }

  /** Math.pow(x, y): the exact power when the exponent is a natural number,
      the uninterpreted library power otherwise. */
  function MathPow(x: real, y: real, lib: RealLib): (r: real)
    ensures IsNatural(y) ==> r == Pow(x, y.Floor as nat)
  {
    if IsNatural(y) then Pow(x, y.Floor as nat) else lib.pow(x, y)
  }

  /** A library power that, like the real one, exceeds 1 for a base above 1 and a
      positive exponent. */
  ghost predicate PowAboveOne(lib: RealLib)
  {
    forall x: real, y: real {:trigger lib.pow(x, y)} :: x > 1.0 && y > 0.0 ==> lib.pow(x, y) > 1.0
  }

  lemma {:induction false} PowPositive(x: real, n: nat)
    requires x > 0.0
    ensures Pow(x, n) > 0.0
  {
    if n > 0 {
      PowPositive(x, n - 1);
    }
  }

  lemma {:induction false} PowAboveOneNat(x: real, n: nat)
    requires x > 1.0 && n >= 1
    ensures Pow(x, n) > 1.0
  {
    if n > 1 {
      PowAboveOneNat(x, n - 1);
      assert Pow(x, n) == x * Pow(x, n - 1);
    }
  }

  lemma MulMonotone(a: real, b: real, c: real)
    requires a >= 0.0 && b >= c
    ensures a * b >= a * c
  {
    assert a * b - a * c == a * (b - c);
  }

  lemma MulStrict(a: real, b: real, c: real)
    requires a > 0.0 && b > c
    ensures a * b > a * c
  {
    assert a * b - a * c == a * (b - c);
  }

  /** Bernoulli's inequality: (1 + h)^n >= 1 + n·h for h >= -1. */
  lemma {:induction false} Bernoulli(h: real, n: nat)
    requires h >= -1.0
    ensures Pow(1.0 + h, n) >= 1.0 + (n as real) * h
  {
    if n > 0 {
      Bernoulli(h, n - 1);
      BernoulliStep(h, Pow(1.0 + h, n - 1), Pow(1.0 + h, n), (n - 1) as real, n as real);
    }
  }

  /** One induction step of Bernoulli, on plain reals. */
  lemma BernoulliStep(h: real, p: real, q: real, m: real, k: real)
    requires h >= -1.0 && m >= 0.0 && p >= 1.0 + m * h
    requires q == (1.0 + h) * p && k == m + 1.0
    ensures q >= 1.0 + k * h
  {
    MulMonotone(1.0 + h, p, 1.0 + m * h);
    assert (1.0 + h) * (1.0 + m * h) == 1.0 + k * h + m * (h * h);
    MulMonotone(m, h * h, 0.0);
  }

  /** The amortisation bound: x^n - 1 < n·(x - 1)·x^n for x > 1 and n >= 1
      (the n powers x^0 .. x^(n-1), whose sum times x - 1 is x^n - 1, are each below x^n). */
  lemma {:induction false} PowGrowthBound(x: real, n: nat)
    requires x > 1.0 && n >= 1
    ensures Pow(x, n) - 1.0 < (n as real) * (x - 1.0) * Pow(x, n)
  {
    if n == 1 {
      assert Pow(x, n) == x * Pow(x, 0);
      GrowthStep(x, x - 1.0, 1.0, Pow(x, n), 0.0, n as real);
    } else {
      PowGrowthBound(x, n - 1);
      PowAboveOneNat(x, n - 1);
      GrowthStep(x, x - 1.0, Pow(x, n - 1), Pow(x, n), (n - 1) as real, n as real);
    }
  }

  /** One induction step of PowGrowthBound, on plain reals. */
  lemma GrowthStep(x: real, h: real, p: real, q: real, m: real, k: real)
    requires h > 0.0 && x == 1.0 + h && p >= 1.0 && m >= 0.0
    requires q == x * p && k == m + 1.0
    requires p - 1.0 <= m * h * p
    ensures q - 1.0 < k * h * q
  {
    // q − 1 = x·(p − 1) + h <= m·h·q + h < m·h·q + h·q
    GrowthProducts(x, h, p, q, m, k);
    MulMonotone(x, m * h * p, p - 1.0);
    MulMonotone(x, p, 1.0);
    MulStrict(h, q, 1.0);
    assert q - 1.0 == x * (p - 1.0) + h;
    assert x * (p - 1.0) <= m * h * q;
    assert h < h * q;
  }

  /** The product identities of GrowthStep. */
  lemma GrowthProducts(x: real, h: real, p: real, q: real, m: real, k: real)
    requires q == x * p && k == m + 1.0
    ensures x * (m * h * p) == m * h * q
    ensures x * (p - 1.0) == q - x
    ensures k * h * q == m * h * q + h * q
    ensures x * 1.0 == x && h * 1.0 == h
  {
  }
}
