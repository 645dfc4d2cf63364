/**
 * The interest calculator: simple interest p·r·t beside interest compounded
 * n times a year, p·(1 + r/n)^(n·t), and the additional earnings of the
 * second over the first.  A principal, rate or time that does not parse
 * passes the guard as NaN and the page shows NaN results.
 */
module InterestCalculator {
  import opened Common
  import opened JsMath

  /** Compounding periods per year: monthly 12, quarterly 4, daily 365, and 1 for anything else. */
  function CompoundsPerYear(frequency: string): (n: nat)
    ensures n in {1, 4, 12, 365}
    ensures n == 1 <==> frequency !in {"monthly", "quarterly", "daily"}
  {
    if frequency == "monthly" then 12
    else if frequency == "quarterly" then 4
    else if frequency == "daily" then 365
    else 1
  }

  /** The if-chain of the handler: n starts at 1 (annually) and a matching frequency reassigns it. */
  method Frequency(frequency: string) returns (n: nat)
    ensures n == CompoundsPerYear(frequency)
  {
    n := 1;
    if frequency == "monthly" { n := 12; }
    if frequency == "quarterly" { n := 4; }
    if frequency == "daily" { n := 365; }
  }

  /** What the page shows: both interests and both totals, or NaN everywhere for an input that did not parse. */
  datatype InterestResult =
    | Interest(simpleInterest: real, compoundInterest: real, totalAmountSimple: real, totalAmountCompound: real)
    | NaNInterest

  /** The "Additional Earnings vs Simple" figure. */
  function AdditionalEarnings(res: InterestResult): real
    requires res.Interest?
  {
    res.compoundInterest - res.simpleInterest
  }

  /**
   * The handler's result: refused when the principal, the rate or the time is
   * a number at or below 0; NaN when an input did not parse; otherwise both
   * interests, each total being the principal plus its interest.
   */
  function CalculateInterest(principal: Option<real>, rate: Option<real>, time: Option<real>,
                             frequency: string, lib: RealLib): (r: Option<InterestResult>)
    ensures r.None? <==>
      (principal.Some? && principal.value <= 0.0)
      || (rate.Some? && rate.value <= 0.0)
      || (time.Some? && time.value <= 0.0)
    ensures r == Some(NaNInterest) <==> r.Some? && (principal.None? || rate.None? || time.None?)
    ensures r.Some? && r.value.Interest? ==>
      && r.value.simpleInterest * 100.0 == principal.value * rate.value * time.value
      && r.value.totalAmountSimple == principal.value + r.value.simpleInterest
      && r.value.totalAmountCompound == principal.value + r.value.compoundInterest
  {
    if (principal.Some? && principal.value <= 0.0)
       || (rate.Some? && rate.value / 100.0 <= 0.0)
       || (time.Some? && time.value <= 0.0)
    then None
    else if principal.None? || rate.None? || time.None? then Some(NaNInterest)
    else
      var p := principal.value;
      var r := rate.value / 100.0;
      var t := time.value;
      var simpleInterest := p * r * t;
      var n := CompoundsPerYear(frequency) as real;
      var totalAmountCompound := p * MathPow(1.0 + r / n, n * t, lib);
      Some(Interest(simpleInterest, totalAmountCompound - p, p + simpleInterest, totalAmountCompound))
  }

  /** Strict Bernoulli: (1 + h)^k > 1 + k·h for h > 0 and k >= 2. */
  lemma {:induction false} BernoulliStrict(h: real, k: nat)
    requires h > 0.0 && k >= 2
    ensures Pow(1.0 + h, k) > 1.0 + (k as real) * h
  {
    if k == 2 {
      assert Pow(1.0 + h, 1) == (1.0 + h) * Pow(1.0 + h, 0);
      assert Pow(1.0 + h, 2) == (1.0 + h) * Pow(1.0 + h, 1);
      assert (1.0 + h) * (1.0 + h) == 1.0 + 2.0 * h + h * h;
      assert h * h > 0.0;
    } else {
      BernoulliStrict(h, k - 1);
      StrictStep(h, Pow(1.0 + h, k - 1), Pow(1.0 + h, k), (k - 1) as real, k as real);
    }
  }

  /** One induction step of BernoulliStrict, on plain reals. */
  lemma StrictStep(h: real, p: real, q: real, m: real, k: real)
    requires h > 0.0 && m >= 0.0 && p > 1.0 + m * h
    requires q == (1.0 + h) * p && k == m + 1.0
    ensures q > 1.0 + k * h
  {
    MulStrict(1.0 + h, p, 1.0 + m * h);
    assert (1.0 + h) * (1.0 + m * h) == 1.0 + k * h + m * (h * h);
    MulMonotone(m, h * h, 0.0);
  }

  /**
   * When n·t is a whole number k of periods, compounding earns at least as much
   * as simple interest, and strictly more once there are two periods or more.
   */
  lemma CompoundBeatsSimple(p: real, rate: real, t: real, frequency: string, lib: RealLib, k: nat)
    requires p > 0.0 && rate > 0.0 && t > 0.0
    requires (CompoundsPerYear(frequency) as real) * t == k as real
    ensures var res := CalculateInterest(Some(p), Some(rate), Some(t), frequency, lib).value;
      && res.Interest?
      && res.totalAmountCompound >= res.totalAmountSimple
      && AdditionalEarnings(res) >= 0.0
      && (k >= 2 ==> AdditionalEarnings(res) > 0.0)
  {
    var r := rate / 100.0;
    var n := CompoundsPerYear(frequency) as real;
    var h := r / n;
    WholeInterest(p, rate, t, frequency, lib, k, n, r, h);
    GrowthBeatsSimple(h, n, r, t, k);
    InterestComparison(CalculateInterest(Some(p), Some(rate), Some(t), frequency, lib).value,
                       p, r, t, Pow(1.0 + h, k), k >= 2);
  }

  /** k = n·t periods at r/n grow by at least 1 + r·t, and by more from two periods on. */
  lemma GrowthBeatsSimple(h: real, n: real, r: real, t: real, k: nat)
    requires n > 0.0 && r > 0.0 && h == r / n && n * t == k as real
    ensures Pow(1.0 + h, k) >= 1.0 + r * t
    ensures k >= 2 ==> Pow(1.0 + h, k) > 1.0 + r * t
  {
    assert h > 0.0;
    PeriodsTimesRate(h, n, r, t, k);
    Bernoulli(h, k);
    if k >= 2 {
      BernoulliStrict(h, k);
    }
  }

  /** With growth g of at least 1 + r·t the compound total and the additional earnings are as stated. */
  lemma InterestComparison(res: InterestResult, p: real, r: real, t: real, g: real, strict: bool)
    requires p > 0.0 && g >= 1.0 + r * t && (strict ==> g > 1.0 + r * t)
    requires res == Interest(p * r * t, p * g - p, p + p * r * t, p * g)
    ensures res.Interest? && res.totalAmountCompound >= res.totalAmountSimple
    ensures AdditionalEarnings(res) >= 0.0
    ensures strict ==> AdditionalEarnings(res) > 0.0
  {
    ExtraEarnings(p, r, t, g);
    Scaled(p, g - (1.0 + r * t));
  }

  /** With k whole periods the handler's power is exact. */
  lemma WholeInterest(p: real, rate: real, t: real, frequency: string, lib: RealLib, k: nat, n: real, r: real, h: real)
    requires p > 0.0 && rate > 0.0 && t > 0.0
    requires n == CompoundsPerYear(frequency) as real && n * t == k as real
    requires r == rate / 100.0 && h == r / n
    ensures CalculateInterest(Some(p), Some(rate), Some(t), frequency, lib).Some?
    ensures CalculateInterest(Some(p), Some(rate), Some(t), frequency, lib).value
      == Interest(p * r * t, p * Pow(1.0 + h, k) - p, p + p * r * t, p * Pow(1.0 + h, k))
  {
    assert IsNatural(k as real) && (k as real).Floor == k;
  }

  /** k = n·t periods at the rate r/n earn the rate r over t years in simple terms. */
  lemma PeriodsTimesRate(h: real, n: real, r: real, t: real, k: nat)
    requires n > 0.0 && h == r / n && n * t == k as real
    ensures (k as real) * h == r * t
  {
    assert h * n == r;
    assert (k as real) * h == t * (h * n);
  }

  /** The compound interest less the simple interest, factored: p·(g − (1 + r·t)). */
  lemma ExtraEarnings(p: real, r: real, t: real, g: real)
    ensures (p * g - p) - p * r * t == p * (g - (1.0 + r * t))
  {
  }

  /** A positive principal keeps the sign of what it multiplies. */
  lemma Scaled(p: real, d: real)
    requires p > 0.0
    ensures d >= 0.0 ==> p * d >= 0.0
    ensures d > 0.0 ==> p * d > 0.0
  {
    if d > 0.0 {
      MulStrict(p, d, 0.0);
    } else if d == 0.0 {
      assert p * d == 0.0;
    }
  }

  /** Compounding once a year for one year is the same as simple interest. */
  lemma OneYearAnnually(p: real, rate: real, lib: RealLib)
    requires p > 0.0 && rate > 0.0
    ensures var res := CalculateInterest(Some(p), Some(rate), Some(1.0), "annually", lib).value;
      res.Interest? && AdditionalEarnings(res) == 0.0
  {
    var r := rate / 100.0;
    assert IsNatural(1.0);
    assert Pow(1.0 + r, 1) == (1.0 + r) * Pow(1.0 + r, 0);
  }

  /** An empty time field passes the guard and gives NaN results. */
  lemma EmptyTime(p: real, rate: real, frequency: string, lib: RealLib)
    requires p > 0.0 && rate > 0.0
    ensures CalculateInterest(Some(p), Some(rate), None, frequency, lib) == Some(NaNInterest)
  {
  }

  /** The page: the chosen compounding frequency and the last accepted result. */
  class InterestPage {
    var compoundFrequency: string
    var results: Option<InterestResult>

    constructor ()
      ensures compoundFrequency == "annually" && results == None
    {
      compoundFrequency := "annually";
      results := None;
    }

    method SetCompoundFrequency(frequency: string)
      modifies this
      ensures compoundFrequency == frequency && results == old(results)
    {
      compoundFrequency := frequency;
    }

    /** The Calculate button; a refused input changes nothing. */
    method Calculate(principal: Option<real>, rate: Option<real>, time: Option<real>, lib: RealLib)
      modifies this
      ensures compoundFrequency == old(compoundFrequency)
      ensures var r := CalculateInterest(principal, rate, time, compoundFrequency, lib);
        results == if r.Some? then r else old(results)
    {
      var r := CalculateInterest(principal, rate, time, compoundFrequency, lib);
      if r.Some? {
        results := r;
      }
    }
  }
}
