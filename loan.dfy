/**
 * The loan calculator: a payment per period for a chosen frequency.  The
 * term is free text in years, so the number of payments years * frequency
 * need not be whole; Math.pow then uses the library power.  An amount, rate
 * or term that does not parse passes the guard as NaN and the page shows
 * NaN results.
 */
module LoanCalculator {
  import opened Common
  import opened JsMath
  import opened Amortization

  /** Payments per year: weekly 52, biweekly 26, quarterly 4, annually 1, and 12 for anything else. */
  function PaymentsPerYear(frequency: string): (n: nat)
    ensures n in {52, 26, 12, 4, 1}
    ensures frequency == "monthly" ==> n == 12
    ensures n == 1 <==> frequency == "annually"
  {
    if frequency == "weekly" then 52
    else if frequency == "biweekly" then 26
    else if frequency == "quarterly" then 4
    else if frequency == "annually" then 1
    else 12
  }

  /** The if-chain of the handler: each later match overrides the default of 12. */
  method Frequency(frequency: string) returns (paymentsPerYear: nat)
    ensures paymentsPerYear == PaymentsPerYear(frequency)
  {
    paymentsPerYear := 12;
    if frequency == "weekly" { paymentsPerYear := 52; }
    if frequency == "biweekly" { paymentsPerYear := 26; }
    if frequency == "quarterly" { paymentsPerYear := 4; }
    if frequency == "annually" { paymentsPerYear := 1; }
  }

  /**
   * The handler's result: refused when the amount, the periodic rate or the
   * payment count is a number at or below 0; NaN when an input did not parse;
   * otherwise the amortised payment over years * frequency payments.
   */
  function Loan(loanAmount: Option<real>, interestRate: Option<real>, loanTerm: Option<real>,
                frequency: string, lib: RealLib): (r: Option<LoanResult>)
    requires PowAboveOne(lib)
    ensures r.None? <==>
      (loanAmount.Some? && loanAmount.value <= 0.0)
      || (interestRate.Some? && interestRate.value <= 0.0)
      || (loanTerm.Some? && loanTerm.value <= 0.0)
    ensures r == Some(NaNResult) <==>
      r.Some? && (loanAmount.None? || interestRate.None? || loanTerm.None?)
  {
    var paymentsPerYear := PaymentsPerYear(frequency) as real;
    if (loanAmount.Some? && loanAmount.value <= 0.0)
       || (interestRate.Some? && interestRate.value / 100.0 / paymentsPerYear <= 0.0)
       || (loanTerm.Some? && loanTerm.value * paymentsPerYear <= 0.0)
    then None
    else if loanAmount.None? || interestRate.None? || loanTerm.None? then Some(NaNResult)
    else
      var rate := interestRate.value / 100.0 / paymentsPerYear;
      var n := loanTerm.value * paymentsPerYear;
      PowAbove(rate, n, lib);
      Some(Amortize(loanAmount.value, rate, MathPow(1.0 + rate, n, lib), n))
  }

  /** Math.pow(1 + r, n) exceeds 1 for r above 0 and n above 0. */
  lemma PowAbove(r: real, n: real, lib: RealLib)
    requires PowAboveOne(lib) && r > 0.0 && n > 0.0
    ensures MathPow(1.0 + r, n, lib) > 1.0
  {
    if IsNatural(n) {
      PowAboveOneNat(1.0 + r, n.Floor);
    }
  }

  /** Every accepted loan with parsed inputs has a positive payment. */
  lemma LoanPaymentPositive(amount: real, rate: real, years: real, frequency: string, lib: RealLib)
    requires PowAboveOne(lib) && amount > 0.0 && rate > 0.0 && years > 0.0
    ensures Loan(Some(amount), Some(rate), Some(years), frequency, lib).value.payment > 0.0
  {
    var ppy := PaymentsPerYear(frequency) as real;
    var r := rate / 100.0 / ppy;
    var n := years * ppy;
    MulStrict(years, ppy, 0.0);
    PowAbove(r, n, lib);
    PaymentPositive(amount, r, MathPow(1.0 + r, n, lib));
  }

  /**
   * When years * frequency is a whole number k, the power is exact, the k
   * payments pay the loan off, and they add up to more than the amount.
   */
  lemma WholePayments(amount: real, rate: real, years: real, frequency: string, lib: RealLib, k: nat)
    requires PowAboveOne(lib) && amount > 0.0 && rate > 0.0 && k >= 1
    requires years * (PaymentsPerYear(frequency) as real) == k as real
    ensures var res := Loan(Some(amount), Some(rate), Some(years), frequency, lib).value;
      var r := rate / 100.0 / (PaymentsPerYear(frequency) as real);
      && res.Amortized?
      && Balance(amount, r, res.payment, k) == 0.0
      && res.totalPayment > amount && res.totalInterest > 0.0
  {
    var ppy := PaymentsPerYear(frequency) as real;
    var r := rate / 100.0 / ppy;
    PeriodicRatePositive(rate, ppy);
    PaidOff(amount, r, k);
    TotalExceedsPrincipal(amount, r, k);
    WholeLoan(amount, rate, years, frequency, lib, k, ppy, r);
  }

  /** A positive annual percentage gives a positive rate per period. */
  lemma PeriodicRatePositive(rate: real, ppy: real)
    requires rate > 0.0 && ppy > 0.0
    ensures rate / 100.0 / ppy > 0.0
  {
  }

  /** With k whole payments, the handler amortises over k with the exact power. */
  lemma WholeLoan(amount: real, rate: real, years: real, frequency: string, lib: RealLib, k: nat, ppy: real, r: real)
    requires PowAboveOne(lib) && amount > 0.0 && rate > 0.0 && k >= 1
    requires ppy == PaymentsPerYear(frequency) as real && r == rate / 100.0 / ppy && r > 0.0
    requires years * ppy == k as real && Pow(1.0 + r, k) > 1.0
    ensures Loan(Some(amount), Some(rate), Some(years), frequency, lib) == Some(Amortize(amount, r, Pow(1.0 + r, k), k as real))
  {
    assert IsNatural(k as real) && (k as real).Floor == k;
  }

  /** One annual payment repays the amount with one year's interest. */
  lemma OneAnnualPayment(amount: real, rate: real, lib: RealLib)
    requires PowAboveOne(lib) && amount > 0.0 && rate > 0.0
    ensures Loan(Some(amount), Some(rate), Some(1.0), "annually", lib).value.payment == amount * (1.0 + rate / 100.0)
  {
    var r := rate / 100.0;
    assert IsNatural(1.0) && (1.0).Floor == 1;
    SinglePayment(amount, r);
  }

  /** The page: the chosen frequency and the last accepted result. */
  class LoanPage {
    var paymentFrequency: string
    var results: Option<LoanResult>

    constructor ()
      ensures paymentFrequency == "monthly" && results == None
    {
      paymentFrequency := "monthly";
      results := None;
    }

    method SetPaymentFrequency(frequency: string)
      modifies this
      ensures paymentFrequency == frequency && results == old(results)
    {
      paymentFrequency := frequency;
    }

    /** The Calculate button; a refused input changes nothing. */
    method CalculateLoan(loanAmount: Option<real>, interestRate: Option<real>, loanTerm: Option<real>,
                         lib: RealLib)
      requires PowAboveOne(lib)
      modifies this
      ensures paymentFrequency == old(paymentFrequency)
      ensures var r := Loan(loanAmount, interestRate, loanTerm, paymentFrequency, lib);
        results == if r.Some? then r else old(results)
    {
      var r := Loan(loanAmount, interestRate, loanTerm, paymentFrequency, lib);
      if r.Some? {
        results := r;
      }
    }
  }
}
