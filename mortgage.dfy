/**
 * The mortgage calculator: the monthly payment on the home price less the
 * down payment.  A price, down payment or rate that does not parse is NaN in
 * the page; NaN fails every comparison of the guard, so the page then shows
 * NaN results.
 */
module MortgageCalculator {
  import opened Common
  import opened JsMath
  import opened Amortization

  /**
   * The handler's result: refused (None) when principal, monthly rate or
   * payment count is a number at or below 0; NaN when an input did not parse;
   * otherwise the amortised payment over years * 12 months.
   */
  function Mortgage(homePrice: Option<real>, downPayment: Option<real>, loanTerm: int,
                    interestRate: Option<real>): (r: Option<LoanResult>)
    ensures var k := loanTerm * 12;
      && (r.None? <==>
            (homePrice.Some? && downPayment.Some? && homePrice.value - downPayment.value <= 0.0)
            || (interestRate.Some? && interestRate.value <= 0.0) || k <= 0)
      && (r == Some(NaNResult) <==>
            r.Some? && (homePrice.None? || downPayment.None? || interestRate.None?))
  {
    var k := loanTerm * 12;
    if (homePrice.Some? && downPayment.Some? && homePrice.value - downPayment.value <= 0.0)
       || (interestRate.Some? && interestRate.value / 100.0 / 12.0 <= 0.0) || k <= 0
    then None
    else if homePrice.None? || downPayment.None? || interestRate.None? then Some(NaNResult)
    else
      var principal := homePrice.value - downPayment.value;
      var rate := interestRate.value / 100.0 / 12.0;
      PowAboveOneNat(1.0 + rate, k);
      Some(Amortize(principal, rate, Pow(1.0 + rate, k), k as real))
  }

  /**
   * An accepted mortgage: the payment is positive, pays the principal off in
   * exactly years * 12 months, and the interest is positive.
   */
  lemma MortgageRepaid(price: real, down: real, loanTerm: int, rate: real)
    requires price - down > 0.0 && rate > 0.0 && loanTerm > 0
    ensures var res := Mortgage(Some(price), Some(down), loanTerm, Some(rate)).value;
      var r := rate / 100.0 / 12.0;
      && res.Amortized? && res.payment > 0.0
      && Balance(price - down, r, res.payment, loanTerm * 12) == 0.0
      && res.totalPayment == res.payment * ((loanTerm * 12) as real)
      && res.totalInterest > 0.0
  {
    var r := rate / 100.0 / 12.0;
    var k := loanTerm * 12;
    PowAboveOneNat(1.0 + r, k);
    PaymentPositive(price - down, r, Pow(1.0 + r, k));
    PaidOff(price - down, r, k);
    TotalExceedsPrincipal(price - down, r, k);
  }

  /** An empty rate field passes the guard and gives NaN results. */
  lemma EmptyRate(price: real, down: real, loanTerm: int)
    requires price - down > 0.0 && loanTerm > 0
    ensures Mortgage(Some(price), Some(down), loanTerm, None) == Some(NaNResult)
  {
  }

  /** The page; results keeps the last accepted result. */
  class MortgagePage {
    var results: Option<LoanResult>

    constructor ()
      ensures results == None
    {
      results := None;
    }

    /** The Calculate button; a refused input changes nothing. */
    method CalculateMortgage(homePrice: Option<real>, downPayment: Option<real>, loanTerm: int,
                             interestRate: Option<real>)
      modifies this
      ensures var r := Mortgage(homePrice, downPayment, loanTerm, interestRate);
        results == if r.Some? then r else old(results)
    {
      var r := Mortgage(homePrice, downPayment, loanTerm, interestRate);
      if r.Some? {
        results := r;
      }
    }
  }
}
