/**
 * The auto loan calculator: the amount financed is the price plus sales tax
 * less the down payment and trade-in, repaid monthly.  Price, down payment,
 * trade-in and tax default to 0 when they do not parse; the rate does not,
 * so an empty rate passes the guard as NaN and the payments show NaN.
 */
module AutoLoanCalculator {
  import opened Common
  import opened JsMath
  import opened Amortization

  datatype AutoResult = AutoResult(loanAmount: real, payments: LoanResult)

  /** The amount financed: price + price * tax / 100 - down - trade-in. */
  function LoanAmount(price: real, down: real, trade: real, tax: real): real
  {
    price + (price * tax) / 100.0 - down - trade
  }

  /**
   * The handler's result: refused when the amount financed, the monthly rate
   * or the month count is not above 0; otherwise the amortised schedule, NaN
   * when the rate did not parse.
   */
  function AutoLoan(vehiclePrice: Option<real>, downPayment: Option<real>, tradeInValue: Option<real>,
                    loanTerm: int, interestRate: Option<real>, salesTax: Option<real>): (r: Option<AutoResult>)
    ensures var amount := LoanAmount(OrZero(vehiclePrice), OrZero(downPayment), OrZero(tradeInValue), OrZero(salesTax));
      && (r.None? <==> amount <= 0.0 || (interestRate.Some? && interestRate.value <= 0.0) || loanTerm <= 0)
      && (r.Some? ==> r.value.loanAmount == amount)
      && (r.Some? ==> (r.value.payments == NaNResult <==> interestRate.None?))
  {
    var price := OrZero(vehiclePrice);
    var down := OrZero(downPayment);
    var trade := OrZero(tradeInValue);
    var tax := OrZero(salesTax);
    var months := loanTerm;
    var loanAmount := price + (price * tax) / 100.0 - down - trade;
    if loanAmount <= 0.0 || (interestRate.Some? && interestRate.value / 100.0 / 12.0 <= 0.0) || months <= 0
    then None
    else if interestRate.None? then Some(AutoResult(loanAmount, NaNResult))
    else
      var rate := interestRate.value / 100.0 / 12.0;
      PowAboveOneNat(1.0 + rate, months);
      Some(AutoResult(loanAmount, Amortize(loanAmount, rate, Pow(1.0 + rate, months), months as real)))
  }

  /** An accepted loan with a rate: the payment is positive, repays the amount in loanTerm months, with positive interest. */
  lemma AutoLoanRepaid(price: Option<real>, down: Option<real>, trade: Option<real>,
                       loanTerm: int, rate: real, tax: Option<real>)
    requires LoanAmount(OrZero(price), OrZero(down), OrZero(trade), OrZero(tax)) > 0.0
    requires rate > 0.0 && loanTerm > 0
    ensures var res := AutoLoan(price, down, trade, loanTerm, Some(rate), tax).value;
      var amount := LoanAmount(OrZero(price), OrZero(down), OrZero(trade), OrZero(tax));
      && res.payments.Amortized? && res.payments.payment > 0.0
      && Balance(amount, rate / 100.0 / 12.0, res.payments.payment, loanTerm) == 0.0
      && res.payments.totalInterest > 0.0
  {
    var amount := LoanAmount(OrZero(price), OrZero(down), OrZero(trade), OrZero(tax));
    var r := rate / 100.0 / 12.0;
    PowAboveOneNat(1.0 + r, loanTerm);
    PaymentPositive(amount, r, Pow(1.0 + r, loanTerm));
    PaidOff(amount, r, loanTerm);
    TotalExceedsPrincipal(amount, r, loanTerm);
  }

  /** Empty price, down payment, trade-in and tax count as 0, so nothing is financed and the input is refused. */
  lemma EmptyFieldsRefused(loanTerm: int, rate: Option<real>)
    ensures AutoLoan(None, None, None, loanTerm, rate, None).None?
  {
  }

  /** A 20000 car with 5% tax, 2000 down and a 3000 trade-in finances 16000. */
  lemma FinancedExample()
    ensures LoanAmount(20000.0, 2000.0, 3000.0, 5.0) == 16000.0
  {
  }

  /** The page; results keeps the last accepted result. */
  class AutoLoanPage {
    var results: Option<AutoResult>

    constructor ()
      ensures results == None
    {
      results := None;
    }

    /** The Calculate button; a refused input changes nothing. */
    method CalculateAutoLoan(vehiclePrice: Option<real>, downPayment: Option<real>, tradeInValue: Option<real>,
                             loanTerm: int, interestRate: Option<real>, salesTax: Option<real>)
      modifies this
      ensures var r := AutoLoan(vehiclePrice, downPayment, tradeInValue, loanTerm, interestRate, salesTax);
        results == if r.Some? then r else old(results)
    {
      var r := AutoLoan(vehiclePrice, downPayment, tradeInValue, loanTerm, interestRate, salesTax);
      if r.Some? {
        results := r;
      }
    }
  }
}
