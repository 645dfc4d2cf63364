/**
 * The level-payment formula the three loan pages share,
 *   payment = P * (r * g) / (g - 1)   with g = (1 + r)^n,
 * and the schedule it pays off: a balance that grows by the rate each
 * period and falls by one payment.
 */
module Amortization {
  import opened JsMath

  /** What a loan page shows: the payment and the totals, or NaN everywhere for an input that did not parse. */
  datatype LoanResult =
    | Amortized(payment: real, totalPayment: real, totalInterest: real)
    | NaNResult

  /** The payment for principal p at periodic rate r, where g is the growth (1 + r)^n. */
  function PaymentFor(p: real, r: real, g: real): real
    requires g != 1.0
  {
    (p * (r * g)) / (g - 1.0)
  }

  /** The result for n payments: the payment, n of them in total, and the excess over the principal. */
  function Amortize(p: real, r: real, g: real, n: real): (res: LoanResult)
    requires g != 1.0
    ensures res.Amortized? && res.payment == PaymentFor(p, r, g)
    ensures res.totalPayment == res.payment * n && res.totalInterest == res.totalPayment - p
  {
    var payment := PaymentFor(p, r, g);
    Amortized(payment, payment * n, payment * n - p)
  }

  /** A positive principal at a positive rate has a positive payment once the growth exceeds 1. */
  lemma PaymentPositive(p: real, r: real, g: real)
    requires p > 0.0 && r > 0.0 && g > 1.0
    ensures PaymentFor(p, r, g) > 0.0
  {
    MulStrict(r, g, 0.0);
    MulStrict(p, r * g, 0.0);
  }

  /** The balance after n periods: the principal grown by the rate, less one payment per period. */
  function Balance(p: real, r: real, payment: real, n: nat): real
  {
    if n == 0 then p else Balance(p, r, payment, n - 1) * (1.0 + r) - payment
  }

  /** The closed form of the balance, multiplied through by r: B_n * r = P * x^n * r - payment * (x^n - 1). */
  lemma {:induction false} BalanceClosed(p: real, r: real, payment: real, n: nat)
    ensures Balance(p, r, payment, n) * r == p * Pow(1.0 + r, n) * r - payment * (Pow(1.0 + r, n) - 1.0)
  {
    if n == 0 {
      BalanceStart(p, r, payment, Balance(p, r, payment, 0), Pow(1.0 + r, 0));
    } else {
      BalanceClosed(p, r, payment, n - 1);
      BalanceClosedStep(p, r, payment, n);
    }
  }

  /** The inductive step of BalanceClosed: the closed form after n - 1 periods gives it after n. */
  lemma BalanceClosedStep(p: real, r: real, payment: real, n: nat)
    requires n > 0
    requires Balance(p, r, payment, n - 1) * r == p * Pow(1.0 + r, n - 1) * r - payment * (Pow(1.0 + r, n - 1) - 1.0)
    ensures Balance(p, r, payment, n) * r == p * Pow(1.0 + r, n) * r - payment * (Pow(1.0 + r, n) - 1.0)
  {
    BalanceStep(p, r, payment, Balance(p, r, payment, n - 1), Pow(1.0 + r, n - 1),
                Balance(p, r, payment, n), Pow(1.0 + r, n));
  }

  lemma BalanceStart(p: real, r: real, payment: real, b: real, y: real)
    requires b == p && y == 1.0
    ensures b * r == p * y * r - payment * (y - 1.0)
  {
  }

  /** One period: the closed form for b and y carries over to the next balance and power. */
  lemma BalanceStep(p: real, r: real, payment: real, b: real, y: real, next: real, ny: real)
    requires b * r == p * y * r - payment * (y - 1.0)
    requires next == b * (1.0 + r) - payment && ny == (1.0 + r) * y
    ensures next * r == p * ny * r - payment * (ny - 1.0)
  {
    assert (b * (1.0 + r) - payment) * r == (1.0 + r) * (b * r) - payment * r;
    assert (1.0 + r) * (p * y * r) == p * ((1.0 + r) * y) * r;
    assert (1.0 + r) * (payment * (y - 1.0)) + payment * r == payment * ((1.0 + r) * y - 1.0);
  }

  /** The formula's payment, made k times at a rate above 0, pays the loan off exactly. */
  lemma PaidOff(p: real, r: real, k: nat)
    requires r > 0.0 && k >= 1
    ensures Pow(1.0 + r, k) > 1.0
    ensures Balance(p, r, PaymentFor(p, r, Pow(1.0 + r, k)), k) == 0.0
  {
    var g := Pow(1.0 + r, k);
    PowAboveOneNat(1.0 + r, k);
    var payment := PaymentFor(p, r, g);
    assert payment * (g - 1.0) == p * (r * g);
    BalanceClosed(p, r, payment, k);
    ZeroProduct(Balance(p, r, payment, k), r);
  }

  lemma ZeroProduct(b: real, r: real)
    requires r > 0.0 && b * r == 0.0
    ensures b == 0.0
  {
  }

  /** With a rate above 0, k payments add up to more than the principal. */
  lemma TotalExceedsPrincipal(p: real, r: real, k: nat)
    requires p > 0.0 && r > 0.0 && k >= 1
    ensures Pow(1.0 + r, k) > 1.0
    ensures var res := Amortize(p, r, Pow(1.0 + r, k), k as real);
      res.totalPayment > p && res.totalInterest > 0.0
  {
    var x := 1.0 + r;
    var g := Pow(x, k);
    PowAboveOneNat(x, k);
    PowGrowthBound(x, k);
    assert g - 1.0 < (k as real) * r * g;
    TotalStep(p, r, g, k as real);
  }

  lemma TotalStep(p: real, r: real, g: real, n: real)
    requires p > 0.0 && g > 1.0 && g - 1.0 < n * r * g
    ensures PaymentFor(p, r, g) * n > p
  {
    var payment := PaymentFor(p, r, g);
    assert payment * (g - 1.0) == p * (r * g);
    MulStrict(p, n * r * g, g - 1.0);
    assert payment * n * (g - 1.0) == p * (n * r * g);
    assert p * (g - 1.0) < payment * n * (g - 1.0);
    if payment * n <= p {
      MulMonotone(g - 1.0, p, payment * n);
      assert false;
    }
  }

  /** A single payment repays the principal with one period's interest. */
  lemma SinglePayment(p: real, r: real)
    requires r > 0.0
    ensures Pow(1.0 + r, 1) == 1.0 + r
    ensures PaymentFor(p, r, Pow(1.0 + r, 1)) == p * (1.0 + r)
  {
    assert Pow(1.0 + r, 1) == (1.0 + r) * Pow(1.0 + r, 0);
    assert (p * (r * (1.0 + r))) / r == p * (1.0 + r);
  }
}
