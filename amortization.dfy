/** The fixed-rate loan payment helper (`calculateAmortizedPayment`) and the
    loan balance it is meant to pay down. */
module Amortization {
  import opened Common

  function Pow(b: real, n: nat): real {
    if n == 0 then 1.0 else b * Pow(b, n - 1)
  }

  /** `Math.round(x * 100) / 100`: JavaScript rounds halves towards +infinity. */
  function RoundCents(x: real): (r: real)
    ensures x - 0.005 < r <= x + 0.005
    ensures (r * 100.0).Floor as real == r * 100.0
  {
    var cents := (x * 100.0 + 0.5).Floor;
    assert cents as real <= x * 100.0 + 0.5 < cents as real + 1.0;
    assert (cents as real / 100.0) * 100.0 == cents as real;
    cents as real / 100.0
  }

  /** `apr / 100 / 12`: the yearly percentage rate as a monthly fraction. */
  function MonthlyRate(apr: real): (rate: real)
    ensures rate * 1200.0 == apr
  {
    apr / 100.0 / 12.0
  }

  /** The exact annuity payment `P·r·g / (g − 1)` with `g = (1 + r)^n`. */
  function Annuity(principal: real, rate: real, n: nat): (payment: real)
    requires Pow(1.0 + rate, n) != 1.0
    ensures payment * (Pow(1.0 + rate, n) - 1.0) == principal * rate * Pow(1.0 + rate, n)
  {
    var growth := Pow(1.0 + rate, n);
    principal * rate * growth / (growth - 1.0)
  }

  /** The monthly payment for a loan of `principal` at `apr` percent a year over
      `termYears` years. None stands for the non-finite value JavaScript
      produces when it divides by zero: a zero rate over a zero term, or a
      nonzero rate whose growth factor over the term is exactly 1. */
  function CalculateAmortizedPayment(principal: real, apr: real, termYears: nat): (payment: Option<real>)
    ensures payment.None? <==>
      if apr == 0.0 then termYears == 0
      else termYears > 0 && Pow(1.0 + MonthlyRate(apr), 12 * termYears) == 1.0
    ensures apr == 0.0 && termYears > 0 ==>
      payment == Some(principal / (12 * termYears) as real)
    ensures apr != 0.0 && termYears == 0 ==> payment == Some(0.0)
    ensures apr != 0.0 && payment.Some? && termYears > 0 ==>
      var exact := Annuity(principal, MonthlyRate(apr), 12 * termYears);
      exact - 0.005 < payment.value <= exact + 0.005 &&
      (payment.value * 100.0).Floor as real == payment.value * 100.0
  {
    var monthlyRate := MonthlyRate(apr);
    var totalPayments := termYears * 12;
    if monthlyRate == 0.0 then
      if totalPayments == 0 then None else Some(principal / totalPayments as real)
    else if totalPayments == 0 then Some(0.0)
    else
      var growth := Pow(1.0 + monthlyRate, totalPayments);
      if growth - 1.0 == 0.0 then None
      else Some(RoundCents(Annuity(principal, monthlyRate, totalPayments)))
  }

  /** What is still owed after `k` monthly payments of `payment`, interest at
      `rate` per month being added before each payment. */
  function RemainingBalance(principal: real, rate: real, payment: real, k: nat): real {
    if k == 0 then principal
    else RemainingBalance(principal, rate, payment, k - 1) * (1.0 + rate) - payment
  }

  /** One month of the closed form: if `owed` satisfies it at growth `g`,
      then a month's interest and payment keep it satisfied. */
  lemma ClosedFormStep(start: real, rate: real, payment: real, owed: real, g: real, owedNext: real, gNext: real)
    requires owed * rate - payment == start * g
    requires owedNext == owed * (1.0 + rate) - payment
    requires gNext == (1.0 + rate) * g
    ensures owedNext * rate - payment == start * gNext
  {
    assert owedNext * rate - payment == (1.0 + rate) * (owed * rate - payment);
  }

  lemma ClosedFormNext(principal: real, rate: real, payment: real, k: nat)
    requires k > 0
    requires RemainingBalance(principal, rate, payment, k - 1) * rate - payment ==
      (principal * rate - payment) * Pow(1.0 + rate, k - 1)
    ensures RemainingBalance(principal, rate, payment, k) * rate - payment ==
      (principal * rate - payment) * Pow(1.0 + rate, k)
  {
    ClosedFormStep(principal * rate - payment, rate, payment,
                   RemainingBalance(principal, rate, payment, k - 1), Pow(1.0 + rate, k - 1),
                   RemainingBalance(principal, rate, payment, k), Pow(1.0 + rate, k));
  }

  /** What is owed, scaled by the rate and less one payment, grows by the
      monthly factor each month. */
  lemma {:induction false} RemainingClosedForm(principal: real, rate: real, payment: real, k: nat)
    ensures RemainingBalance(principal, rate, payment, k) * rate - payment ==
      (principal * rate - payment) * Pow(1.0 + rate, k)
  {
    if k > 0 {
      RemainingClosedForm(principal, rate, payment, k - 1);
      ClosedFormNext(principal, rate, payment, k);
    }
  }

  lemma {:induction false} RemainingWithoutInterest(principal: real, payment: real, k: nat)
    ensures RemainingBalance(principal, 0.0, payment, k) == principal - k as real * payment
  {
    if k > 0 {
      RemainingWithoutInterest(principal, payment, k - 1);
    }
  }

  /** Without interest, `n` equal payments of `principal / n` clear the loan. */
  lemma EqualPaymentsRetire(principal: real, n: nat)
    requires n > 0
    ensures RemainingBalance(principal, 0.0, principal / n as real, n) == 0.0
  {
    RemainingWithoutInterest(principal, principal / n as real, n);
  }

  /** With interest, `n` exact annuity payments clear the loan. */
  lemma AnnuityRetires(principal: real, rate: real, n: nat)
    requires rate != 0.0 && Pow(1.0 + rate, n) != 1.0
    ensures RemainingBalance(principal, rate, Annuity(principal, rate, n), n) == 0.0
  {
    var g := Pow(1.0 + rate, n);
    var exact := Annuity(principal, rate, n);
    RemainingClosedForm(principal, rate, exact, n);
    var owed := RemainingBalance(principal, rate, exact, n);
    assert owed * rate == 0.0;
  }

  /** The payment pays the loan off over the term: exactly when the rate is
      zero, and to within half a cent per payment of the exact annuity, which
      leaves nothing owed after the last month, otherwise. */
  lemma PaymentRetiresLoan(principal: real, apr: real, termYears: nat)
    requires termYears > 0
    requires CalculateAmortizedPayment(principal, apr, termYears).Some?
    ensures apr == 0.0 ==>
      RemainingBalance(principal, 0.0, CalculateAmortizedPayment(principal, apr, termYears).value, 12 * termYears) == 0.0
    ensures apr != 0.0 ==>
      var exact := Annuity(principal, MonthlyRate(apr), 12 * termYears);
      var p := CalculateAmortizedPayment(principal, apr, termYears).value;
      RemainingBalance(principal, MonthlyRate(apr), exact, 12 * termYears) == 0.0 &&
      exact - 0.005 < p <= exact + 0.005
  {
    if apr == 0.0 {
      EqualPaymentsRetire(principal, 12 * termYears);
    } else {
      AnnuityRetires(principal, MonthlyRate(apr), 12 * termYears);
    }
  }

}
