/** Loan arithmetic: the compound-interest total and what is derived from it,
    and the constant-amortisation (SAC) total. Here `interestRate` is a
    monthly percentage. Amounts are exact reals. */
module Calculations {
  import opened LoanTypes

  /** `Math.pow(x, n)` for a natural exponent. */
  function Pow(x: real, n: nat): (r: real)
    ensures x >= 1.0 ==> r >= 1.0
    decreases n
  {
    if n == 0 then 1.0 else x * Pow(x, n - 1)
  }

  lemma {:induction false} PowOne(n: nat)
    ensures Pow(1.0, n) == 1.0
    decreases n
  {
    if n > 0 { PowOne(n - 1); }
  }

  /** Multiplying by a non-negative factor keeps an inequality. */
  lemma MulMonotone(a: real, b: real, c: real)
    requires a >= 0.0 && b <= c
    ensures a * b <= a * c
  {
    assert a * c - a * b == a * (c - b);
  }

  /** Multiplying by a positive factor keeps a strict inequality. */
  lemma MulStrict(a: real, b: real, c: real)
    requires a > 0.0 && b < c
    ensures a * b < a * c
  {
    assert a * c - a * b == a * (c - b);
  }

  /** Bernoulli's inequality: (1 + m)^n >= 1 + n·m for m >= 0. */
  lemma {:induction false} Bernoulli(m: real, n: nat)
    ensures m >= 0.0 ==> Pow(1.0 + m, n) >= 1.0 + (n as real) * m
    decreases n
  {
    if n > 0 && m >= 0.0 {
      Bernoulli(m, n - 1);
      var p := Pow(1.0 + m, n - 1);
      var k := (n - 1) as real;
      assert Pow(1.0 + m, n) == p + m * p;
      MulMonotone(m, 1.0, p);
      var mp := m * p;
      var km := k * m;
      assert mp >= m;
      assert p >= 1.0 + km;
      assert p + mp >= 1.0 + km + m;
      assert (n as real) * m == km + m;
    }
  }

  /** `calculateTotalAmount`: amount · (1 + rate/100)^installments. */
  function TotalAmount(amount: real, interestRate: real, installments: nat): (r: real)
    ensures interestRate == 0.0 ==> r == amount
    ensures amount > 0.0 && interestRate >= 0.0 ==> r >= amount
    ensures amount > 0.0 && interestRate > 0.0 && installments >= 1 ==> r > amount
  {
    var monthlyRate := interestRate / 100.0;
    PowOne(installments);
    Bernoulli(monthlyRate, installments);
    amount * Pow(1.0 + monthlyRate, installments)
  }

  lemma TotalAmountIsCompound(amount: real, interestRate: real, installments: nat)
    ensures TotalAmount(amount, interestRate, installments) == amount * Pow(1.0 + interestRate / 100.0, installments)
  {
  }

  /** `calculateInstallmentAmount`: the total split into equal installments. */
  function InstallmentAmount(totalAmount: real, installments: int): (r: real)
    requires installments != 0
    ensures r * (installments as real) == totalAmount
  {
    totalAmount / (installments as real)
  }

  /** `calculateTotalInterest`: what is paid beyond the principal. */
  function TotalInterest(totalAmount: real, principalAmount: real): (r: real)
    ensures principalAmount + r == totalAmount
  {
    totalAmount - principalAmount
  }

  /** `calculateInterestPercentage`: the interest as a percentage of the principal. */
  function InterestPercentage(totalInterest: real, principalAmount: real): (r: real)
    requires principalAmount != 0.0
    ensures r * principalAmount == totalInterest * 100.0
  {
    (totalInterest / principalAmount) * 100.0
  }

  /** `calculateLoan`: the input fields, then the four derived figures. */
  function CalculateLoan(loanData: LoanData): (r: LoanCalculation)
    requires loanData.installments > 0 && loanData.amount != 0.0
    ensures r.Data() == loanData
    ensures r.installmentAmount * (loanData.installments as real) == r.totalAmount
    ensures r.totalInterest == r.totalAmount - loanData.amount
    ensures r.interestPercentage * loanData.amount == r.totalInterest * 100.0
    ensures r.totalAmount == loanData.amount * Pow(1.0 + loanData.interestRate / 100.0, loanData.installments)
    ensures loanData.interestRate == 0.0 ==>
      r.totalAmount == loanData.amount && r.totalInterest == 0.0 && r.interestPercentage == 0.0 &&
      r.installmentAmount == loanData.amount / (loanData.installments as real)
  {
    var amount, interestRate, installments := loanData.amount, loanData.interestRate, loanData.installments;
    var totalAmount := TotalAmount(amount, interestRate, installments);
    var installmentAmount := InstallmentAmount(totalAmount, installments);
    var totalInterest := TotalInterest(totalAmount, amount);
    var interestPercentage := InterestPercentage(totalInterest, amount);
    LoanCalculation(amount, installments, interestRate,
                    totalAmount, installmentAmount, totalInterest, interestPercentage)
  }

  /** The SAC payment of period i (0-based): the constant amortisation plus
      interest on the balance left after i amortisations. */
  function SacPayment(amount: real, interestRate: real, installments: int, i: int): real
    requires installments > 0
  {
    var amortization := amount / (installments as real);
    amortization + (amount - amortization * (i as real)) * (interestRate / 100.0)
  }

  /** The sum of the first i SAC payments. */
  function SacPaid(amount: real, interestRate: real, installments: int, i: nat): real
    requires installments > 0
    decreases i
  {
    if i == 0 then 0.0
    else SacPaid(amount, interestRate, installments, i - 1) + SacPayment(amount, interestRate, installments, i - 1)
  }

  /** i·q + m·(i·a − q·i(i−1)/2): the running SAC sum in closed form, with
      q = a/n the amortisation and m = rate/100. */
  function SacClosed(a: real, m: real, q: real, k: real): real {
    k * q + m * (k * a - q * (k * (k - 1.0) / 2.0))
  }

  /** One more SAC period moves the closed form from k to k + 1. */
  lemma SacClosedStep(a: real, m: real, q: real, k: real)
    ensures SacClosed(a, m, q, k) + (q + (a - q * k) * m) == SacClosed(a, m, q, k + 1.0)
  {
    var t := k * (k - 1.0) / 2.0;
    var t1 := (k + 1.0) * ((k + 1.0) - 1.0) / 2.0;
    assert t1 == t + k;
    var x := k * a - q * t;
    var y := a - q * k;
    assert q * t1 == q * t + q * k;
    assert (k + 1.0) * a - q * t1 == x + y;
    assert m * (x + y) == m * x + m * y;
    assert y * m == m * y;
    assert (k + 1.0) * q == k * q + q;
  }

  /** The running SAC sum equals its closed form. */
  lemma {:induction false} SacPaidClosedForm(amount: real, interestRate: real, installments: int, i: nat)
    requires installments > 0
    ensures SacPaid(amount, interestRate, installments, i) ==
      SacClosed(amount, interestRate / 100.0, amount / (installments as real), i as real)
    decreases i
  {
    var q := amount / (installments as real);
    var m := interestRate / 100.0;
    if i > 0 {
      SacPaidClosedForm(amount, interestRate, installments, i - 1);
      var k := (i - 1) as real;
      assert SacPayment(amount, interestRate, installments, i - 1) == q + (amount - q * k) * m;
      SacClosedStep(amount, m, q, k);
      assert k + 1.0 == i as real;
    }
  }

  /** Whole SAC total: amount + (rate/100) · amount · (n + 1)/2. */
  lemma SacTotalClosedForm(amount: real, interestRate: real, installments: int)
    requires installments > 0
    ensures SacPaid(amount, interestRate, installments, installments) ==
      amount + (interestRate / 100.0) * amount * ((installments as real) + 1.0) / 2.0
  {
    SacPaidClosedForm(amount, interestRate, installments, installments);
    var n := installments as real;
    var q := amount / n;
    var m := interestRate / 100.0;
    assert n * q == amount;
    var t := n * (n - 1.0) / 2.0;
    assert q * t == amount * (n - 1.0) / 2.0;
    var x := n * amount - amount * (n - 1.0) / 2.0;
    assert x == amount * (n + 1.0) / 2.0;
    assert m * x == m * amount * (n + 1.0) / 2.0;
    assert SacClosed(amount, m, q, n) == amount + m * x;
  }

  /** `calculateSAC`: runs the loop of the source, summing the payments. */
  method CalculateSAC(loanData: LoanData) returns (r: LoanCalculation)
    requires loanData.installments > 0 && loanData.amount != 0.0
    ensures r.Data() == loanData
    ensures r.totalAmount == SacPaid(loanData.amount, loanData.interestRate, loanData.installments, loanData.installments)
    ensures r.totalAmount ==
      loanData.amount + (loanData.interestRate / 100.0) * loanData.amount * ((loanData.installments as real) + 1.0) / 2.0
    ensures r.installmentAmount * (loanData.installments as real) == r.totalAmount
    ensures r.totalInterest == r.totalAmount - loanData.amount
    ensures r.interestPercentage * loanData.amount == r.totalInterest * 100.0
    ensures loanData.interestRate == 0.0 ==>
      r.totalAmount == loanData.amount && r.totalInterest == 0.0 && r.interestPercentage == 0.0 &&
      r.installmentAmount == loanData.amount / (loanData.installments as real)
  {
    var amount, interestRate, installments := loanData.amount, loanData.interestRate, loanData.installments;
    var monthlyRate := interestRate / 100.0;
    var amortization := amount / (installments as real);
    var totalAmount := 0.0;
    var i := 0;
    while i < installments
      invariant 0 <= i <= installments
      invariant totalAmount == SacPaid(amount, interestRate, installments, i)
    {
      var remainingBalance := amount - amortization * (i as real);
      var interest := remainingBalance * monthlyRate;
      totalAmount := totalAmount + (amortization + interest);
      i := i + 1;
    }
    SacTotalClosedForm(amount, interestRate, installments);
    // The average installment, the interest and its percentage are the
    // expressions of `calculateInstallmentAmount`, `calculateTotalInterest`
    // and `calculateInterestPercentage`, written inline in the source.
    var installmentAmount := InstallmentAmount(totalAmount, installments);
    var totalInterest := TotalInterest(totalAmount, amount);
    var interestPercentage := InterestPercentage(totalInterest, amount);
    r := LoanCalculation(amount, installments, interestRate,
                         totalAmount, installmentAmount, totalInterest, interestPercentage);
  }

  /** With a zero rate SAC repays exactly the principal, amount/n per month. */
  lemma SacZeroRate(amount: real, installments: int)
    requires installments > 0
    ensures SacPaid(amount, 0.0, installments, installments) == amount
    ensures forall i :: 0 <= i < installments ==>
      SacPayment(amount, 0.0, installments, i) == amount / (installments as real)
  {
    SacTotalClosedForm(amount, 0.0, installments);
  }

  /** SAC payments never increase ("parcelas decrescentes"), and strictly
      decrease when both amount and rate are positive. */
  lemma SacPaymentsNonIncreasing(amount: real, interestRate: real, installments: int, i: int, j: int)
    requires installments > 0 && amount >= 0.0 && interestRate >= 0.0 && i <= j
    ensures SacPayment(amount, interestRate, installments, j) <= SacPayment(amount, interestRate, installments, i)
    ensures amount > 0.0 && interestRate > 0.0 && i < j ==>
      SacPayment(amount, interestRate, installments, j) < SacPayment(amount, interestRate, installments, i)
  {
    var q := amount / (installments as real);
    var m := interestRate / 100.0;
    var d := (j - i) as real;
    assert q >= 0.0;
    assert SacPayment(amount, interestRate, installments, i) - SacPayment(amount, interestRate, installments, j)
        == q * d * m;
    assert q * d >= 0.0;
    assert amount > 0.0 && i < j ==> q * d > 0.0;
  }

  /** With a positive amount and rate, SAC charges interest: the total exceeds
      the principal and the average installment exceeds amount/n. */
  lemma SacPositiveRate(amount: real, interestRate: real, installments: int)
    requires installments > 0 && amount > 0.0 && interestRate > 0.0
    ensures SacPaid(amount, interestRate, installments, installments) > amount
    ensures SacPaid(amount, interestRate, installments, installments) / (installments as real)
          > amount / (installments as real)
  {
    SacTotalClosedForm(amount, interestRate, installments);
    var m := interestRate / 100.0;
    var n := installments as real;
    assert m * amount > 0.0;
    assert m * amount * (n + 1.0) > 0.0;
  }

  /** The real-number core of the comparison below: the SAC closed form is
      at most amount·p whenever p >= 1 + n·m (Bernoulli). */
  lemma SacClosedBelowCompound(amount: real, interestRate: real, installments: nat)
    requires installments > 0 && amount > 0.0 && interestRate >= 0.0
    requires Pow(1.0 + interestRate / 100.0, installments) >= 1.0 + (installments as real) * (interestRate / 100.0)
    ensures amount + (interestRate / 100.0) * amount * ((installments as real) + 1.0) / 2.0
         <= TotalAmount(amount, interestRate, installments)
    ensures interestRate > 0.0 && installments >= 2 ==>
      amount + (interestRate / 100.0) * amount * ((installments as real) + 1.0) / 2.0
         < TotalAmount(amount, interestRate, installments)
  {
    TotalAmountIsCompound(amount, interestRate, installments);
    var m := interestRate / 100.0;
    var n := installments as real;
    var p := Pow(1.0 + m, installments);
    var nm := n * m;
    var am := amount * m;
    var h := (n + 1.0) / 2.0;
    var sac := m * amount * (n + 1.0) / 2.0;
    assert sac == am * h;
    assert amount * nm == am * n;
    MulMonotone(amount, 0.0, m);
    MulMonotone(am, h, n);
    assert sac <= amount * nm;
    MulMonotone(amount, 1.0 + nm, p);
    assert amount * (1.0 + nm) == amount + amount * nm;
    assert amount + sac <= amount * p;
    if m > 0.0 && n >= 2.0 {
      MulStrict(amount, 0.0, m);
      MulStrict(am, h, n);
      assert sac < amount * nm;
    }
  }

  /** SAC never costs more than the compound total for the same data, and
      costs strictly less from two installments on when the rate is positive. */
  lemma SacNotAboveCompound(amount: real, interestRate: real, installments: int)
    requires installments > 0 && amount > 0.0 && interestRate >= 0.0
    ensures SacPaid(amount, interestRate, installments, installments) <= TotalAmount(amount, interestRate, installments)
    ensures interestRate > 0.0 && installments >= 2 ==>
      SacPaid(amount, interestRate, installments, installments) < TotalAmount(amount, interestRate, installments)
  {
    SacTotalClosedForm(amount, interestRate, installments);
    Bernoulli(interestRate / 100.0, installments);
    SacClosedBelowCompound(amount, interestRate, installments);
  }

  /** The compound scenario of the repository's tests: 10000 at 2% for 12 months. */
  lemma CompoundExample()
    ensures 12682.415 < TotalAmount(10000.0, 2.0, 12) < 12682.425
    ensures 1056.865 < InstallmentAmount(TotalAmount(10000.0, 2.0, 12), 12) < 1056.875
    ensures 2682.415 < TotalInterest(TotalAmount(10000.0, 2.0, 12), 10000.0) < 2682.425
  {
    assert Pow(1.02, 1) == 1.02;
    assert Pow(1.02, 2) == 1.0404;
    assert Pow(1.02, 3) == 1.061208;
    assert Pow(1.02, 4) == 1.08243216;
    assert Pow(1.02, 5) == 1.1040808032;
    assert Pow(1.02, 6) == 1.126162419264;
    assert Pow(1.02, 7) == 1.14868566764928;
    assert Pow(1.02, 8) == 1.1716593810022656;
    assert Pow(1.02, 9) == 1.195092568622310912;
    assert Pow(1.02, 10) == 1.21899441999475713024;
    assert Pow(1.02, 11) == 1.2433743083946522728448;
    assert Pow(1.02, 12) == 1.268241794562545318301696;
  }

  /** The SAC scenario: 1200 at 1% for 12 months pays 78 of interest;
      12000 at 2% for 12 months pays 1560. */
  lemma SacExamples()
    ensures SacPaid(1200.0, 1.0, 12, 12) == 1278.0
    ensures SacPaid(12000.0, 2.0, 12, 12) == 13560.0
  {
    SacTotalClosedForm(1200.0, 1.0, 12);
    SacTotalClosedForm(12000.0, 2.0, 12);
  }

  /** The repository's zero-rate example: 12000 over 12 months. */
  lemma ZeroRateExample()
    ensures TotalAmount(12000.0, 0.0, 12) == 12000.0
    ensures InstallmentAmount(12000.0, 12) == 1000.0
  {
  }

  /** The repository's interest and percentage examples. */
  lemma PercentageExamples()
    ensures TotalInterest(13000.0, 10000.0) == 3000.0
    ensures InterestPercentage(2000.0, 10000.0) == 20.0
    ensures InterestPercentage(0.0, 10000.0) == 0.0
    ensures InterestPercentage(5000.0, 10000.0) == 50.0
  {
  }
}
