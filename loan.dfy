// The `results` computation of the loan calculator: the fixed monthly
// payment of a fully amortizing loan (the PMT formula), the total paid, the
// total interest and the two-slice principal/interest split.

module Loan {
  import opened Numeric
  import opened Growth

  /** The calculator's inputs; `interestRate` is an annual percentage. */
  datatype LoanData = LoanData(loanAmount: real, interestRate: real, termMonths: nat)

  /** One slice of the cost chart. */
  datatype PieSlice = PieSlice(name: string, value: real)

  datatype LoanResult = LoanResult(
    monthlyPayment: real,
    totalPayment: real,
    totalInterest: real,
    pieData: seq<PieSlice>)

  const PrincipalLabel: string := "Capital Principal"
  const InterestLabel: string := "Total de Juros"

  /** The PMT formula has a non-zero denominator (1+i)^n - 1. The calculator has
      no branch for a zero rate, where the formula is 0/0, so a zero rate and a
      zero term are excluded here along with every other zero denominator. */
  predicate Amortizable(data: LoanData)
  {
    data.termMonths >= 1
    && MonthlyRate(data.interestRate) != 0.0
    && Pow(1.0 + MonthlyRate(data.interestRate), data.termMonths) != 1.0
  }

  /** The loan balance after `months` payments: each month interest is added
      to the balance and the payment is taken off. */
  function Outstanding(data: LoanData, payment: real, months: nat): real
  {
    Accumulate(data.loanAmount, MonthlyRate(data.interestRate), -payment, months)
  }

  /** P * (i * (1+i)^n) / ((1+i)^n - 1): the payment that brings the balance
      to exactly zero after the last month, and the only one that does. */
  function MonthlyPayment(data: LoanData): (payment: real)
    requires Amortizable(data)
    ensures Outstanding(data, payment, data.termMonths) == 0.0
  {
    var i := MonthlyRate(data.interestRate);
    var n := data.termMonths;
    var p := data.loanAmount;
    var growth := Pow(1.0 + i, n);
    var payment := p * (i * growth) / (growth - 1.0);
    PaysOff(p, i, n, growth, payment);
    payment
  }

  lemma PaysOff(p: real, i: real, n: nat, growth: real, payment: real)
    requires i != 0.0 && growth == Pow(1.0 + i, n) && growth != 1.0
    requires payment == p * (i * growth) / (growth - 1.0)
    ensures Accumulate(p, i, -payment, n) == 0.0
  {
    AccumulateClosedForm(p, i, -payment, n);
    var d := growth - 1.0;
    assert payment * d == p * (i * growth);
    assert i * Accumulate(p, i, -payment, n) == i * p * growth - payment * d;
    CancelFactor(i, Accumulate(p, i, -payment, n), 0.0);
  }

  /** The whole `results` record. */
  function Amortize(data: LoanData): (res: LoanResult)
    requires Amortizable(data)
    ensures res.monthlyPayment == MonthlyPayment(data)
    ensures res.totalPayment == res.monthlyPayment * (data.termMonths as real)
    ensures data.loanAmount + res.totalInterest == res.totalPayment
    ensures res.pieData == [PieSlice(PrincipalLabel, data.loanAmount), PieSlice(InterestLabel, res.totalInterest)]
    ensures res.pieData[0].value + res.pieData[1].value == res.totalPayment
  {
    var monthlyPayment := MonthlyPayment(data);
    var totalPayment := monthlyPayment * (data.termMonths as real);
    var totalInterest := totalPayment - data.loanAmount;
    LoanResult(monthlyPayment, totalPayment, totalInterest,
      [PieSlice(PrincipalLabel, data.loanAmount), PieSlice(InterestLabel, totalInterest)])
  }

  /** The PMT payment is the only fixed payment that pays the loan off in
      exactly `termMonths` months. */
  lemma PaymentIsUnique(data: LoanData, payment: real)
    requires Amortizable(data)
    ensures Outstanding(data, payment, data.termMonths) == 0.0 <==> payment == MonthlyPayment(data)
  {
    if Outstanding(data, payment, data.termMonths) == 0.0 {
      var i := MonthlyRate(data.interestRate);
      FlowDeterminedByEnd(data.loanAmount, i, -payment, -MonthlyPayment(data), data.termMonths);
    }
  }

  /** A positive loan at a positive rate has a positive payment, and the
      borrower pays back at least the principal: the interest is never
      negative. */
  lemma PositiveLoan(data: LoanData)
    requires data.interestRate > 0.0 && data.termMonths >= 1 && data.loanAmount > 0.0
    ensures Amortizable(data)
    ensures Amortize(data).monthlyPayment > 0.0
    ensures Amortize(data).totalInterest >= 0.0
  {
    var i := MonthlyRate(data.interestRate);
    var n := data.termMonths;
    var p := data.loanAmount;
    var growth := Pow(1.0 + i, n);
    PowAboveOne(1.0 + i, n);
    assert Amortizable(data);
    PowGrowthBound(1.0 + i, n);
    PaymentBounds(p, i, n as real, growth, MonthlyPayment(data));
  }

  /** The algebra behind PositiveLoan: with growth = (1+i)^n > 1 and
      growth - 1 <= n * i * growth, the payment is positive and n payments
      cover the principal. */
  lemma PaymentBounds(p: real, i: real, n: real, growth: real, payment: real)
    requires p > 0.0 && i > 0.0 && growth > 1.0
    requires growth - 1.0 <= n * (1.0 + i - 1.0) * growth
    requires payment == p * (i * growth) / (growth - 1.0)
    ensures payment > 0.0
    ensures payment * n - p >= 0.0
  {
    var d := growth - 1.0;
    assert payment * d == p * (i * growth);
    assert i * growth > 0.0;
    assert p * (i * growth) > 0.0;
    assert d <= n * (i * growth);
    ScaleLe(p, d, n * (i * growth));
    assert p * (n * (i * growth)) == (n * payment) * d;
    CancelAtMost(d, p, n * payment);
  }
}
