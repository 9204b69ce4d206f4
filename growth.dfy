// The monthly compounding step: interest on the previous balance, then a
// fixed monthly cash flow. The compound-interest simulation runs this step
// month by month, adding the contribution. The loan and savings-goal formulas
// are closed forms that run no step; this step gives them their meaning: the
// loan balance with the payment subtracted each month ends at zero, and the
// savings with the required deposit added each month end at the target.

module Growth {
  import opened Numeric

  /** Monthly rate from an annual percentage: `annualPercent / 100 / 12`. */
  function MonthlyRate(annualPercent: real): (r: real)
    ensures r * 1200.0 == annualPercent
    ensures r == 0.0 <==> annualPercent == 0.0
    ensures r > 0.0 <==> annualPercent > 0.0
  {
    annualPercent / 100.0 / 12.0
  }

  /** The balance after `months` monthly steps from `start`, each step adding
      `balance * rate` (the interest) and then `flow`. */
  function Accumulate(start: real, rate: real, flow: real, months: nat): real
  {
    if months == 0 then start
    else
      var prev := Accumulate(start, rate, flow, months - 1);
      prev + prev * rate + flow
  }

  /** Closed form of the step, multiplied through by the rate so that it also
      holds at rate 0: rate * B_n == rate * start * (1+rate)^n + flow * ((1+rate)^n - 1). */
  lemma {:induction false} AccumulateClosedForm(start: real, rate: real, flow: real, months: nat)
    ensures rate * Accumulate(start, rate, flow, months)
         == rate * start * Pow(1.0 + rate, months) + flow * (Pow(1.0 + rate, months) - 1.0)
  {
    if months > 0 {
      AccumulateClosedForm(start, rate, flow, months - 1);
      ClosedFormStep(start, rate, flow,
        Accumulate(start, rate, flow, months - 1), Pow(1.0 + rate, months - 1),
        Accumulate(start, rate, flow, months), Pow(1.0 + rate, months));
    }
  }

  /** The algebra of one step of the closed form: b and q are the previous
      balance and power of (1 + rate), a and p the next ones. */
  lemma ClosedFormStep(start: real, rate: real, flow: real, b: real, q: real, a: real, p: real)
    requires rate * b == rate * start * q + flow * (q - 1.0)
    requires a == b + b * rate + flow && p == (1.0 + rate) * q
    ensures rate * a == rate * start * p + flow * (p - 1.0)
  {
    calc {
      rate * a;
      (1.0 + rate) * (rate * b) + rate * flow;
      (1.0 + rate) * (rate * start * q + flow * (q - 1.0)) + rate * flow;
      rate * start * p + flow * (p - 1.0);
    }
  }

  /** Without interest the balance is the start plus one flow per month. */
  lemma {:induction false} AccumulateZeroRate(start: real, flow: real, months: nat)
    ensures Accumulate(start, 0.0, flow, months) == start + (months as real) * flow
  {
    if months > 0 {
      AccumulateZeroRate(start, flow, months - 1);
    }
  }

  /** With a non-negative rate, start and flow, interest only ever adds:
      the balance is at least the start plus the flows, which is non-negative. */
  lemma {:induction false} AccumulateAtLeastDeposits(start: real, rate: real, flow: real, months: nat)
    requires rate >= 0.0 && start >= 0.0 && flow >= 0.0
    ensures Accumulate(start, rate, flow, months) >= start + (months as real) * flow >= 0.0
  {
    if months > 0 {
      AccumulateAtLeastDeposits(start, rate, flow, months - 1);
      var prev := Accumulate(start, rate, flow, months - 1);
      assert prev * rate >= 0.0;
    }
  }

  /** At rate r != 0 with (1+r)^n != 1 exactly one flow reaches a given end
      balance after n months; at rate 0 the same holds for n >= 1. */
  lemma FlowDeterminedByEnd(start: real, rate: real, f1: real, f2: real, months: nat)
    requires months >= 1
    requires rate == 0.0 || Pow(1.0 + rate, months) != 1.0
    requires Accumulate(start, rate, f1, months) == Accumulate(start, rate, f2, months)
    ensures f1 == f2
  {
    var b := Accumulate(start, rate, f1, months);
    if rate == 0.0 {
      AccumulateZeroRate(start, f1, months);
      AccumulateZeroRate(start, f2, months);
      CancelOffset(start, months as real, f1, f2, b);
    } else {
      var p := Pow(1.0 + rate, months);
      AccumulateClosedForm(start, rate, f1, months);
      AccumulateClosedForm(start, rate, f2, months);
      assert rate * b == rate * start * p + (p - 1.0) * f1;
      assert rate * b == rate * start * p + (p - 1.0) * f2;
      CancelOffset(rate * start * p, p - 1.0, f1, f2, rate * b);
    }
  }
}
