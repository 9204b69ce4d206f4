// The `results` computation of the savings-goal calculator: the monthly
// deposit that, together with the current savings and monthly compounding,
// reaches the target amount at the end of the timeframe; plus the two
// figures derived from it on the page (the total saving effort and the
// width of the progress bar).

module SavingsGoal {
  import opened Numeric
  import opened Growth

  /** The calculator's inputs; `annualRate` is an annual percentage. */
  datatype SavingsGoalData = SavingsGoalData(
    targetAmount: real,
    currentSavings: real,
    annualRate: real,
    timeframeMonths: nat)

  datatype GoalResult = GoalResult(requiredMonthly: real, isPossible: bool)

  /** The divisions of either branch have a non-zero divisor: the timeframe
      at a zero rate, (1+r)^n - 1 otherwise. */
  predicate Solvable(data: SavingsGoalData)
  {
    var r := MonthlyRate(data.annualRate);
    data.timeframeMonths >= 1
    && (r == 0.0 || Pow(1.0 + r, data.timeframeMonths) != 1.0)
  }

  /** The balance reached by depositing `deposit` every month for the whole
      timeframe, interest being added each month before the deposit. */
  function Reached(data: SavingsGoalData, deposit: real): real
  {
    Accumulate(data.currentSavings, MonthlyRate(data.annualRate), deposit, data.timeframeMonths)
  }

  /** The unclamped requirement: (FV - PV) / n at a zero rate, and
      (FV - PV * (1+r)^n) * r / ((1+r)^n - 1) otherwise. Depositing it every
      month reaches the target exactly. */
  function RawRequirement(data: SavingsGoalData): (raw: real)
    requires Solvable(data)
    ensures Reached(data, raw) == data.targetAmount
  {
    var r := MonthlyRate(data.annualRate);
    var n := data.timeframeMonths;
    var fv := data.targetAmount;
    var pv := data.currentSavings;
    if r == 0.0 then
      var raw := (fv - pv) / (n as real);
      AccumulateZeroRate(pv, raw, n);
      raw
    else
      var growth := Pow(1.0 + r, n);
      var futureValuePv := pv * growth;
      var raw := (fv - futureValuePv) * r / (growth - 1.0);
      ReachesTarget(pv, r, n, fv, growth, futureValuePv, raw);
      raw
  }

  lemma ReachesTarget(pv: real, r: real, n: nat, fv: real, growth: real, futureValuePv: real, raw: real)
    requires r != 0.0 && growth == Pow(1.0 + r, n) && growth != 1.0
    requires futureValuePv == pv * growth
    requires raw == (fv - futureValuePv) * r / (growth - 1.0)
    ensures Accumulate(pv, r, raw, n) == fv
  {
    AccumulateClosedForm(pv, r, raw, n);
    TargetAlgebra(pv, r, fv, growth, futureValuePv, raw, Accumulate(pv, r, raw, n));
  }

  /** The algebra of ReachesTarget, with b the balance reached. */
  lemma TargetAlgebra(pv: real, r: real, fv: real, growth: real, futureValuePv: real, raw: real, b: real)
    requires r != 0.0 && growth != 1.0
    requires futureValuePv == pv * growth
    requires raw == (fv - futureValuePv) * r / (growth - 1.0)
    requires r * b == r * pv * growth + raw * (growth - 1.0)
    ensures b == fv
  {
    var d := growth - 1.0;
    assert raw * d == (fv - futureValuePv) * r;
    assert r * b == r * fv;
    CancelFactor(r, b, fv);
  }

  /** The requirement is the only monthly deposit that reaches the target. */
  lemma RequirementIsUnique(data: SavingsGoalData, deposit: real)
    requires Solvable(data)
    ensures Reached(data, deposit) == data.targetAmount <==> deposit == RawRequirement(data)
  {
    if Reached(data, deposit) == data.targetAmount {
      FlowDeterminedByEnd(data.currentSavings, MonthlyRate(data.annualRate), deposit,
        RawRequirement(data), data.timeframeMonths);
    }
  }

  /** The returned record: the requirement floored at zero, and whether a
      positive deposit is needed. */
  function RequiredContribution(data: SavingsGoalData): (res: GoalResult)
    requires Solvable(data)
    ensures res.requiredMonthly >= 0.0
    ensures res.isPossible <==> RawRequirement(data) > 0.0
    ensures res.isPossible <==> res.requiredMonthly > 0.0
    ensures res.isPossible ==> res.requiredMonthly == RawRequirement(data)
    ensures !res.isPossible ==> res.requiredMonthly == 0.0
  {
    var requiredMonthly := RawRequirement(data);
    GoalResult(if 0.0 >= requiredMonthly then 0.0 else requiredMonthly, requiredMonthly > 0.0)
  }

  /** With a non-negative rate, a goal the current savings already cover
      needs no deposit and is reported as not possible. */
  lemma AlreadyMet(data: SavingsGoalData)
    requires data.annualRate >= 0.0 && data.timeframeMonths >= 1
    requires data.currentSavings >= data.targetAmount >= 0.0
    ensures Solvable(data)
    ensures RawRequirement(data) <= 0.0
    ensures RequiredContribution(data) == GoalResult(0.0, false)
  {
    var r := MonthlyRate(data.annualRate);
    var n := data.timeframeMonths;
    if r > 0.0 {
      PowAboveOne(1.0 + r, n);
      assert Solvable(data);
      var growth := Pow(1.0 + r, n);
      ScaleLe(data.currentSavings, 1.0, growth);
      NonPositiveQuotient(data.targetAmount - data.currentSavings * growth, r, growth - 1.0);
    } else {
      assert Solvable(data);
    }
  }

  /** A non-positive amount times a positive rate over a positive divisor. */
  lemma NonPositiveQuotient(a: real, r: real, d: real)
    requires a <= 0.0 && r > 0.0 && d > 0.0
    ensures a * r / d <= 0.0
  {
    assert a * r <= 0.0;
  }

  /** The total saving effort shown on the page: the monthly deposit times
      the number of months; never negative. */
  function SavingsEffort(data: SavingsGoalData): (effort: real)
    requires Solvable(data)
    ensures effort >= 0.0
    ensures effort > 0.0 <==> RequiredContribution(data).isPossible
  {
    RequiredContribution(data).requiredMonthly * (data.timeframeMonths as real)
  }

  /** With a non-negative rate and savings, the deposits never exceed what is
      still missing, since the interest makes up the rest. */
  lemma EffortWithinTarget(data: SavingsGoalData)
    requires Solvable(data)
    requires data.annualRate >= 0.0 && data.currentSavings >= 0.0
    ensures RequiredContribution(data).isPossible ==>
      data.currentSavings + SavingsEffort(data) <= data.targetAmount
  {
    if RequiredContribution(data).isPossible {
      var raw := RawRequirement(data);
      AccumulateAtLeastDeposits(data.currentSavings, MonthlyRate(data.annualRate), raw, data.timeframeMonths);
    }
  }

  /** The width of the progress bar, in percent: the effort as a share of the
      target, capped at 100. */
  function ProgressPercent(data: SavingsGoalData): (percent: real)
    requires Solvable(data) && data.targetAmount != 0.0
    ensures percent <= 100.0
    ensures var share := SavingsEffort(data) / data.targetAmount * 100.0;
      percent == (if share <= 100.0 then share else 100.0)
  {
    var share := SavingsEffort(data) / data.targetAmount * 100.0;
    if 100.0 <= share then 100.0 else share
  }

  /** For a positive target, a non-negative rate and non-negative savings the
      cap never applies: the bar shows exactly the effort's share of the
      target, which lies between 0 and 100. */
  lemma ProgressIsShare(data: SavingsGoalData)
    requires Solvable(data) && data.targetAmount > 0.0
    requires data.annualRate >= 0.0 && data.currentSavings >= 0.0
    ensures ProgressPercent(data) == SavingsEffort(data) / data.targetAmount * 100.0
    ensures 0.0 <= ProgressPercent(data) <= 100.0
  {
    EffortWithinTarget(data);
    var effort := SavingsEffort(data);
    ShareAtMostWhole(effort, data.targetAmount);
  }

  lemma ShareAtMostWhole(part: real, whole: real)
    requires whole > 0.0 && 0.0 <= part <= whole
    ensures 0.0 <= part / whole * 100.0 <= 100.0
  {
    assert part / whole <= 1.0;
  }
}
