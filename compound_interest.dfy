// The `results` computation of the compound-interest calculator: a
// month-by-month simulation of an investment with a monthly contribution,
// sampled once a year for the chart.

module CompoundInterest {
  import opened Numeric
  import opened Growth

  /** The calculator's inputs. The year count is whole and non-negative. */
  datatype InvestmentData = InvestmentData(
    initialAmount: real,
    monthlyContribution: real,
    annualRate: real,
    periodYears: nat)

  /** One chart sample, every figure rounded with `Math.round`. */
  datatype ChartDataPoint = ChartDataPoint(period: int, total: int, invested: int, interest: int)

  datatype InvestmentResult = InvestmentResult(
    finalBalance: real,
    totalInvested: real,
    totalInterest: real,
    chartData: seq<ChartDataPoint>)

  function Months(data: InvestmentData): nat
  {
    data.periodYears * 12
  }

  /** The running balance after `month` months of the simulation. */
  function BalanceAt(data: InvestmentData, month: nat): real
  {
    Accumulate(data.initialAmount, MonthlyRate(data.annualRate), data.monthlyContribution, month)
  }

  /** The money put in after `month` months: the initial amount and one
      contribution per month, with no interest. */
  function InvestedAt(data: InvestmentData, month: nat): real
  {
    data.initialAmount + (month as real) * data.monthlyContribution
  }

  /** The chart point pushed at `month` for the running `total` and
      `invested`: the year number and the three rounded figures. */
  function Capture(month: nat, total: real, invested: real): ChartDataPoint
  {
    ChartDataPoint(month / 12, Round(total), Round(invested), Round(total - invested))
  }

  /** The chart point captured at `month` of the simulation. */
  function PointAt(data: InvestmentData, month: nat): ChartDataPoint
  {
    Capture(month, BalanceAt(data, month), InvestedAt(data, month))
  }

  /** The first `count` yearly points: those of months 0, 12, ..., 12 * (count - 1). */
  function Samples(data: InvestmentData, count: nat): seq<ChartDataPoint>
  {
    if count == 0 then [] else Samples(data, count - 1) + [PointAt(data, 12 * (count - 1))]
  }

  /** What the simulation computes, stated without the loop. */
  function Projection(data: InvestmentData): InvestmentResult
  {
    var finalBalance := BalanceAt(data, Months(data));
    var totalInvested := InvestedAt(data, Months(data));
    InvestmentResult(finalBalance, totalInvested, finalBalance - totalInvested, Samples(data, data.periodYears + 1))
  }

  /** The calculator's loop: month 0 changes nothing; each later month adds
      interest on the previous balance and then the contribution; the state
      is pushed onto the chart at every twelfth month and at the last one. */
  method Project(data: InvestmentData) returns (res: InvestmentResult)
    ensures res == Projection(data)
  {
    var monthlyRate := data.annualRate / 100.0 / 12.0;
    var months := data.periodYears * 12;
    var chartData: seq<ChartDataPoint> := [];
    var total := data.initialAmount;
    var totalInvested := data.initialAmount;
    var i := 0;
    while i <= months
      invariant 0 <= i <= months + 1 && months == Months(data)
      invariant i == 0 ==> total == data.initialAmount && totalInvested == data.initialAmount
      invariant i > 0 ==> total == BalanceAt(data, i - 1) && totalInvested == InvestedAt(data, i - 1)
      invariant 12 * (|chartData| - 1) < i <= 12 * |chartData|
      invariant chartData == Samples(data, |chartData|)
    {
      if i > 0 {
        var interest := total * monthlyRate;
        MonthStep(data, i - 1, total, totalInvested, monthlyRate, interest);
        total := total + interest + data.monthlyContribution;
        totalInvested := totalInvested + data.monthlyContribution;
      }
      assert total == BalanceAt(data, i) && totalInvested == InvestedAt(data, i);
      if i % 12 == 0 || i == months {
        SampledMonth(i, |chartData|, data);
        SamplesPush(data, |chartData|, i, total, totalInvested);
        chartData := chartData + [Capture(i, total, totalInvested)];
      } else {
        UnsampledMonth(i, |chartData|);
      }
      i := i + 1;
    }
    LoopExit(data, |chartData|);
    res := InvestmentResult(total, totalInvested, total - totalInvested, chartData);
  }

  /** A month that is a multiple of 12 and lies in (12 * (count - 1), 12 * count]
      is the month 12 * count. */
  lemma SampledMonth(i: nat, count: nat, data: InvestmentData)
    requires i % 12 == 0 || i == Months(data)
    requires 12 * (count - 1) < i <= 12 * count
    ensures i == 12 * count
  {
  }

  /** Pushing the state of month 12 * count extends the samples by one. */
  lemma SamplesPush(data: InvestmentData, count: nat, i: nat, total: real, invested: real)
    requires i == 12 * count && total == BalanceAt(data, i) && invested == InvestedAt(data, i)
    ensures Samples(data, count + 1) == Samples(data, count) + [Capture(i, total, invested)]
  {
  }

  /** When the loop ends at month periodYears * 12 + 1, one point per year
      has been pushed. */
  lemma LoopExit(data: InvestmentData, count: nat)
    requires 12 * (count - 1) < Months(data) + 1 <= 12 * count
    ensures count == data.periodYears + 1
  {
  }

  /** A month that is not a multiple of 12 and is at most 12 * count is below it. */
  lemma UnsampledMonth(i: nat, count: nat)
    requires i % 12 != 0 && i <= 12 * count
    ensures i + 1 <= 12 * count
  {
  }

  /** One month of the loop body moves the running values from month
      `month` to month `month + 1`. */
  lemma MonthStep(data: InvestmentData, month: nat, total: real, invested: real, monthlyRate: real, interest: real)
    requires total == BalanceAt(data, month) && invested == InvestedAt(data, month)
    requires monthlyRate == data.annualRate / 100.0 / 12.0
    requires interest == total * monthlyRate
    ensures BalanceAt(data, month + 1) == total + interest + data.monthlyContribution
    ensures InvestedAt(data, month + 1) == invested + data.monthlyContribution
  {
    assert ((month + 1) as real) * data.monthlyContribution
        == (month as real) * data.monthlyContribution + data.monthlyContribution;
  }

  lemma {:induction false} SamplesAt(data: InvestmentData, count: nat, j: nat)
    requires j < count
    ensures |Samples(data, count)| == count
    ensures Samples(data, count)[j] == PointAt(data, 12 * j)
  {
    if j < count - 1 {
      SamplesAt(data, count - 1, j);
    } else {
      SamplesLength(data, count - 1);
    }
  }

  lemma {:induction false} SamplesLength(data: InvestmentData, count: nat)
    ensures |Samples(data, count)| == count
  {
    if count > 0 {
      SamplesLength(data, count - 1);
    }
  }

  /** The totals: the final balance is the simulated balance after
      periodYears * 12 months, the amount invested is the initial amount plus
      one contribution per month, and the interest is their difference. */
  lemma ProjectionTotals(data: InvestmentData)
    ensures Projection(data).finalBalance
         == Accumulate(data.initialAmount, data.annualRate / 100.0 / 12.0, data.monthlyContribution, data.periodYears * 12)
    ensures Projection(data).totalInvested
         == data.initialAmount + ((data.periodYears * 12) as real) * data.monthlyContribution
    ensures Projection(data).totalInterest == Projection(data).finalBalance - Projection(data).totalInvested
  {
  }

  /** The chart holds one point per whole year 0, 1, ..., periodYears, in
      order, the point of year j being the state after 12 * j months. */
  lemma ChartShape(data: InvestmentData)
    ensures |Projection(data).chartData| == data.periodYears + 1
    ensures forall j :: 0 <= j <= data.periodYears ==>
      Projection(data).chartData[j] == PointAt(data, 12 * j) && Projection(data).chartData[j].period == j
  {
    SamplesLength(data, data.periodYears + 1);
    forall j | 0 <= j <= data.periodYears
      ensures Projection(data).chartData[j] == PointAt(data, 12 * j)
    {
      SamplesAt(data, data.periodYears + 1, j);
    }
  }

  /** The first point is the untouched initial state, with zero interest. */
  lemma FirstPoint(data: InvestmentData)
    ensures Projection(data).chartData[0]
         == ChartDataPoint(0, Round(data.initialAmount), Round(data.initialAmount), 0)
  {
    ChartShape(data);
  }

  /** The last month is always sampled: the last point shows the rounded
      final balance, amount invested and interest. */
  lemma LastPoint(data: InvestmentData)
    ensures var res := Projection(data);
      res.chartData[|res.chartData| - 1]
      == ChartDataPoint(data.periodYears, Round(res.finalBalance), Round(res.totalInvested), Round(res.totalInterest))
  {
    ChartShape(data);
  }

  /** With a non-negative rate, initial amount and contribution the balance
      never falls below the amount invested, which is non-negative; so every
      chart point shows a total at least its invested amount and a
      non-negative interest. */
  lemma NonNegativeGrowth(data: InvestmentData)
    requires data.annualRate >= 0.0 && data.initialAmount >= 0.0 && data.monthlyContribution >= 0.0
    ensures Projection(data).finalBalance >= Projection(data).totalInvested >= 0.0
    ensures Projection(data).totalInterest >= 0.0
    ensures forall j :: 0 <= j < |Projection(data).chartData| ==>
      var p := Projection(data).chartData[j]; p.total >= p.invested >= 0 && p.interest >= 0
  {
    NonNegativePoint(data, Months(data));
    ChartShape(data);
    forall j | 0 <= j < |Projection(data).chartData|
      ensures var p := PointAt(data, 12 * j); p.total >= p.invested >= 0 && p.interest >= 0
    {
      NonNegativePoint(data, 12 * j);
    }
  }

  lemma NonNegativePoint(data: InvestmentData, month: nat)
    requires data.annualRate >= 0.0 && data.initialAmount >= 0.0 && data.monthlyContribution >= 0.0
    ensures BalanceAt(data, month) >= InvestedAt(data, month) >= 0.0
    ensures var p := PointAt(data, month); p.total >= p.invested >= 0 && p.interest >= 0
  {
    var balance, invested := BalanceAt(data, month), InvestedAt(data, month);
    AccumulateAtLeastDeposits(data.initialAmount, MonthlyRate(data.annualRate), data.monthlyContribution, month);
    RoundMonotone(invested, balance);
    RoundMonotone(0.0, invested);
    RoundMonotone(0.0, balance - invested);
    RoundOfInteger(0);
  }

  /** Without interest the final balance is exactly the amount invested and
      every chart point shows zero interest. */
  lemma ZeroRate(data: InvestmentData)
    requires data.annualRate == 0.0
    ensures Projection(data).finalBalance == Projection(data).totalInvested
    ensures Projection(data).totalInterest == 0.0
    ensures forall j :: 0 <= j < |Projection(data).chartData| ==>
      var p := Projection(data).chartData[j]; p.interest == 0 && p.total == p.invested
  {
    ZeroRatePoint(data, Months(data));
    ChartShape(data);
    forall j | 0 <= j < |Projection(data).chartData|
      ensures var p := PointAt(data, 12 * j); p.interest == 0 && p.total == p.invested
    {
      ZeroRatePoint(data, 12 * j);
    }
  }

  lemma ZeroRatePoint(data: InvestmentData, month: nat)
    requires data.annualRate == 0.0
    ensures BalanceAt(data, month) == InvestedAt(data, month)
    ensures var p := PointAt(data, month); p.interest == 0 && p.total == p.invested
  {
    AccumulateZeroRate(data.initialAmount, data.monthlyContribution, month);
    RoundOfInteger(0);
  }

  /** 1000 invested, 100 a month, no interest, one year: 2200 at the end. */
  lemma ZeroRateExample()
    ensures Projection(InvestmentData(1000.0, 100.0, 0.0, 1)).finalBalance == 2200.0
  {
    AccumulateZeroRate(1000.0, 100.0, 12);
  }
}
