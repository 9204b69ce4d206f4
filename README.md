# FinanSmart financial calculators — a Dafny model

FinanSmart is a single-page web app with three calculators: compound
interest, loan amortization and savings goal. This project models the
arithmetic each calculator runs on every input change, plus the app shell's
tab state and its simulated "online users" counter. Numbers are exact
`real`s. `Math.pow` with a whole exponent is the recursive `Numeric.Pow`.
`Math.round` is `Numeric.Round`, which rounds to the nearest integer and
rounds halves upward.

The compound-interest calculator runs a monthly step: add interest on the
previous balance, then add the monthly contribution (`Growth.Accumulate`).
The loan and savings-goal calculators run no step. They evaluate closed-form
formulas, and the model gives each formula its meaning through the same step:
the payment is what brings the loan balance to zero when it is subtracted
every month, and the deposit is what brings the savings to the target when
it is added every month. The facts below are proved by induction on the
number of months:

- the PMT payment pays the loan off exactly, and no other payment does;
- the savings-goal deposit reaches the target exactly, and no other deposit does;
- with non-negative inputs the compound balance never falls below the money put in.

Files:

- `numeric.dfy` (module `Numeric`): `Pow`, `Round` and small algebra lemmas.
- `growth.dfy` (module `Growth`): the monthly rate, the monthly step and its closed form.
- `compound_interest.dfy` (module `CompoundInterest`): the month loop as a method with
  invariants, proved equal to the loop-free definition `Projection`.
- `loan.dfy` (module `Loan`): the payment formula, the totals and the cost split.
- `savings_goal.dfy` (module `SavingsGoal`): the required deposit, its clamp and
  flag, the total saving effort and the progress-bar width.
- `app.dfy` (module `AppShell`): class `App` with the fields `activeTab` and
  `onlineUsers`, the tab list and the clamped drift step.

Two points about the code shape the model:

- The loan formula has no zero-rate branch (components/LoanCalc.tsx:33). At a
  zero rate it computes 0/0, so the model requires a non-zero denominator and
  adds no fallback such as `loanAmount / termMonths`.
- The loop also samples the last month (components/CompoundInterestCalc.tsx:41).
  With whole `periodYears` that month is a multiple of 12, so the chart has
  exactly `periodYears + 1` points.

## Model

| member | source | states |
|---|---|---|
| Numeric.Round | components/CompoundInterestCalc.tsx:44-46 | the rounded value is the unique integer in (x - 1/2, x + 1/2], so halves round upward as `Math.round` does |
| Growth.MonthlyRate | components/CompoundInterestCalc.tsx:27 | the monthly rate times 1200 is the annual percentage; it is zero, or positive, exactly when the annual rate is |
| Growth.AccumulateClosedForm | components/CompoundInterestCalc.tsx:34-39 | after n steps, rate * balance = rate * start * (1+rate)^n + flow * ((1+rate)^n - 1) |
| Growth.AccumulateZeroRate | components/CompoundInterestCalc.tsx:36-38 | at rate 0 the balance after n months is start + n * flow |
| Growth.AccumulateAtLeastDeposits | components/CompoundInterestCalc.tsx:31-38 | with rate, start and flow non-negative, the balance is at least start + n * flow, which is at least 0 |
| Growth.FlowDeterminedByEnd | components/SavingsGoalCalc.tsx:21-29 | two monthly flows that end at the same balance are equal, whenever the divisor of the payment formula is non-zero |
| CompoundInterest.Project | components/CompoundInterestCalc.tsx:26-57 | the month loop returns exactly `Projection(data)`: final balance after periodYears*12 steps, invested = initial + months * contribution, interest = their difference, and one chart point per year |
| CompoundInterest.ProjectionTotals | components/CompoundInterestCalc.tsx:27-54 | the rate is annualRate/100/12, the month count periodYears*12, the amount invested contains no interest, and totalInterest = finalBalance - totalInvested |
| CompoundInterest.ChartShape | components/CompoundInterestCalc.tsx:34-47 | the chart has periodYears + 1 points; point j has period j and is the rounded state after 12 * j months |
| CompoundInterest.FirstPoint | components/CompoundInterestCalc.tsx:31-47 | the first point is the untouched initial state, with interest 0 |
| CompoundInterest.LastPoint | components/CompoundInterestCalc.tsx:41-54 | the last point is the rounded final balance, amount invested and interest |
| CompoundInterest.NonNegativeGrowth | components/CompoundInterestCalc.tsx:31-47 | with non-negative rate, initial amount and contribution: finalBalance >= totalInvested >= 0, interest >= 0, and every point has total >= invested >= 0 and interest >= 0 |
| CompoundInterest.ZeroRate | components/CompoundInterestCalc.tsx:36-54 | at a zero rate the final balance equals the amount invested, the interest is 0, and every point shows zero interest |
| CompoundInterest.ZeroRateExample | components/CompoundInterestCalc.tsx:26-57 | 1000 to start, 100 a month, 0 %, one year: final balance 2200 |
| Loan.MonthlyPayment | components/LoanCalc.tsx:28-33 | paying the PMT amount every month brings the balance to exactly 0 after termMonths months |
| Loan.PaymentIsUnique | components/LoanCalc.tsx:32-33 | a fixed payment pays the loan off in termMonths months exactly when it equals the PMT amount |
| Loan.Amortize | components/LoanCalc.tsx:27-48 | totalPayment = monthlyPayment * termMonths; loanAmount + totalInterest = totalPayment; the pie has two slices, principal then interest, summing to totalPayment |
| Loan.PositiveLoan | components/LoanCalc.tsx:33-35 | for a positive rate, term and amount the formula is defined, the payment is positive and the total interest is not negative |
| SavingsGoal.RawRequirement | components/SavingsGoalCalc.tsx:16-30 | depositing the unclamped requirement every month, in either branch, takes the current savings exactly to the target |
| SavingsGoal.RequirementIsUnique | components/SavingsGoalCalc.tsx:21-30 | a monthly deposit reaches the target exactly when it equals the unclamped requirement |
| SavingsGoal.RequiredContribution | components/SavingsGoalCalc.tsx:15-36 | requiredMonthly >= 0; isPossible holds exactly when the raw requirement is positive, and exactly when requiredMonthly is positive; requiredMonthly is the raw value when possible and 0 otherwise |
| SavingsGoal.AlreadyMet | components/SavingsGoalCalc.tsx:25-34 | with a non-negative rate and savings at or above a non-negative target, the raw requirement is at most 0, so the result is 0 and not possible |
| SavingsGoal.SavingsEffort | components/SavingsGoalCalc.tsx:158 | the total effort is never negative, and it is positive exactly when the goal is flagged possible |
| SavingsGoal.EffortWithinTarget | components/SavingsGoalCalc.tsx:158-167 | when the goal is flagged possible, with a non-negative rate and savings, the savings plus the total deposits never exceed the target; interest makes up the rest |
| SavingsGoal.ProgressPercent | components/SavingsGoalCalc.tsx:163 | the bar width never exceeds 100; it is the effort's share of the target in percent, capped at 100 |
| SavingsGoal.ProgressIsShare | components/SavingsGoalCalc.tsx:158-163 | for a positive target and a non-negative rate and savings the cap never applies, and the width lies in [0, 100] |
| AppShell.FindTab | App.tsx:101 | like `find`: the result is absent exactly when no entry has the id; otherwise it is the first entry with that id |
| AppShell.EveryTypeHasATab | App.tsx:36-40 | every calculator type has a tab, so the header lookup always succeeds; the tab ids are distinct |
| AppShell.Rendered | App.tsx:133-135 | for every active tab exactly one calculator is shown, and it is the active one |
| AppShell.Clamp | App.tsx:28-30 | the result lies in [300, 800]; it is the input when the input is in range, and otherwise the nearer bound |
| AppShell.Change | App.tsx:27 | for random in [0, 1) the drift is between -3 and +3 |
| AppShell.ChangeCoversRange | App.tsx:27 | every drift from -3 to +3 is drawn for some random value in [0, 1) |
| AppShell.InitialOnlineUsers | App.tsx:21 | for random in [0, 1) the start count lies in [300, 800] |
| AppShell.TickIsSmall | App.tsx:27-30 | from a count in range, one tick moves it by at most 3 |
| AppShell.App.constructor | App.tsx:20-21 | the app starts on the compound-interest tab with a start count in range |
| AppShell.App.Tick | App.tsx:24-34 | one timer tick sets the count to Clamp(previous + drift), keeps it in range, moves it by at most 3 from an in-range value, and leaves the tab alone |
| AppShell.App.SelectTab | App.tsx:60 | a click sets activeTab to the tab's id and leaves the count alone |
| AppShell.App.Title | App.tsx:101 | the header title is the name of the tab whose id is activeTab |

## Left out

- Rendering: the JSX markup, the recharts charts and the lucide icons. They have no arithmetic to verify. For the same reason `PieSlice` leaves out the `color` field of each pie slice (components/LoanCalc.tsx:38-39).
- Currency formatting (`Intl.NumberFormat('pt-BR', …)`) and the AI context strings. They depend on a locale library whose code is not part of this model.
- The AI insight flow (components/AiInsights.tsx, services/gemini.ts). It is asynchronous I/O against an external service.
- The timer and `Math.random`. The random draw is a parameter of `Tick` and of the constructor. The 4-second interval is a caller that calls `Tick` repeatedly. Clearing the interval has no effect on the state.
- IEEE-754 floating point: rounding error, NaN and Infinity. The model uses exact reals, so every division needs a non-zero divisor:
  - the loan needs `termMonths >= 1`, a non-zero rate and `(1+i)^n != 1` (`Loan.Amortizable`);
  - the savings goal needs `timeframeMonths >= 1`, and `(1+r)^n != 1` at a non-zero rate (`SavingsGoal.Solvable`);
  - the progress bar needs a non-zero target.

  In the app these inputs give NaN, Infinity, or a meaningless 0 or 100 %. A zero timeframe with the target below the savings gives a requirement of minus Infinity, which the clamp shows as 0, flagged not possible. A zero target with a positive effort gives a bar at the full 100 %. The model does not cover these inputs.
- `Number(e.target.value)` input coercion. Year and month counts are `nat`, so fractional or negative counts are not modelled.
- The interest percentage text at components/LoanCalc.tsx:160. It reads `results.loanAmount`, which the loan's results record (lines 42-47) does not have, so it displays NaN.
- Idempotence of the calculators. Dafny functions are deterministic, so nothing needs proving.
