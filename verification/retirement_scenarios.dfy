/**
 * The projection engine and the sustainable-spending solver of
 * sections/retirement_scenarios.py.
 *
 * A scenario's balance is projected year by year from `currentAge` to
 * `finalAge`: before retirement it grows and receives the annual
 * contribution, from retirement on it grows and loses an inflation-indexed
 * withdrawal whose exponent is the step index counted from `currentAge`.
 * The solver bisects the spending level over [0, startingBalance].
 */
module RetirementScenarios {

  /** One scenario's parameters (the display colour is left out). */
  datatype Scenario = Scenario(
    name: string,
    currentAge: int,
    finalAge: int,
    retirementAge: int,
    annualContribution: real,
    growthRate: real,          // percent per year
    inflationRate: real,       // percent per year
    retirementSpending: real,  // per year, before inflation
    startingBalance: real)

  /** What the projection hands to the chart: the ages, the balance at each age, the last balance. */
  datatype Projection = Projection(years: seq<int>, balances: seq<real>, finalBalance: real)

  /** The bisection stops once the bracket is at most this wide. */
  const Tolerance: real := 100.0

  /** `x ** n` for a whole exponent. */
  function Pow(x: real, n: nat): real
  {
    if n == 0 then 1.0 else x * Pow(x, n - 1)
  }

  function GrowthFactor(s: Scenario): real { 1.0 + s.growthRate / 100.0 }

  function InflationFactor(s: Scenario): real { 1.0 + s.inflationRate / 100.0 }

  /** Number of accumulation steps: `retirement_age - current_age`, compared against the step index. */
  function AccumulationSteps(s: Scenario): int { s.retirementAge - s.currentAge }

  /** Number of yearly steps taken: `len(years) - 1`, and none when `years` is empty. */
  function Steps(s: Scenario): nat
  {
    if s.finalAge >= s.currentAge then s.finalAge - s.currentAge else 0
  }

  /** The withdrawal taken at step `t` (counted from `currentAge`). */
  function Withdrawal(s: Scenario, spending: real, t: nat): real
  {
    spending * Pow(InflationFactor(s), t)
  }

  /** The balance after step `t` from balance `b`: growth, then contribution or withdrawal. */
  function Step(s: Scenario, spending: real, t: nat, b: real): real
  {
    if t < AccumulationSteps(s) then b * GrowthFactor(s) + s.annualContribution
    else b * GrowthFactor(s) - Withdrawal(s, spending, t)
  }

  /** Reference definition of the projection: the balance after `t` steps. */
  function BalanceAt(s: Scenario, spending: real, t: nat): real
  {
    if t == 0 then s.startingBalance
    else Step(s, spending, t - 1, BalanceAt(s, spending, t - 1))
  }

  /** The balance at `finalAge` (the starting balance when there is no step to take). */
  function FinalBalance(s: Scenario, spending: real): real
  {
    BalanceAt(s, spending, Steps(s))
  }

  /** When neither factor is negative, more spending never leaves more money. */
  predicate FactorsNonNegative(s: Scenario)
  {
    GrowthFactor(s) >= 0.0 && InflationFactor(s) >= 0.0
  }

  /** Projects the balance year by year (project_scenario). */
  method ProjectScenario(s: Scenario, spending: real) returns (p: Projection)
    ensures |p.years| == (if s.finalAge >= s.currentAge then s.finalAge - s.currentAge + 1 else 0)
    ensures forall i :: 0 <= i < |p.years| ==> p.years[i] == s.currentAge + i
    ensures |p.balances| == Steps(s) + 1
    ensures s.finalAge >= s.currentAge ==> |p.balances| == |p.years|
    ensures p.balances[0] == s.startingBalance
    ensures forall t {:trigger p.balances[t]} :: 0 <= t < |p.balances| ==> p.balances[t] == BalanceAt(s, spending, t)
    ensures p.finalBalance == p.balances[|p.balances| - 1] == FinalBalance(s, spending)
  {
    var years := seq(if s.finalAge >= s.currentAge then s.finalAge - s.currentAge + 1 else 0,
                     i => s.currentAge + i);
    var balances := [s.startingBalance];
    var n := if |years| >= 1 then |years| - 1 else 0;
    var year := 0;
    while year < n
      invariant 0 <= year <= n == Steps(s)
      invariant |balances| == year + 1
      invariant forall t {:trigger balances[t]} :: 0 <= t < |balances| ==> balances[t] == BalanceAt(s, spending, t)
    {
      var currentBalance := balances[|balances| - 1];
      var afterGrowth := currentBalance * GrowthFactor(s);
      var afterCashFlow;
      if year < s.retirementAge - s.currentAge {
        afterCashFlow := afterGrowth + s.annualContribution;
      } else {
        var adjustedSpending := spending * Pow(InflationFactor(s), year);
        afterCashFlow := afterGrowth - adjustedSpending;
      }
      assert afterCashFlow == Step(s, spending, year, BalanceAt(s, spending, year));
      balances := balances + [afterCashFlow];
      year := year + 1;
    }
    p := Projection(years, balances, balances[|balances| - 1]);
  }

  /** Finds the largest spending that still leaves a positive final balance, to within
      `Tolerance` (calculate_max_spending). */
  method CalculateMaxSpending(s: Scenario) returns (r: real)
    ensures 0.0 <= r
    ensures s.startingBalance <= Tolerance ==> r == 0.0
    ensures s.startingBalance >= 0.0 ==> r <= s.startingBalance
    ensures r == 0.0 || FinalBalance(s, r) > 0.0
    ensures s.startingBalance >= 0.0 ==>
      exists h :: r <= h <= r + Tolerance && (h == s.startingBalance || FinalBalance(s, h) <= 0.0)
    ensures FactorsNonNegative(s) && r > 0.0 ==>
      forall x :: x <= r ==> FinalBalance(s, x) > 0.0
    ensures FactorsNonNegative(s) ==>
      forall x :: r + Tolerance <= x < s.startingBalance ==> FinalBalance(s, x) <= 0.0
  {
    var minSpend := 0.0;
    var maxSpend := s.startingBalance;
    while maxSpend - minSpend > Tolerance
      invariant s.startingBalance <= Tolerance ==> minSpend == 0.0 && maxSpend == s.startingBalance
      invariant 0.0 <= minSpend
      invariant maxSpend <= s.startingBalance
      invariant s.startingBalance >= 0.0 ==> minSpend <= maxSpend
      invariant minSpend == 0.0 || FinalBalance(s, minSpend) > 0.0
      invariant maxSpend == s.startingBalance || FinalBalance(s, maxSpend) <= 0.0
      decreases (maxSpend - minSpend).Floor
    {
      var currentSpend := (maxSpend + minSpend) / 2.0;
      var projection := ProjectScenario(s, currentSpend);
      if projection.finalBalance > 0.0 {
        minSpend := currentSpend;
      } else {
        maxSpend := currentSpend;
      }
    }
    r := minSpend;
    if s.startingBalance >= 0.0 {
      assert r <= maxSpend <= r + Tolerance;
    }
    if FactorsNonNegative(s) {
      if r > 0.0 {
        forall x | x <= r ensures FinalBalance(s, x) > 0.0 {
          FinalBalanceAntitone(s, x, r);
        }
      }
      forall x | r + Tolerance <= x < s.startingBalance ensures FinalBalance(s, x) <= 0.0 {
        FinalBalanceAntitone(s, maxSpend, x);
      }
    }
  }

  /** Any trajectory that agrees with `BalanceAt` obeys the two-phase step rule, with the
      inflation exponent counted from `currentAge`. */
  lemma TrajectoryFollowsStepRule(s: Scenario, spending: real, bs: seq<real>)
    requires |bs| == Steps(s) + 1
    requires forall t {:trigger bs[t]} :: 0 <= t < |bs| ==> bs[t] == BalanceAt(s, spending, t)
    ensures forall t :: 0 <= t < Steps(s) && t < AccumulationSteps(s) ==>
      bs[t + 1] == bs[t] * GrowthFactor(s) + s.annualContribution
    ensures forall t :: 0 <= t < Steps(s) && t >= AccumulationSteps(s) ==>
      bs[t + 1] == bs[t] * GrowthFactor(s) - spending * Pow(InflationFactor(s), t)
  {
    forall t | 0 <= t < Steps(s) && t < AccumulationSteps(s)
      ensures bs[t + 1] == bs[t] * GrowthFactor(s) + s.annualContribution
    {
      assert BalanceAt(s, spending, t + 1) == Step(s, spending, t, BalanceAt(s, spending, t));
    }
    forall t | 0 <= t < Steps(s) && t >= AccumulationSteps(s)
      ensures bs[t + 1] == bs[t] * GrowthFactor(s) - spending * Pow(InflationFactor(s), t)
    {
      assert BalanceAt(s, spending, t + 1) == Step(s, spending, t, BalanceAt(s, spending, t));
    }
  }

  lemma {:induction false} PowNonNegative(x: real, n: nat)
    requires x >= 0.0
    ensures Pow(x, n) >= 0.0
  {
    if n > 0 {
      PowNonNegative(x, n - 1);
      MulNonNegative(x, Pow(x, n - 1));
    }
  }

  lemma MulNonNegative(a: real, b: real)
    requires a >= 0.0 && b >= 0.0
    ensures a * b >= 0.0
  {
  }

  lemma MulMonotone(a: real, b: real, c: real)
    requires a <= b && c >= 0.0
    ensures a * c <= b * c
  {
    MulNonNegative(b - a, c);
  }

  /** The balance after every step is non-increasing in the spending level. */
  lemma {:induction false} BalanceAntitone(s: Scenario, lo: real, hi: real, t: nat)
    requires FactorsNonNegative(s) && lo <= hi
    ensures BalanceAt(s, hi, t) <= BalanceAt(s, lo, t)
  {
    if t > 0 {
      BalanceAntitone(s, lo, hi, t - 1);
      MulMonotone(BalanceAt(s, hi, t - 1), BalanceAt(s, lo, t - 1), GrowthFactor(s));
      PowNonNegative(InflationFactor(s), t - 1);
      MulMonotone(lo, hi, Pow(InflationFactor(s), t - 1));
    }
  }

  /** The monotonicity the bisection relies on: spending more never leaves a larger final balance. */
  lemma FinalBalanceAntitone(s: Scenario, lo: real, hi: real)
    requires FactorsNonNegative(s) && lo <= hi
    ensures FinalBalance(s, hi) <= FinalBalance(s, lo)
  {
    BalanceAntitone(s, lo, hi, Steps(s));
  }

  /** The spending level plays no part before retirement. */
  lemma {:induction false} AccumulationIgnoresSpending(s: Scenario, a: real, b: real, t: nat)
    requires t <= AccumulationSteps(s)
    ensures BalanceAt(s, a, t) == BalanceAt(s, b, t)
  {
    if t > 0 {
      AccumulationIgnoresSpending(s, a, b, t - 1);
    }
  }

  /** sum of g^j for j < t, built as the accumulation phase builds it. */
  function Annuity(g: real, t: nat): real
  {
    if t == 0 then 0.0 else Annuity(g, t - 1) * g + 1.0
  }

  /** `t` years of growth by factor `g` plus contribution `c`, from balance `a`. */
  function Accumulated(a: real, g: real, c: real, t: nat): real
  {
    if t == 0 then a else Accumulated(a, g, c, t - 1) * g + c
  }

  /** Closed form of compounding with a fixed contribution. */
  lemma {:induction false} AccumulatedClosedForm(a: real, g: real, c: real, t: nat)
    ensures Accumulated(a, g, c, t) == a * Pow(g, t) + c * Annuity(g, t)
  {
    if t > 0 {
      AccumulatedClosedForm(a, g, c, t - 1);
      Regroup(a, c, Pow(g, t - 1), Annuity(g, t - 1), g);
    }
  }

  lemma Regroup(a: real, c: real, p: real, q: real, g: real)
    ensures (a * p + c * q) * g + c == a * (g * p) + c * (q * g + 1.0)
  {
  }

  /** Before retirement the projection is plain compounding with the annual contribution. */
  lemma {:induction false} AccumulationIsCompounding(s: Scenario, spending: real, t: nat)
    requires t <= AccumulationSteps(s)
    ensures BalanceAt(s, spending, t) == Accumulated(s.startingBalance, GrowthFactor(s), s.annualContribution, t)
  {
    if t > 0 {
      AccumulationIsCompounding(s, spending, t - 1);
    }
  }

  /** Closed form of the accumulation phase: compounded start plus compounded contributions. */
  lemma AccumulationClosedForm(s: Scenario, spending: real, t: nat)
    requires t <= AccumulationSteps(s)
    ensures BalanceAt(s, spending, t) ==
      s.startingBalance * Pow(GrowthFactor(s), t) + s.annualContribution * Annuity(GrowthFactor(s), t)
  {
    AccumulationIsCompounding(s, spending, t);
    AccumulatedClosedForm(s.startingBalance, GrowthFactor(s), s.annualContribution, t);
  }

  /** The first withdrawal is already inflated by the years spent accumulating: the exponent
      is counted from `currentAge`, not from retirement. */
  lemma FirstWithdrawalInflatedFromStart(s: Scenario, spending: real)
    requires 0 <= AccumulationSteps(s) < Steps(s)
    ensures BalanceAt(s, spending, AccumulationSteps(s) + 1) ==
      BalanceAt(s, spending, AccumulationSteps(s)) * GrowthFactor(s)
      - spending * Pow(InflationFactor(s), AccumulationSteps(s))
  {
  }
}
