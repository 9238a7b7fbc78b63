// Savings and investment simulator of the FINKET dashboard.
//
// The dashboard projects a savings balance month by month: it starts from the
// current savings, adds the monthly contribution at the start of each month,
// compounds at one twelfth of the nominal annual rate of the chosen strategy,
// then deflates the final balance by a fixed 4.5% annual inflation and tells
// the user whether the savings goal is reached.
//
// Money is modelled with exact `real` arithmetic.

module Simulator {

  // ---------------------------------------------------------------------
  // Strategy and rate
  // ---------------------------------------------------------------------

  /** The two investment strategies offered by the strategy selector. */
  datatype Strategy = Cetes | IndexFund

  /** Label of the fixed-income option, the only label the rate selection compares against. */
  const CetesLabel: string := "CETES (Renta Fija)"
  /** Label of the variable-income option. */
  const IndexFundLabel: string := "Fondo Indexado (Renta Variable)"

  /** Fixed annual inflation assumed by the simulator. */
  const Inflation: real := 0.045

  /**
   * Reads the selector's label the way the dashboard does: the CETES label
   * selects fixed income, and every other label falls to the variable-income
   * branch.
   */
  function ParseStrategy(choice: string): (s: Strategy)
    ensures s == Cetes <==> choice == CetesLabel
  {
    if choice == CetesLabel then Cetes else IndexFund
  }

  /** Nominal annual rate of a strategy. */
  function Rate(s: Strategy): (r: real)
    ensures r == 0.10 || r == 0.12
    ensures 0.0 < r < 1.0
  {
    match s
    case Cetes => 0.10
    case IndexFund => 0.12
  }

  /** The rate picked from a selector label is 10% exactly for the CETES label
    * and 12% exactly for every other label, and it is never anything else. */
  lemma RateSelection(choice: string)
    ensures Rate(ParseStrategy(choice)) == 0.10 <==> choice == CetesLabel
    ensures Rate(ParseStrategy(choice)) == 0.12 <==> choice != CetesLabel
    ensures ParseStrategy(IndexFundLabel) == IndexFund
  {
  }

  // ---------------------------------------------------------------------
  // Compounding: specification
  // ---------------------------------------------------------------------

  /** One month: add the contribution, then compound at a twelfth of the rate. */
  function Step(prev: real, monthly: real, rate: real): real
  {
    (prev + monthly) * (1.0 + rate / 12.0)
  }

  /** The running balance after `n` months, starting from `initial`. */
  function Balance(initial: real, monthly: real, rate: real, n: nat): real
  {
    if n == 0 then initial else Step(Balance(initial, monthly, rate, n - 1), monthly, rate)
  }

  /** The month-by-month balances charted by the dashboard: one entry per month,
    * appended in order. */
  function Trajectory(initial: real, monthly: real, rate: real, n: nat): (t: seq<real>)
    ensures |t| == n
  {
    if n == 0 then [] else Trajectory(initial, monthly, rate, n - 1) + [Balance(initial, monthly, rate, n)]
  }

  /** The trajectory has one entry per month and entry `k` is the balance after
    * month `k + 1`. */
  lemma {:induction false} TrajectoryShape(initial: real, monthly: real, rate: real, n: nat)
    ensures |Trajectory(initial, monthly, rate, n)| == n
    ensures forall k :: 0 <= k < n ==>
      Trajectory(initial, monthly, rate, n)[k] == Balance(initial, monthly, rate, k + 1)
  {
    if n > 0 {
      TrajectoryShape(initial, monthly, rate, n - 1);
    }
  }

  /** Every entry follows the loop's recurrence from the previous entry, or from
    * the initial savings for the first month. */
  lemma TrajectoryRecurrence(initial: real, monthly: real, rate: real, n: nat)
    ensures |Trajectory(initial, monthly, rate, n)| == n
    ensures n > 0 ==> Trajectory(initial, monthly, rate, n)[0] == Step(initial, monthly, rate)
    ensures forall k :: 0 < k < n ==>
      Trajectory(initial, monthly, rate, n)[k] == Step(Trajectory(initial, monthly, rate, n)[k - 1], monthly, rate)
  {
    TrajectoryShape(initial, monthly, rate, n);
    assert Balance(initial, monthly, rate, 1) == Step(initial, monthly, rate);
  }

  /** A one-month horizon charts the single value (initial + monthly) * (1 + rate/12). */
  lemma TrajectorySingleMonth(initial: real, monthly: real, rate: real)
    ensures Trajectory(initial, monthly, rate, 1) == [(initial + monthly) * (1.0 + rate / 12.0)]
  {
    assert Balance(initial, monthly, rate, 1) == Step(initial, monthly, rate);
    assert Trajectory(initial, monthly, rate, 1) == [] + [Balance(initial, monthly, rate, 1)];
  }

  // ---------------------------------------------------------------------
  // Compounding: properties for non-negative inputs
  // ---------------------------------------------------------------------

  /** Inputs as the dashboard's widgets and strategies allow them. */
  predicate NonNegativeInputs(initial: real, monthly: real, rate: real)
  {
    initial >= 0.0 && monthly >= 0.0 && rate >= 0.0
  }

  /** A month never lowers a non-negative balance. */
  lemma StepGrows(prev: real, monthly: real, rate: real)
    requires prev >= 0.0 && monthly >= 0.0 && rate >= 0.0
    ensures Step(prev, monthly, rate) >= prev + monthly
  {
  }

  /** Savings never go below what was paid in: the initial savings plus one
    * contribution per month. In particular the balance is never negative. */
  lemma {:induction false} BalanceCoversContributions(initial: real, monthly: real, rate: real, n: nat)
    requires NonNegativeInputs(initial, monthly, rate)
    ensures Balance(initial, monthly, rate, n) >= initial + (n as real) * monthly
    ensures Balance(initial, monthly, rate, n) >= 0.0
  {
    if n > 0 {
      BalanceCoversContributions(initial, monthly, rate, n - 1);
      StepGrows(Balance(initial, monthly, rate, n - 1), monthly, rate);
    }
  }

  /** The balance is non-decreasing over the months. */
  lemma {:induction false} BalanceMonotone(initial: real, monthly: real, rate: real, i: nat, j: nat)
    requires NonNegativeInputs(initial, monthly, rate)
    requires i <= j
    ensures Balance(initial, monthly, rate, i) <= Balance(initial, monthly, rate, j)
  {
    if i < j {
      BalanceMonotone(initial, monthly, rate, i, j - 1);
      BalanceCoversContributions(initial, monthly, rate, j - 1);
      StepGrows(Balance(initial, monthly, rate, j - 1), monthly, rate);
    }
  }

  /** With non-negative inputs every charted entry is non-negative, the chart
    * never goes down, and the first month already holds at least the initial
    * savings. */
  lemma TrajectoryNonNegativeSorted(initial: real, monthly: real, rate: real, n: nat)
    requires NonNegativeInputs(initial, monthly, rate)
    ensures forall k :: 0 <= k < n ==> Trajectory(initial, monthly, rate, n)[k] >= 0.0
    ensures forall i, j :: 0 <= i <= j < n ==>
      Trajectory(initial, monthly, rate, n)[i] <= Trajectory(initial, monthly, rate, n)[j]
    ensures n > 0 ==> Trajectory(initial, monthly, rate, n)[0] >= initial
  {
    TrajectoryShape(initial, monthly, rate, n);
    var t := Trajectory(initial, monthly, rate, n);
    forall k | 0 <= k < n
      ensures t[k] >= 0.0
    {
      BalanceCoversContributions(initial, monthly, rate, k + 1);
    }
    forall i, j | 0 <= i <= j < n
      ensures t[i] <= t[j]
    {
      BalanceMonotone(initial, monthly, rate, i + 1, j + 1);
    }
    if n > 0 {
      BalanceCoversContributions(initial, monthly, rate, 1);
    }
  }

  /** With no savings and no contributions the balance stays at zero. */
  lemma {:induction false} ZeroSavingsStayZero(rate: real, n: nat)
    ensures Balance(0.0, 0.0, rate, n) == 0.0
  {
    if n > 0 {
      ZeroSavingsStayZero(rate, n - 1);
    }
  }

  // ---------------------------------------------------------------------
  // Compounding: the loop
  // ---------------------------------------------------------------------

  /**
   * The dashboard's loop: `months` times, add the contribution to the running
   * balance, compound it and append it to the charted values.
   */
  method Simulate(initial: real, monthly: real, rate: real, months: nat)
    returns (accumulated: real, values: seq<real>)
    ensures accumulated == Balance(initial, monthly, rate, months)
    ensures values == Trajectory(initial, monthly, rate, months)
    ensures |values| == months
    ensures months >= 1 ==> accumulated == values[months - 1]
    ensures months == 0 ==> accumulated == initial
  {
    accumulated := initial;
    values := [];
    var i := 0;
    while i < months
      invariant 0 <= i <= months
      invariant accumulated == Balance(initial, monthly, rate, i)
      invariant values == Trajectory(initial, monthly, rate, i)
    {
      accumulated := (accumulated + monthly) * (1.0 + rate / 12.0);
      assert accumulated == Step(Balance(initial, monthly, rate, i), monthly, rate);
      values := values + [accumulated];
      i := i + 1;
    }
    TrajectoryShape(initial, monthly, rate, months);
  }

  // ---------------------------------------------------------------------
  // Inflation adjustment and goal check
  // ---------------------------------------------------------------------

  /** `base` raised to a natural power. */
  function Pow(base: real, k: nat): real
  {
    if k == 0 then 1.0 else base * Pow(base, k - 1)
  }

  /** Compounded inflation over a whole number of years is above one. */
  lemma {:induction false} PowAboveOne(base: real, k: nat)
    requires base > 1.0 && k >= 1
    ensures Pow(base, k) > 1.0
  {
    if k > 1 {
      PowAboveOne(base, k - 1);
      assert base * Pow(base, k - 1) > Pow(base, k - 1);
    }
  }

  /** Powers add their exponents. */
  lemma {:induction false} PowAdd(base: real, m: nat, n: nat)
    ensures Pow(base, m + n) == Pow(base, m) * Pow(base, n)
  {
    if n > 0 {
      PowAdd(base, m, n - 1);
      assert Pow(base, m + n) == base * Pow(base, m + n - 1);
    }
  }

  /** A power of a power multiplies the exponents. */
  lemma {:induction false} PowMul(base: real, y: nat, k: nat)
    ensures Pow(Pow(base, y), k) == Pow(base, y * k)
  {
    if k > 0 {
      PowMul(base, y, k - 1);
      PowAdd(base, y, y * (k - 1));
      assert y * k == y + y * (k - 1);
    }
  }

  /** Powers of positive numbers are positive. */
  lemma {:induction false} PowPositive(base: real, k: nat)
    requires base > 0.0
    ensures Pow(base, k) > 0.0
  {
    if k > 0 {
      PowPositive(base, k - 1);
    }
  }

  /** A positive power is strictly increasing in its positive base. */
  lemma {:induction false} PowStrictlyIncreasing(a: real, b: real, k: nat)
    requires 0.0 < a < b && k >= 1
    ensures Pow(a, k) < Pow(b, k)
  {
    if k > 1 {
      PowStrictlyIncreasing(a, b, k - 1);
      PowPositive(a, k - 1);
      var x, y := Pow(a, k - 1), Pow(b, k - 1);
      assert a * x < b * x;
      assert b * x < b * y;
    }
  }

  /**
   * What is known of the deflator D = (1 + inflation)^(months / 12): it is the
   * positive twelfth root of (1 + inflation)^months, so D^12 equals that whole
   * power; it is above one; it lies between the powers for the whole years
   * before and after the horizon; and for a whole number of years it is the
   * integer power.
   */
  predicate ValidDeflator(deflator: real, months: nat)
  {
    deflator > 1.0
    && Pow(deflator, 12) == Pow(1.0 + Inflation, months)
    && Pow(1.0 + Inflation, months / 12) <= deflator <= Pow(1.0 + Inflation, months / 12 + 1)
    && (months > 0 && months % 12 == 0 ==> deflator == Pow(1.0 + Inflation, months / 12))
  }

  /** At most one deflator meets `ValidDeflator` for a given horizon, so the
    * real value and the goal outcome are determined by the inputs. */
  lemma ValidDeflatorUnique(d1: real, d2: real, months: nat)
    requires ValidDeflator(d1, months) && ValidDeflator(d2, months)
    ensures d1 == d2
  {
    if d1 < d2 {
      PowStrictlyIncreasing(d1, d2, 12);
    } else if d2 < d1 {
      PowStrictlyIncreasing(d2, d1, 12);
    }
  }

  /** The deflator of every whole-year horizon meets `ValidDeflator`. */
  lemma WholeYearDeflator(months: nat)
    requires months > 0 && months % 12 == 0
    ensures ValidDeflator(Pow(1.0 + Inflation, months / 12), months)
  {
    var years := months / 12;
    PowAboveOne(1.0 + Inflation, years);
    assert Pow(1.0 + Inflation, years + 1) == (1.0 + Inflation) * Pow(1.0 + Inflation, years);
    PowMul(1.0 + Inflation, years, 12);
    assert years * 12 == months;
  }

  /** The final balance in today's money. Deflating never makes a non-negative
    * balance negative nor larger, and multiplying back gives the balance. */
  function RealValue(accumulated: real, deflator: real): (v: real)
    requires deflator > 1.0
    ensures v * deflator == accumulated
    ensures accumulated >= 0.0 ==> 0.0 <= v <= accumulated
    ensures accumulated > 0.0 ==> v < accumulated
  {
    var v := accumulated / deflator;
    assert v * deflator == accumulated;
    var excess := deflator - 1.0;
    assert v * deflator == v + v * excess;
    assert accumulated >= 0.0 ==> v >= 0.0;
    assert v >= 0.0 ==> v * excess >= 0.0;
    assert v > 0.0 ==> v * excess > 0.0;
    v
  }

  /** The two messages the dashboard can show after the projection. */
  datatype Outcome = GoalReached | AdjustPlan

  function GoalOutcome(realValue: real, goal: real): (o: Outcome)
    ensures o == GoalReached <==> realValue >= goal
    ensures o == AdjustPlan <==> realValue < goal
  {
    if realValue >= goal then GoalReached else AdjustPlan
  }

  // ---------------------------------------------------------------------
  // The simulator panel
  // ---------------------------------------------------------------------

  /** What the panel computes and shows. */
  datatype Report = Report(accumulated: real, values: seq<real>, realValue: real, outcome: Outcome)

  /**
   * One run of the simulator panel with the widgets' values: goal, horizon in
   * months (1 to 60), current savings and monthly contribution (whole,
   * non-negative amounts) and the strategy choice; `deflator` stands for
   * (1 + inflation)^(months / 12).
   */
  method RunSimulator(goal: nat, months: int, initial: nat, monthly: nat, choice: string, deflator: real)
    returns (report: Report)
    requires 1 <= months <= 60
    requires ValidDeflator(deflator, months)
    ensures report.accumulated == Balance(initial as real, monthly as real, Rate(ParseStrategy(choice)), months)
    ensures report.values == Trajectory(initial as real, monthly as real, Rate(ParseStrategy(choice)), months)
    ensures |report.values| == months && report.accumulated == report.values[months - 1]
    ensures report.values[0] >= initial as real
    ensures forall i, j :: 0 <= i <= j < months ==> 0.0 <= report.values[i] <= report.values[j]
    ensures report.realValue * deflator == report.accumulated
    ensures 0.0 <= report.realValue <= report.accumulated
    ensures report.realValue * Pow(1.0 + Inflation, months / 12 + 1) >= report.accumulated
    ensures report.outcome == GoalReached <==> report.realValue >= goal as real
  {
    var rate := Rate(ParseStrategy(choice));
    var accumulated, values := Simulate(initial as real, monthly as real, rate, months);
    TrajectoryNonNegativeSorted(initial as real, monthly as real, rate, months);
    BalanceCoversContributions(initial as real, monthly as real, rate, months);
    var realValue := RealValue(accumulated, deflator);
    var upper := Pow(1.0 + Inflation, months / 12 + 1);
    var gap := upper - deflator;
    assert gap >= 0.0 && realValue >= 0.0;
    assert realValue * gap >= 0.0;
    assert realValue * upper == realValue * deflator + realValue * gap;
    report := Report(accumulated, values, realValue, GoalOutcome(realValue, goal as real));
  }

  /** With nothing saved and nothing contributed, only a zero goal is reached. */
  lemma NothingSavedReachesOnlyZeroGoal(goal: nat, months: nat, choice: string, deflator: real)
    requires deflator > 1.0
    ensures var v := RealValue(Balance(0.0, 0.0, Rate(ParseStrategy(choice)), months), deflator);
      GoalOutcome(v, goal as real) == GoalReached <==> goal == 0
  {
    ZeroSavingsStayZero(Rate(ParseStrategy(choice)), months);
  }
}
