/** The projections in the formulas of a textbook: powers of one plus the rate per period
 *  (src/finance/retirementSim.ts:70-97, src/finance/slipCost.ts). */
module AnnuityMeaning {
  import opened Prelude
  import opened Retirement

  /** The whole number nearest to a number of periods, halves up, none below nothing. */
  predicate IsNearest(periods: real, n: nat) {
    (n == 0 && periods < 0.5) || (n as real - 0.5 <= periods < n as real + 0.5)
  }

  lemma PeriodsMean(years: real, perYear: int, n: nat)
    ensures WholePeriods(years, perYear) == n <==> IsNearest(years * perYear as real, n)
  {
  }

  /** A power is a product of n equal factors. */
  lemma PowerMeans(g: real, n: nat)
    ensures Pow(g, 0) == 1.0 && Pow(g, n + 1) == g * Pow(g, n)
  {
  }

  lemma {:induction false} GeometricCloses(g: real, n: nat)
    ensures Geometric(g, n) * (g - 1.0) == Pow(g, n) - 1.0
  {
    if n > 0 {
      GeometricCloses(g, n - 1);
      Distribute(Geometric(g, n - 1), Pow(g, n - 1), g - 1.0);
      assert Pow(g, n - 1) * (g - 1.0) == g * Pow(g, n - 1) - Pow(g, n - 1);
    }
  }

  /** What n contributions are worth at a rate per period that is not zero. */
  function AnnuityWorth(contribution: real, rate: real, n: nat): real
    requires rate > 0.0
  {
    contribution * ((Pow(1.0 + rate, n) - 1.0) / rate)
  }

  /** A start compounded for n periods, and the worth of n contributions. */
  function PlanWorth(pot: real, contribution: real, rate: real, n: nat): real
    requires rate > 0.0
  {
    pot * Pow(1.0 + rate, n) + AnnuityWorth(contribution, rate, n)
  }

  lemma Divided(x: real, k: real, y: real)
    requires k > 0.0 && x * k == y
    ensures x == y / k
  {
  }

  lemma AnnuityCloses(contribution: real, rate: real, n: nat)
    requires rate > 0.0
    ensures contribution * Geometric(1.0 + rate, n) == AnnuityWorth(contribution, rate, n)
  {
    hide Pow, Geometric;
    GeometricCloses(1.0 + rate, n);
    assert (1.0 + rate) - 1.0 == rate;
    Divided(Geometric(1.0 + rate, n), rate, Pow(1.0 + rate, n) - 1.0);
  }

  /** What the loop computes, period by period. */
  lemma GrownMeans(pot: real, contribution: real, rate: real, perYear: int, n: nat)
    requires perYear > 0
    ensures rate > 0.0 ==> Grown(pot, contribution, Factor(rate, perYear), n) == PlanWorth(pot, contribution, rate / perYear as real, n)
    ensures rate <= 0.0 ==> Factor(rate, perYear) == 1.0
  {
    if rate > 0.0 {
      AnnuityFormula(pot, contribution, 1.0 + rate / perYear as real, n);
      AnnuityCloses(contribution, rate / perYear as real, n);
      hide Grown, Pow, Geometric, AnnuityWorth;
    }
  }

  /** THE PLAN. Without growth the pot is the start and the contributions, to the unit; with
   *  growth it is the start compounded monthly at a twelfth of the rate and the worth of the
   *  contributions, to the nearest unit. */
  lemma PlanMeans(b: Base, n: nat)
    requires IsNearest(b.years * 12.0, n)
    ensures Projected(b).contributed == b.contribution * n
    ensures b.rate <= 0.0 ==> Projected(b).pot == b.pot + b.contribution * n
    ensures b.rate > 0.0 ==> Projected(b).pot == Round(PlanWorth(b.pot as real, b.contribution as real, b.rate / 12.0, n))
    ensures var gain := Projected(b).pot - b.pot - b.contribution * n;
            Projected(b).growth == if gain > 0 then gain else 0
  {
    PeriodsMean(b.years, 12, n);
    hide WholePeriods, Grown, Round, IsNearest, PlanWorth, Factor;
    PlainSum(b.pot, b.contribution, n);
    WholeRounds(b.pot + b.contribution * n);
    GrownMeans(b.pot as real, b.contribution as real, b.rate, 12, n);
  }

  /** How often a habit is paid for in a year. */
  function Frequency(cadence: Cadence): int {
    if cadence == Daily then 365 else if cadence == Weekly then 52 else 12
  }

  /** THE HABIT. Its payments, invested at its own cadence at the rate's share of each period. */
  lemma HabitMeans(amount: int, cadence: Cadence, years: real, rate: real, n: nat)
    requires IsNearest(years * Frequency(cadence) as real, n)
    ensures PerYear(cadence) == Frequency(cadence) && WholePeriods(years, PerYear(cadence)) == n
    ensures rate <= 0.0 ==> Invested(amount, cadence, years, rate) == amount * n
    ensures rate > 0.0 ==>
              Invested(amount, cadence, years, rate) == Round(PlanWorth(0.0, amount as real, rate / Frequency(cadence) as real, n))
  {
    assert PerYear(cadence) == Frequency(cadence);
    PeriodsMean(years, PerYear(cadence), n);
    hide WholePeriods, Grown, Round, IsNearest, PlanWorth, Factor, Frequency, PerYear;
    PlainSum(0, amount, n);
    WholeRounds(amount * n);
    GrownMeans(0.0, amount as real, rate, PerYear(cadence), n);
  }

  /** Rounding is to the nearest whole number, a half upwards. */
  lemma RoundMeans(x: real, n: int)
    ensures Round(x) == n <==> n as real - 0.5 <= x < n as real + 0.5
  {
  }
}
