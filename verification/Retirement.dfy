/** The annuity loops (src/finance/retirementSim.ts, src/finance/slipCost.ts), over real
 *  numbers: growth, the cost of waiting, and the price of a habit. */
module Retirement {
  import opened Prelude

  function Pow(g: real, n: nat): real {
    if n == 0 then 1.0 else g * Pow(g, n - 1)
  }

  /** 1 + g + ... + g^(n - 1). */
  function Geometric(g: real, n: nat): real {
    if n == 0 then 0.0 else Geometric(g, n - 1) + Pow(g, n - 1)
  }

  /** A pot that grows by the factor g each period and takes a contribution at its end. */
  function Grown(pot: real, contribution: real, g: real, n: nat): real {
    if n == 0 then pot else Grown(pot, contribution, g, n - 1) * g + contribution
  }

  function WholePeriods(years: real, perYear: int): nat {
    Max(0, Round(years * perYear as real))
  }

  /** The growth factor of one period; a rate at or below zero does not compound. */
  function Factor(rate: real, perYear: int): real
    requires perYear > 0
  {
    if rate <= 0.0 then 1.0 else 1.0 + rate / perYear as real
  }

  datatype Base = Base(pot: int, contribution: int, years: real, rate: real)

  datatype Projection = Projection(pot: int, contributed: int, growth: int)

  /** The pot at the horizon, before rounding. */
  function Horizon(b: Base): real {
    Grown(b.pot as real, b.contribution as real, Factor(b.rate, 12), WholePeriods(b.years, 12))
  }

  function Projected(b: Base): Projection {
    var contributed := b.contribution * WholePeriods(b.years, 12);
    var pot := Round(Horizon(b));
    Projection(pot, contributed, Max(0, pot - b.pot - contributed))
  }

  // --- annuities ---

  lemma {:induction false} PowAdd(g: real, m: nat, n: nat)
    ensures Pow(g, m + n) == Pow(g, m) * Pow(g, n)
  {
    if m > 0 {
      PowAdd(g, m - 1, n);
      assert g * (Pow(g, m - 1) * Pow(g, n)) == (g * Pow(g, m - 1)) * Pow(g, n);
    }
  }

  lemma {:induction false} PowAtLeastOne(g: real, n: nat)
    requires g >= 1.0
    ensures Pow(g, n) >= 1.0
  {
    if n > 0 {
      PowAtLeastOne(g, n - 1);
      ScaleUp(1.0, Pow(g, n - 1), g);
    }
  }

  lemma ScaleUp(x: real, y: real, k: real)
    requires x <= y && k >= 0.0
    ensures k * x <= k * y
  {
    assert k * (y - x) >= 0.0;
  }

  /** The sum splits: the first n terms, and the rest scaled by g^n. */
  lemma {:induction false} GeometricAdd(g: real, m: nat, n: nat)
    ensures Geometric(g, m + n) == Geometric(g, n) + Pow(g, n) * Geometric(g, m)
  {
    if m > 0 {
      GeometricAdd(g, m - 1, n);
      PowAdd(g, n, m - 1);
      assert Pow(g, n) * (Geometric(g, m - 1) + Pow(g, m - 1))
          == Pow(g, n) * Geometric(g, m - 1) + Pow(g, n) * Pow(g, m - 1);
    }
  }

  lemma GeometricStep(g: real, n: nat)
    ensures Geometric(g, n + 1) == Geometric(g, n) * g + 1.0
  {
    GeometricAdd(g, n, 1);
    assert Pow(g, 1) == g * Pow(g, 0) == g;
    assert Geometric(g, 1) == Geometric(g, 0) + Pow(g, 0) == 1.0;
    assert g * Geometric(g, n) == Geometric(g, n) * g;
  }

  /** The month-by-month loop has the textbook closed form of an ordinary annuity. */
  lemma {:induction false} AnnuityFormula(pot: real, contribution: real, g: real, n: nat)
    ensures Grown(pot, contribution, g, n) == pot * Pow(g, n) + contribution * Geometric(g, n)
  {
    if n > 0 {
      AnnuityFormula(pot, contribution, g, n - 1);
      GeometricStep(g, n - 1);
      var p, s := Pow(g, n - 1), Geometric(g, n - 1);
      calc {
        (pot * p + contribution * s) * g + contribution;
        pot * p * g + contribution * s * g + contribution;
        pot * (g * p) + contribution * (s * g + 1.0);
      }
    }
  }

  lemma {:induction false} NoGrowth(n: nat)
    ensures Pow(1.0, n) == 1.0 && Geometric(1.0, n) == n as real
  {
    if n > 0 {
      NoGrowth(n - 1);
    }
  }

  // --- the loops ---

  method ProjectRetirement(b: Base) returns (p: Projection)
    ensures p == Projected(b)
  {
    var months := WholePeriods(b.years, 12);
    var contributed := b.contribution * months;
    var projected: int;
    if b.rate <= 0.0 {
      PlainSum(b.pot, b.contribution, months);
      projected := b.pot + contributed;
    } else {
      var perMonthRate := b.rate / 12.0;
      var pot := b.pot as real;
      for i := 0 to months
        invariant pot == Grown(b.pot as real, b.contribution as real, 1.0 + perMonthRate, i)
      {
        pot := pot * (1.0 + perMonthRate) + b.contribution as real;
      }
      projected := Round(pot);
    }
    p := Projection(projected, contributed, Max(0, projected - b.pot - contributed));
  }

  datatype Waiting = Waiting(startNow: int, startLater: int, cost: int)

  function RealMax(x: real, y: real): real {
    if x < y then y else x
  }

  function RealMin(x: real, y: real): real {
    if x < y then x else y
  }

  /** The pot that waits, grown without contributions and rounded. */
  function PotAtStart(b: Base, delayYears: real): int {
    Projected(Base(b.pot, 0, RealMin(delayYears, b.years), b.rate)).pot
  }

  method StartNowVsLater(b: Base, delayYears: real) returns (w: Waiting)
    ensures w.startNow == Projected(b).pot
    ensures w.startLater == Projected(Base(PotAtStart(b, delayYears), b.contribution, RealMax(0.0, b.years - delayYears), b.rate)).pot
    ensures w.cost == Max(0, w.startNow - w.startLater)
  {
    var now := ProjectRetirement(b);
    var waited := ProjectRetirement(Base(b.pot, 0, RealMin(delayYears, b.years), b.rate));
    var later := ProjectRetirement(Base(waited.pot, b.contribution, RealMax(0.0, b.years - delayYears), b.rate));
    w := Waiting(now.pot, later.pot, Max(0, now.pot - later.pot));
  }

  function Cost(b: Base, delayYears: real): int {
    Max(0, Projected(b).pot
           - Projected(Base(PotAtStart(b, delayYears), b.contribution, RealMax(0.0, b.years - delayYears), b.rate)).pot)
  }

  lemma RoundIsNear(x: real)
    ensures -0.5 <= Round(x) as real - x <= 0.5
  {
  }

  lemma Scaled(e: real, k: real) returns (product: real)
    requires -0.5 <= e <= 0.5 && k >= 0.0
    ensures product == e * k
    ensures -(k / 2.0) <= product <= k / 2.0
  {
    product := e * k;
    ScaleUp(e, 0.5, k);
    assert k * e <= k / 2.0;
    ScaleUp(-0.5, e, k);
    assert -(k / 2.0) <= k * e;
  }

  lemma WholeMonths(years: real, n: nat)
    requires years * 12.0 == n as real
    ensures WholePeriods(years, 12) == n
  {
  }

  lemma Distribute(x: real, y: real, k: real)
    ensures (x + y) * k == x * k + y * k && k * (x + y) == k * x + k * y
  {
  }

  lemma Regroup(x: real, y: real, z: real)
    ensures x * (y * z) == x * y * z
  {
  }

  lemma NoContribution(pot: real, g: real, n: nat)
    ensures Grown(pot, 0.0, g, n) == pot * Pow(g, n)
  {
    AnnuityFormula(pot, 0.0, g, n);
    assert 0.0 * Geometric(g, n) == 0.0;
  }

  /** The months of a plan: of its horizon, of the wait, and of what remains. Each is rounded
   *  on its own. */
  function Months(b: Base, delayYears: real): (nat, nat, nat) {
    (WholePeriods(b.years, 12), WholePeriods(RealMin(delayYears, b.years), 12), WholePeriods(RealMax(0.0, b.years - delayYears), 12))
  }

  /** What the delay costs before amounts are rounded: the growth of the pot over months that
   *  got lost between the roundings, and the contributions not made. */
  function IdealCost(pot: real, contribution: real, g: real, n: nat, waited: nat, left: nat): real {
    pot * (Pow(g, n) - Pow(g, waited + left)) + contribution * (Geometric(g, n) - Geometric(g, left))
  }

  lemma SplitAlgebra(pot: real, c: real, p: real, q: real, s: real, t: real, e: real, whole: real)
    ensures (pot * whole + c * s) - ((pot * p + e) * q + c * t) == pot * (whole - p * q) + c * (s - t) - e * q
  {
    Regroup(pot, p, q);
    Distribute(pot * p, e, q);
    Distribute(pot, 0.0, whole - p * q);
    assert pot * (whole - p * q) == pot * whole - pot * (p * q);
    assert c * (s - t) == c * s - c * t;
  }

  /** Splitting the horizon, with the early pot rounded: the rounding compounds. */
  lemma SplitHorizon(pot: real, c: real, g: real, n: nat, waited: nat, left: nat) returns (drift: real)
    requires g >= 1.0
    ensures Grown(pot, c, g, n) - Grown(Round(Grown(pot, 0.0, g, waited)) as real, c, g, left)
         == IdealCost(pot, c, g, n, waited, left) - drift
    ensures -(Pow(g, left) / 2.0) <= drift <= Pow(g, left) / 2.0
  {
    hide Pow, Geometric, Grown;
    var early := Grown(pot, 0.0, g, waited);
    var error := Round(early) as real - early;
    RoundIsNear(early);
    hide Round;
    AnnuityFormula(pot, c, g, n);
    NoContribution(pot, g, waited);
    AnnuityFormula(early + error, c, g, left);
    assert early + error == Round(early) as real;
    PowAdd(g, waited, left);
    SplitAlgebra(pot, c, Pow(g, waited), Pow(g, left), Geometric(g, n), Geometric(g, left), error, Pow(g, n));
    PowAtLeastOne(g, left);
    drift := Scaled(error, Pow(g, left));
  }

  /** For every horizon and delay, the reported cost of waiting is within 1 + g^left / 2 of the
   *  ideal one: three roundings of amounts, one of which compounds over the months left. */
  lemma CostOfWaiting(b: Base, delayYears: real)
    ensures var (n, waited, left) := Months(b, delayYears);
            var g := Factor(b.rate, 12);
            var slack := 1.0 + Pow(g, left) / 2.0;
            var ideal := IdealCost(b.pot as real, b.contribution as real, g, n, waited, left);
            -slack <= Cost(b, delayYears) as real - RealMax(0.0, ideal) <= slack
  {
    var (n, waited, left) := Months(b, delayYears);
    var g, pot, c := Factor(b.rate, 12), b.pot as real, b.contribution as real;
    FactorAtLeastOne(b.rate, 12);
    hide Grown, Factor, Pow, Geometric, WholePeriods, IdealCost, Round;
    var drift := SplitHorizon(pot, c, g, n, waited, left);
    var later := Grown(Round(Grown(pot, 0.0, g, waited)) as real, c, g, left);
    RoundedDifference(Grown(pot, c, g, n), later, IdealCost(pot, c, g, n, waited, left), drift, Pow(g, left) / 2.0);
  }

  /** Where horizon and delay are whole months, no month gets lost: the ideal cost is the
   *  contributions of the months waited, grown to the horizon. */
  lemma WholeMonthsIdeal(b: Base, delayYears: real, n: nat, months: nat)
    requires b.years * 12.0 == n as real && delayYears * 12.0 == months as real
    ensures var d := Min(months, n);
            && Months(b, delayYears) == (n, d, n - d)
            && IdealCost(b.pot as real, b.contribution as real, Factor(b.rate, 12), n, d, n - d)
               == b.contribution as real * (Pow(Factor(b.rate, 12), n - d) * Geometric(Factor(b.rate, 12), d))
  {
    hide Factor, Pow, Geometric, WholePeriods;
    DelayInMonths(b.years, delayYears, n, months);
    var d, g := Min(months, n), Factor(b.rate, 12);
    GeometricAdd(g, d, n - d);
    assert d + (n - d) == n;
    assert b.pot as real * (Pow(g, n) - Pow(g, d + (n - d))) == 0.0;
  }

  /** How far a number is from the integer it rounds to. */
  function Residue(x: real): real {
    x - Round(x) as real
  }

  lemma RoundsTo(x: real, k: int)
    ensures Round(x) == k <==> -0.5 <= x - k as real < 0.5
  {
  }

  /** Rounding each span on its own gains or loses at most one month, and none exactly when
   *  what the two roundings leave over rounds to nothing. */
  lemma MonthsAddUpIff(b: Base, delayYears: real)
    requires 0.0 <= delayYears <= b.years
    ensures var (n, waited, left) := Months(b, delayYears);
            && -1 <= waited + left - n <= 1
            && (waited + left == n <==> -0.5 <= Residue(delayYears * 12.0) + Residue((b.years - delayYears) * 12.0) < 0.5)
  {
    var x, y := delayYears * 12.0, (b.years - delayYears) * 12.0;
    assert x + y == b.years * 12.0;
    RoundedParts(x, y, b.years * 12.0);
    hide Round, Residue;
  }

  lemma RoundedParts(x: real, y: real, whole: real)
    requires 0.0 <= x && 0.0 <= y && x + y == whole
    ensures 0 <= Round(x) && 0 <= Round(y) && 0 <= Round(whole) && -1 <= Round(x) + Round(y) - Round(whole) <= 1
    ensures Round(x) + Round(y) == Round(whole) <==> -0.5 <= Residue(x) + Residue(y) < 0.5
  {
    RoundIsNear(x);
    RoundIsNear(y);
    RoundIsNear(whole);
    RoundsTo(whole, Round(x) + Round(y));
  }

  /** A month is counted twice, or lost. */
  lemma MonthGainedAndLost()
    ensures Months(Base(0, 100, 1.0 / 12.0, 0.0), 1.0 / 24.0) == (1, 1, 1)
    ensures Months(Base(0, 100, 1.0 / 15.0, 0.0), 1.0 / 30.0) == (1, 0, 0)
  {
    assert 1.0 / 12.0 * 12.0 == 1.0 && 1.0 / 24.0 * 12.0 == 0.5 && (1.0 / 12.0 - 1.0 / 24.0) * 12.0 == 0.5;
    assert 1.0 / 15.0 * 12.0 == 0.8 && 1.0 / 30.0 * 12.0 == 0.4 && (1.0 / 15.0 - 1.0 / 30.0) * 12.0 == 0.4;
  }

  lemma DelayInMonths(years: real, delayYears: real, n: nat, months: nat)
    requires years * 12.0 == n as real && delayYears * 12.0 == months as real
    ensures WholePeriods(years, 12) == n
    ensures WholePeriods(RealMin(delayYears, years), 12) == Min(months, n)
    ensures WholePeriods(RealMax(0.0, years - delayYears), 12) == n - Min(months, n)
  {
    hide WholePeriods;
    WholeMonths(years, n);
    WholeMonths(RealMin(delayYears, years), Min(months, n));
    WholeMonths(RealMax(0.0, years - delayYears), n - Min(months, n));
  }

  lemma FactorAtLeastOne(rate: real, perYear: int)
    requires perYear > 0
    ensures Factor(rate, perYear) >= 1.0
  {
  }

  lemma RoundedDifference(now: real, later: real, ideal: real, drift: real, bound: real)
    requires now - later == ideal - drift && -bound <= drift <= bound
    ensures -(1.0 + bound) <= Max(0, Round(now) - Round(later)) as real - RealMax(0.0, ideal) <= 1.0 + bound
  {
    RoundIsNear(now);
    RoundIsNear(later);
  }

  /** At a rate of zero or less the cost of waiting is exactly the contributions missed. */
  lemma CostOfWaitingWithoutGrowth(b: Base, delayYears: real)
    requires b.rate <= 0.0
    ensures var (n, waited, left) := Months(b, delayYears); Cost(b, delayYears) == Max(0, b.contribution * (n - left))
  {
    var (n, waited, left) := Months(b, delayYears);
    hide Grown, WholePeriods, Round;
    PlainSum(b.pot, b.contribution, n);
    PlainSum(b.pot, 0, waited);
    PlainSum(b.pot, b.contribution, left);
    WholeRounds(b.pot);
    WholeRounds(b.pot + b.contribution * n);
    WholeRounds(b.pot + b.contribution * left);
    assert b.contribution * n - b.contribution * left == b.contribution * (n - left);
  }

  lemma WholeRounds(n: int)
    ensures Round(n as real) == n
  {
  }

  /** Without growth the pot is the start plus the contributions, to the unit. */
  lemma PlainSum(pot: int, contribution: int, n: nat)
    ensures Grown(pot as real, contribution as real, 1.0, n) == (pot + contribution * n) as real
  {
    hide Grown, Pow, Geometric;
    AnnuityFormula(pot as real, contribution as real, 1.0, n);
    NoGrowth(n);
    assert pot as real * 1.0 == pot as real;
    assert contribution as real * n as real == (contribution * n) as real;
  }

  /** A positive rate never lowers the pot below what was paid in, so the reported growth is
   *  the whole difference. */
  lemma GrowthIsTheDifference(b: Base)
    requires b.pot >= 0 && b.contribution >= 0
    ensures Projected(b).pot >= b.pot + Projected(b).contributed
    ensures Projected(b).growth == Projected(b).pot - b.pot - Projected(b).contributed
  {
    hide Grown, Pow, Geometric, Factor, WholePeriods;
    var g, n := Factor(b.rate, 12), WholePeriods(b.years, 12);
    FactorAtLeastOne(b.rate, 12);
    AnnuityFormula(b.pot as real, b.contribution as real, g, n);
    PowAtLeastOne(g, n);
    GeometricAtLeastN(g, n);
    ScaleUp(1.0, Pow(g, n), b.pot as real);
    ScaleUp(n as real, Geometric(g, n), b.contribution as real);
    assert b.contribution as real * n as real == (b.contribution * n) as real;
    RoundAbove(Horizon(b), b.pot + b.contribution * n);
  }

  lemma RoundAbove(x: real, n: int)
    requires x >= n as real
    ensures Round(x) >= n
  {
  }

  lemma {:induction false} GeometricAtLeastN(g: real, n: nat)
    requires g >= 1.0
    ensures Geometric(g, n) >= n as real
  {
    if n > 0 {
      GeometricAtLeastN(g, n - 1);
      PowAtLeastOne(g, n - 1);
    }
  }

  // --- the change in contribution ---

  function Sensitivity(b: Base, delta: int): int {
    Projected(b.(contribution := b.contribution + delta)).pot - Projected(b).pot
  }

  /** A change in the monthly contribution moves the pot by its own annuity, to within one
   *  minor unit, whatever the pot and the contribution are. */
  lemma SensitivityIsAnAnnuity(b: Base, delta: int)
    ensures var ideal := delta as real * Geometric(Factor(b.rate, 12), WholePeriods(b.years, 12));
            -1.0 <= Sensitivity(b, delta) as real - ideal <= 1.0
  {
    hide Grown, Pow, Geometric, Factor, WholePeriods;
    var g, n := Factor(b.rate, 12), WholePeriods(b.years, 12);
    var pot, c, e := b.pot as real, b.contribution as real, delta as real;
    AnnuityFormula(pot, c, g, n);
    AnnuityFormula(pot, c + e, g, n);
    Distribute(c, e, Geometric(g, n));
    RoundedChange(Grown(pot, c + e, g, n), Grown(pot, c, g, n), e * Geometric(g, n));
  }

  lemma RoundedChange(x: real, y: real, ideal: real)
    requires x - y == ideal
    ensures -1.0 <= (Round(x) - Round(y)) as real - ideal <= 1.0
  {
    RoundIsNear(x);
    RoundIsNear(y);
  }

  // --- the price of a habit ---

  datatype Cadence = Daily | Weekly | Monthly

  function PerYear(cadence: Cadence): (n: int)
    ensures n > 0
  {
    match cadence
    case Daily => 365
    case Weekly => 52
    case Monthly => 12
  }

  datatype SlipCosts = SlipCosts(annual: int, totalSpent: int, futureValue: int, foregone: int)

  /** The money of a habit, invested at its own cadence. */
  function Invested(amount: int, cadence: Cadence, years: real, rate: real): int {
    Round(Grown(0.0, amount as real, Factor(rate, PerYear(cadence)), WholePeriods(years, PerYear(cadence))))
  }

  method SlipCost(amount: int, cadence: Cadence, years: real, rate: real) returns (s: SlipCosts)
    ensures s.annual == amount * PerYear(cadence)
    ensures s.totalSpent == Round(s.annual as real * years)
    ensures s.futureValue == Invested(amount, cadence, years, rate)
    ensures s.foregone == Max(0, s.futureValue - amount * WholePeriods(years, PerYear(cadence)))
  {
    var perYear := PerYear(cadence);
    var annual := amount * perYear;
    var totalSpent := Round(annual as real * years);
    var periods := WholePeriods(years, perYear);
    var futureValue: int;
    if rate <= 0.0 {
      PlainSum(0, amount, periods);
      futureValue := amount * periods;
    } else {
      var perPeriodRate := rate / perYear as real;
      var pot := 0.0;
      for i := 0 to periods
        invariant pot == Grown(0.0, amount as real, 1.0 + perPeriodRate, i)
      {
        pot := pot * (1.0 + perPeriodRate) + amount as real;
      }
      futureValue := Round(pot);
    }
    s := SlipCosts(annual, totalSpent, futureValue, Max(0, futureValue - amount * periods));
  }

  /** A monthly habit, invested, is a retirement plan that starts from an empty pot. */
  lemma MonthlySlipIsAPlan(amount: int, years: real, rate: real)
    ensures Invested(amount, Monthly, years, rate) == Projected(Base(0, amount, years, rate)).pot
  {
  }

  /** Over whole months, what a monthly habit spends is what the plan pays in. */
  lemma MonthlySpendIsPaidIn(amount: int, years: real, rate: real, n: nat)
    requires years * 12.0 == n as real
    ensures Round((amount * PerYear(Monthly)) as real * years) == Projected(Base(0, amount, years, rate)).contributed
  {
    WholeMonths(years, n);
    assert (amount * 12) as real * years == amount as real * (years * 12.0);
    assert amount as real * n as real == (amount * n) as real;
  }
}
