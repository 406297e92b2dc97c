/** The civil calendar by its closed formula, and the period starts in terms of civil dates
 *  (src/core/store.ts:73-89). */
module CalendarMeaning {
  import opened Types
  import opened Calendar

  /** Leap days in the years up to a. */
  function LeapDays(a: int): int {
    a / 4 - a / 100 + a / 400
  }

  /** Day number of a date of the proleptic Gregorian calendar, with months from 1: years are
   *  counted from March, whose months alternate 31 and 30 days in runs of five. */
  function CivilDay(year: int, month: int, day: int): int {
    var a := if month <= 2 then year - 1 else year;
    var sinceMarch := if month <= 2 then month + 9 else month - 3;
    365 * a + LeapDays(a) + DaysSinceMarch(sinceMarch) + day - 719_469
  }

  function DaysSinceMarch(months: int): int {
    (153 * months + 2) / 5
  }

  lemma MarchTable()
    ensures DaysSinceMarch(0) == 0 && DaysSinceMarch(1) == 31 && DaysSinceMarch(2) == 61 && DaysSinceMarch(3) == 92
    ensures DaysSinceMarch(4) == 122 && DaysSinceMarch(5) == 153 && DaysSinceMarch(6) == 184 && DaysSinceMarch(7) == 214
    ensures DaysSinceMarch(8) == 245 && DaysSinceMarch(9) == 275 && DaysSinceMarch(10) == 306 && DaysSinceMarch(11) == 337
  {
  }

  /** The epoch, and a leap day. */
  lemma Anchors()
    ensures CivilDay(1970, 1, 1) == 0 && CivilDay(1970, 1, 5) == 4
    ensures CivilDay(2000, 2, 29) == 11_016 && CivilDay(2000, 3, 1) == 11_017
  {
  }

  lemma Quotients(y: int, n: int)
    requires n == 4 || n == 100 || n == 400
    ensures y / n - (y - 1) / n == if y % n == 0 then 1 else 0
  {
  }

  lemma Multiple(q: int, n: int)
    requires n == 4 || n == 100
    ensures (q * n) % n == 0
  {
  }

  lemma Divisible(y: int)
    ensures y % 400 == 0 ==> y % 100 == 0
    ensures y % 100 == 0 ==> y % 4 == 0
  {
    Multiple(4 * (y / 400), 100);
    Multiple(25 * (y / 100), 4);
  }

  lemma Combine(a: int, b: int, c: int, by4: bool, by100: bool, by400: bool)
    requires a == (if by4 then 1 else 0) && b == (if by100 then 1 else 0) && c == (if by400 then 1 else 0)
    requires (by400 ==> by100) && (by100 ==> by4)
    ensures a - b + c == if by4 && (!by100 || by400) then 1 else 0
  {
  }

  lemma LeapStep(y: int)
    ensures LeapDays(y) - LeapDays(y - 1) == if IsLeapYear(y) then 1 else 0
  {
    var a, b, c := y / 4 - (y - 1) / 4, y / 100 - (y - 1) / 100, y / 400 - (y - 1) / 400;
    assert LeapDays(y) - LeapDays(y - 1) == a - b + c;
    var by4, by100, by400 := y % 4 == 0, y % 100 == 0, y % 400 == 0;
    assert IsLeapYear(y) == (by4 && (!by100 || by400));
    hide LeapDays, IsLeapYear;
    Quotients(y, 4);
    Quotients(y, 100);
    Quotients(y, 400);
    Divisible(y);
    Combine(a, b, c, by4, by100, by400);
  }

  /** The length of a month, from the calendar's own rule for leap years. */
  function LengthOf(year: int, month: int): int {
    if month == 2 then 28 + LeapDays(year) - LeapDays(year - 1)
    else if month == 4 || month == 6 || month == 9 || month == 11 then 30
    else 31
  }

  lemma NextMonth(year: int, month: int)
    requires 1 <= month <= 12
    ensures (if month == 12 then CivilDay(year + 1, 1, 1) else CivilDay(year, month + 1, 1))
            == CivilDay(year, month, 1) + LengthOf(year, month)
  {
    hide LeapDays, DaysSinceMarch;
    MarchTable();
  }

  lemma LengthMeans(k: int)
    ensures DaysInMonth(k) == LengthOf(1970 + k / 12, k % 12 + 1)
  {
    hide LeapDays, IsLeapYear;
    LeapStep(1970 + k / 12);
  }

  function FirstDay(k: int): int {
    CivilDay(1970 + k / 12, k % 12 + 1, 1)
  }

  lemma Later(k: int)
    ensures k % 12 == 11 ==> (k + 1) / 12 == k / 12 + 1 && (k + 1) % 12 == 0
    ensures k % 12 != 11 ==> (k + 1) / 12 == k / 12 && (k + 1) % 12 == k % 12 + 1
  {
  }

  lemma FirstDayStep(k: int)
    ensures FirstDay(k + 1) == FirstDay(k) + DaysInMonth(k)
  {
    hide CivilDay, LengthOf, DaysInMonth;
    Later(k);
    LengthMeans(k);
    NextMonth(1970 + k / 12, k % 12 + 1);
  }

  /** THE CALENDAR. The months walked one by one begin where the civil calendar says. */
  lemma {:induction false} MonthsMean(k: int)
    ensures FirstOfMonth(k) == CivilDay(1970 + k / 12, k % 12 + 1, 1)
    decreases if k < 0 then -k else k
  {
    hide CivilDay, DaysInMonth;
    Anchors();
    if k > 0 {
      FirstDayStep(k - 1);
      MonthsMean(k - 1);
    } else if k < 0 {
      FirstDayStep(k);
      MonthsMean(k + 1);
    }
  }

  /** The day of the instant lies in a month of a year. */
  predicate IsInMonth(t: Instant, year: int, month: int) {
    && 1 <= month <= 12
    && CivilDay(year, month, 1) * 86_400_000 <= t
    && t < (if month == 12 then CivilDay(year + 1, 1, 1) else CivilDay(year, month + 1, 1)) * 86_400_000
  }

  lemma MonthNumber(year: int, month: int)
    requires 1 <= month <= 12
    ensures var k := 12 * (year - 1970) + month - 1;
            && 1970 + k / 12 == year && k % 12 + 1 == month
            && 1970 + (k + 1) / 12 == (if month == 12 then year + 1 else year) && (k + 1) % 12 + 1 == (if month == 12 then 1 else month + 1)
  {
    Later(12 * (year - 1970) + month - 1);
  }

  lemma MonthBounds(year: int, month: int)
    requires 1 <= month <= 12
    ensures var k := 12 * (year - 1970) + month - 1;
            && FirstOfMonth(k) == CivilDay(year, month, 1)
            && FirstOfMonth(k + 1) == (if month == 12 then CivilDay(year + 1, 1, 1) else CivilDay(year, month + 1, 1))
  {
    hide CivilDay, FirstOfMonth;
    MonthNumber(year, month);
    MonthsMean(12 * (year - 1970) + month - 1);
    MonthsMean(12 * (year - 1970) + month);
  }

  lemma MonthStartMeans(t: Instant, year: int, month: int)
    requires IsInMonth(t, year, month)
    ensures PeriodStart(t, Month) == CivilDay(year, month, 1) * 86_400_000
  {
    var k := 12 * (year - 1970) + month - 1;
    MonthBounds(year, month);
    hide CivilDay, FirstOfMonth, DayOf;
    DaysBetween(t, FirstOfMonth(k), FirstOfMonth(k + 1));
    MonthIsUnique(DayOf(t), k, MonthOf(DayOf(t)));
  }

  lemma DayStartMeans(t: Instant)
    ensures PeriodStart(t, Day) <= t < PeriodStart(t, Day) + 86_400_000 && PeriodStart(t, Day) % 86_400_000 == 0
  {
  }

  /** THE PERIODS. A budget day starts at the last midnight, a week at the last midnight of a
   *  Monday (1970-01-05 was one), a month at the midnight of the civil month's first day. */
  lemma StartMeans(t: Instant, year: int, month: int)
    requires IsInMonth(t, year, month)
    ensures PeriodStart(t, Month) == CivilDay(year, month, 1) * 86_400_000
    ensures PeriodStart(t, Day) <= t < PeriodStart(t, Day) + 86_400_000 && PeriodStart(t, Day) % 86_400_000 == 0
    ensures PeriodStart(t, Week) <= t < PeriodStart(t, Week) + 604_800_000
            && (PeriodStart(t, Week) - CivilDay(1970, 1, 5) * 86_400_000) % 604_800_000 == 0
  {
    hide PeriodStart, CivilDay, IsInMonth;
    Anchors();
    MonthStartMeans(t, year, month);
    DayStartMeans(t);
    WeekMeans(t);
  }

  lemma DaysBetween(t: Instant, a: int, b: int)
    requires a * 86_400_000 <= t < b * 86_400_000
    ensures a <= DayOf(t) < b
  {
  }

  lemma DaysAround(t: Instant, a: int, b: int)
    requires a <= DayOf(t) < b
    ensures a * 86_400_000 <= t < b * 86_400_000
  {
  }

  lemma WeekMeans(t: Instant)
    ensures PeriodStart(t, Week) <= t < PeriodStart(t, Week) + 604_800_000
    ensures (PeriodStart(t, Week) - 4 * 86_400_000) % 604_800_000 == 0
  {
    var day := DayOf(t);
    var weeks := (day + 3) / 7;
    assert day - (day + 3) % 7 == 7 * weeks - 3;
    assert PeriodStart(t, Week) - 4 * 86_400_000 == (weeks - 1) * 604_800_000;
  }

  /** Every instant is in some month. */
  lemma EveryInstantHasAMonth(t: Instant) returns (year: int, month: int)
    ensures IsInMonth(t, year, month)
  {
    var k := MonthOf(DayOf(t));
    year, month := 1970 + k / 12, k % 12 + 1;
    assert 12 * (year - 1970) + month - 1 == k;
    MonthBounds(year, month);
    hide CivilDay, FirstOfMonth, DayOf;
    DaysAround(t, FirstOfMonth(k), FirstOfMonth(k + 1));
  }

  /** No period is shorter than a day, a week, or four weeks. */
  lemma ShortestMeans(period: Period)
    ensures ShortestPeriod(period) == match period { case Day => 86_400_000 case Week => 604_800_000 case Month => 2_419_200_000 }
  {
  }
}
