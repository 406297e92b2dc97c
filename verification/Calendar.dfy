/** Budget periods: UTC days, Monday-based weeks and civil months (src/core/store.ts). */
module Calendar {
  import opened Types

  const DAY_MS: int := 86_400_000

  /** Days since 1970-01-01, rounded down. */
  function DayOf(t: Instant): int {
    t / DAY_MS
  }

  predicate IsLeapYear(year: int) {
    year % 4 == 0 && (year % 100 != 0 || year % 400 == 0)
  }

  /** Length in days of the month that starts k months after January 1970. */
  function DaysInMonth(k: int): (days: int)
    ensures 28 <= days <= 31
  {
    var year, month := 1970 + k / 12, k % 12;
    if month == 1 then (if IsLeapYear(year) then 29 else 28)
    else if month in {3, 5, 8, 10} then 30
    else 31
  }

  /** Day number of the first of that month. */
  function FirstOfMonth(k: int): int
    decreases if k < 0 then -k else k
  {
    if k == 0 then 0
    else if k > 0 then FirstOfMonth(k - 1) + DaysInMonth(k - 1)
    else FirstOfMonth(k + 1) - DaysInMonth(k)
  }

  lemma MonthLength(k: int)
    ensures FirstOfMonth(k + 1) == FirstOfMonth(k) + DaysInMonth(k)
  {
  }

  /** Walk forwards, then backwards, to the month that contains a day. */
  function MonthAtOrAfter(day: int, k: int): (month: int)
    requires FirstOfMonth(k) <= day
    ensures FirstOfMonth(month) <= day < FirstOfMonth(month + 1)
    decreases day - FirstOfMonth(k)
  {
    MonthLength(k);
    if day < FirstOfMonth(k + 1) then k else MonthAtOrAfter(day, k + 1)
  }

  function MonthBefore(day: int, k: int): (month: int)
    requires day < FirstOfMonth(k)
    ensures FirstOfMonth(month) <= day < FirstOfMonth(month + 1)
    decreases FirstOfMonth(k) - day
  {
    MonthLength(k - 1);
    if FirstOfMonth(k - 1) <= day then k - 1 else MonthBefore(day, k - 1)
  }

  function MonthOf(day: int): (month: int)
    ensures FirstOfMonth(month) <= day < FirstOfMonth(month + 1)
  {
    if FirstOfMonth(0) <= day then MonthAtOrAfter(day, 0) else MonthBefore(day, 0)
  }

  /** Start of the period an instant falls in. */
  function PeriodStart(now: Instant, period: Period): Instant {
    var day := DayOf(now);
    match period
    case Day => day * DAY_MS
    case Month => FirstOfMonth(MonthOf(day)) * DAY_MS
    case Week =>
      // 1970-01-01 was a Thursday, three days after a Monday.
      (day - (day + 3) % 7) * DAY_MS
  }

  lemma {:induction false} MonthsIncrease(a: int, b: int)
    requires a <= b
    ensures FirstOfMonth(a) + (b - a) <= FirstOfMonth(b)
    decreases b - a
  {
    if a < b {
      MonthLength(b - 1);
      MonthsIncrease(a, b - 1);
    }
  }

  /** No day belongs to two months. */
  lemma MonthIsUnique(day: int, a: int, b: int)
    requires FirstOfMonth(a) <= day < FirstOfMonth(a + 1)
    requires FirstOfMonth(b) <= day < FirstOfMonth(b + 1)
    ensures a == b
  {
    if a < b {
      MonthsIncrease(a + 1, b);
    } else if b < a {
      MonthsIncrease(b + 1, a);
    }
  }

  /** Period starts cut time into buckets: everything from a start up to an instant
   *  that has this start shares it, and starts never run backwards. */
  lemma PeriodBuckets(s: Instant, t: Instant, period: Period)
    ensures PeriodStart(t, period) <= t
    ensures PeriodStart(t, period) <= s <= t ==> PeriodStart(s, period) == PeriodStart(t, period)
    ensures s <= t ==> PeriodStart(s, period) <= PeriodStart(t, period)
  {
    match period {
      case Day =>
      case Week =>
      case Month =>
        var a, b := MonthOf(DayOf(s)), MonthOf(DayOf(t));
        if s <= t {
          if b < a {
            MonthsIncrease(b + 1, a);
          } else {
            MonthsIncrease(a, b);
          }
          if PeriodStart(t, period) <= s {
            assert FirstOfMonth(b) <= DayOf(s);
            MonthIsUnique(DayOf(s), a, b);
          }
        }
    }
  }

  /** What each start is: midnight of the day, of the latest Monday (day numbers 4
   *  modulo 7), of the first of the month. */
  lemma PeriodStartMeaning(t: Instant, period: Period)
    ensures var start := PeriodStart(t, period);
            && start % DAY_MS == 0
            && match period {
                 case Day => t - DAY_MS < start
                 case Week => DayOf(start) % 7 == 4 && t - 7 * DAY_MS < start
                 case Month => exists k :: DayOf(start) == FirstOfMonth(k) && DayOf(t) < FirstOfMonth(k + 1)
               }
  {
    if period == Month {
      var k := MonthOf(DayOf(t));
      assert DayOf(PeriodStart(t, period)) == FirstOfMonth(k);
    }
  }

  /** How long a period lasts at least. */
  function ShortestPeriod(period: Period): int {
    match period
    case Day => DAY_MS
    case Week => 7 * DAY_MS
    case Month => 28 * DAY_MS
  }

  /** Two starts are a whole period apart. */
  lemma StartsApart(s: Instant, t: Instant, period: Period)
    requires PeriodStart(s, period) < PeriodStart(t, period)
    ensures PeriodStart(s, period) + ShortestPeriod(period) <= PeriodStart(t, period)
  {
    match period {
      case Day =>
      case Week =>
        PeriodStartMeaning(s, Week);
        PeriodStartMeaning(t, Week);
      case Month =>
        var a, b := MonthOf(DayOf(s)), MonthOf(DayOf(t));
        if b <= a {
          MonthsIncrease(b, a);
        }
        MonthLength(a);
        MonthsIncrease(a + 1, b);
    }
  }
}
