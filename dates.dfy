/**
 * Proleptic Gregorian calendar as Python's `datetime.date` computes it.
 * A day is its ordinal number (`date.toordinal()`: 0001-01-01 is day 1);
 * `Date` carries year, month and day where the source needs them.
 */
module Dates {
  import opened Wrappers

  predicate IsLeap(y: int) {
    y % 4 == 0 && (y % 100 != 0 || y % 400 == 0)
  }

  function DaysInYear(y: int): int {
    if IsLeap(y) then 366 else 365
  }

  /** `calendar.monthrange(y, m)[1]`: the number of days of month `m`. */
  function DaysInMonth(y: int, m: int): (n: int)
    requires 1 <= m <= 12
    ensures 28 <= n <= 31
  {
    if m == 2 then (if IsLeap(y) then 29 else 28)
    else if m == 4 || m == 6 || m == 9 || m == 11 then 30
    else 31
  }

  /** Days in the years before `y`, as `_days_before_year` computes them. */
  function DaysBeforeYear(y: int): int {
    var y1 := y - 1;
    y1 * 365 + y1 / 4 - y1 / 100 + y1 / 400
  }

  /** Days in the months of year `y` before month `m` (`m == 13` gives the whole year). */
  function DaysBeforeMonth(y: int, m: int): int
    requires 1 <= m <= 13
  {
    var table := [0, 31, 59, 90, 120, 151, 181, 212, 243, 273, 304, 334, 365];
    table[m - 1] + (if m > 2 && IsLeap(y) then 1 else 0)
  }

  /** `date(y, m, d).toordinal()`. */
  function ToOrdinal(y: int, m: int, d: int): (r: int)
    requires 1 <= m <= 12
    ensures y == 1 && m == 1 ==> r == d
  {
    DaysBeforeYear(y) + DaysBeforeMonth(y, m) + d
  }

  /** A valid date's ordinal lies within its year. */
  lemma OrdinalWithinYear(y: int, m: int, d: int)
    requires 1 <= m <= 12 && 1 <= d <= DaysInMonth(y, m)
    ensures DaysBeforeYear(y) < ToOrdinal(y, m, d) <= DaysBeforeYear(y) + DaysInYear(y)
  {
  }

  /** `date.weekday()` of an ordinal day: Monday is 0, Sunday is 6. */
  function Weekday(ord: int): (w: int)
    ensures 0 <= w < 7
  {
    (ord + 6) % 7
  }

  datatype Date = Date(year: int, month: int, day: int)

  /** The dates `datetime.date` can represent. */
  predicate ValidDate(d: Date) {
    1 <= d.year <= 9999 && 1 <= d.month <= 12 && 1 <= d.day <= DaysInMonth(d.year, d.month)
  }

  function Ord(d: Date): int
    requires 1 <= d.month <= 12
  {
    ToOrdinal(d.year, d.month, d.day)
  }

  function FirstOfMonth(y: int, m: int): int
    requires 1 <= m <= 12
  {
    ToOrdinal(y, m, 1)
  }

  function LastOfMonth(y: int, m: int): (r: int)
    requires 1 <= m <= 12
    ensures r == FirstOfMonth(y, m) + DaysInMonth(y, m) - 1
  {
    ToOrdinal(y, m, DaysInMonth(y, m))
  }

  /** The (year, month) after (y, m). */
  function NextMonth(y: int, m: int): (r: (int, int))
    requires 1 <= m <= 12
    ensures 1 <= r.1 <= 12
    ensures r.0 * 12 + r.1 == y * 12 + m + 1
  {
    if m == 12 then (y + 1, 1) else (y, m + 1)
  }

  /** The (year, month) before (y, m). */
  function PrevMonth(y: int, m: int): (r: (int, int))
    requires 1 <= m <= 12
    ensures 1 <= r.1 <= 12
    ensures NextMonth(r.0, r.1) == (y, m)
  {
    if m == 1 then (y - 1, 12) else (y, m - 1)
  }

  /** Stepping `a` by one moves `a / k` exactly when `a + 1` is a multiple of `k`. */
  lemma DivSteps(a: int)
    ensures (a + 1) / 4 - a / 4 == (if (a + 1) % 4 == 0 then 1 else 0)
    ensures (a + 1) / 100 - a / 100 == (if (a + 1) % 100 == 0 then 1 else 0)
    ensures (a + 1) / 400 - a / 400 == (if (a + 1) % 400 == 0 then 1 else 0)
  {
  }

  /** One more year adds exactly the length of that year. */
  lemma DaysBeforeNextYear(y: int)
    ensures DaysBeforeYear(y + 1) == DaysBeforeYear(y) + DaysInYear(y)
  {
    DivSteps(y - 1);
    MultipleSteps(y);
    assert DaysBeforeYear(y + 1) - DaysBeforeYear(y)
        == 365 + (y / 4 - (y - 1) / 4) - (y / 100 - (y - 1) / 100) + (y / 400 - (y - 1) / 400);
  }

  /** A multiple of 400 is one of 100, and a multiple of 100 is one of 4. */
  lemma MultipleSteps(y: int)
    ensures y % 400 == 0 ==> y % 100 == 0
    ensures y % 100 == 0 ==> y % 4 == 0
  {
    if y % 400 == 0 {
      var q := y / 400;
      assert y == 400 * q;
      assert y / 100 == 4 * q;
    }
    if y % 100 == 0 {
      var q := y / 100;
      assert y == 100 * q;
      assert y / 4 == 25 * q;
    }
  }

  /** The first day of the next month follows the last day of this one. */
  lemma NextMonthFirst(y: int, m: int)
    requires 1 <= m <= 12
    ensures FirstOfMonth(NextMonth(y, m).0, NextMonth(y, m).1) == FirstOfMonth(y, m) + DaysInMonth(y, m)
  {
    if m == 12 {
      DaysBeforeNextYear(y);
    }
  }

  /** The (year, month) `k` months after (y, m). */
  function MonthAfter(y: int, m: int, k: int): (r: (int, int))
    requires 1 <= m <= 12
    ensures 1 <= r.1 <= 12
    ensures r.0 * 12 + r.1 == y * 12 + m + k
  {
    var n := y * 12 + (m - 1) + k;
    (n / 12, n % 12 + 1)
  }

  /** A month is determined by its running index `year * 12 + month`. */
  lemma SameMonthIndex(a: (int, int), b: (int, int))
    requires 1 <= a.1 <= 12 && 1 <= b.1 <= 12
    requires a.0 * 12 + a.1 == b.0 * 12 + b.1
    ensures a == b
  {
  }

  /** One more month after (y, m) is the month after the `k`-th. */
  lemma MonthAfterStep(y: int, m: int, k: int)
    requires 1 <= m <= 12
    ensures MonthAfter(y, m, k + 1) == NextMonth(MonthAfter(y, m, k).0, MonthAfter(y, m, k).1)
  {
    var a := MonthAfter(y, m, k);
    SameMonthIndex(MonthAfter(y, m, k + 1), NextMonth(a.0, a.1));
  }

  /** Later months start later (or on the same day, for the same month). */
  lemma {:induction false} FirstOfMonthMonotone(y1: int, m1: int, y2: int, m2: int)
    requires 1 <= m1 <= 12 && 1 <= m2 <= 12
    requires y1 * 12 + m1 <= y2 * 12 + m2
    ensures FirstOfMonth(y1, m1) <= FirstOfMonth(y2, m2)
    decreases y2 * 12 + m2 - (y1 * 12 + m1)
  {
    if y1 * 12 + m1 == y2 * 12 + m2 {
      SameMonthIndex((y1, m1), (y2, m2));
    } else {
      var n := NextMonth(y1, m1);
      NextMonthFirst(y1, m1);
      FirstOfMonthMonotone(n.0, n.1, y2, m2);
    }
  }

  /** An earlier month ends before a later one starts. */
  lemma EarlierMonthEndsBefore(y1: int, m1: int, y2: int, m2: int)
    requires 1 <= m1 <= 12 && 1 <= m2 <= 12
    requires y1 * 12 + m1 < y2 * 12 + m2
    ensures LastOfMonth(y1, m1) < FirstOfMonth(y2, m2)
  {
    var n := NextMonth(y1, m1);
    NextMonthFirst(y1, m1);
    FirstOfMonthMonotone(n.0, n.1, y2, m2);
  }

  /** The running month number of a date, `year * 12 + month`. */
  function MonthIndex(d: Date): int {
    d.year * 12 + d.month
  }

  /** A day lies between the first and the last day of its month. */
  lemma OrdWithinMonth(d: Date)
    requires ValidDate(d)
    ensures FirstOfMonth(d.year, d.month) <= Ord(d) <= LastOfMonth(d.year, d.month)
  {
  }

  /** A month starts on or before a day exactly when it is that day's month or an earlier one. */
  lemma FirstOfMonthAtMost(y: int, m: int, d: Date)
    requires 1 <= m <= 12 && ValidDate(d)
    ensures FirstOfMonth(y, m) <= Ord(d) <==> y * 12 + m <= MonthIndex(d)
  {
    OrdWithinMonth(d);
    if y * 12 + m <= MonthIndex(d) {
      FirstOfMonthMonotone(y, m, d.year, d.month);
    } else {
      EarlierMonthEndsBefore(d.year, d.month, y, m);
    }
  }

  /**
   * `_previous_full_month` for the day `today`: the first through the last
   * day of the month before, which ends the day before the first of
   * today's month. Nothing in January of year 1, where the date arithmetic
   * overflows.
   */
  function PreviousFullMonth(today: Date): (r: Option<(Date, Date)>)
    requires ValidDate(today)
    ensures r.None? <==> today.year == 1 && today.month == 1
    ensures r.Some? ==>
              && ValidDate(r.value.0) && ValidDate(r.value.1)
              && r.value.0.day == 1
              && r.value.0.year == r.value.1.year && r.value.0.month == r.value.1.month
              && r.value.1.day == DaysInMonth(r.value.1.year, r.value.1.month)
              && Ord(r.value.1) + 1 == FirstOfMonth(today.year, today.month)
  {
    if today.year == 1 && today.month == 1 then None
    else
      var p := PrevMonth(today.year, today.month);
      NextMonthFirst(p.0, p.1);
      Some((Date(p.0, p.1, 1), Date(p.0, p.1, DaysInMonth(p.0, p.1))))
  }

  /**
   * `_month_range(year, month)`: the first and the last day of the month;
   * nothing when the month is not 1 to 12 or the year is outside what a
   * date can hold.
   */
  function MonthRange(year: int, month: int): (r: Option<(Date, Date)>)
    ensures r.Some? <==> 1 <= year <= 9999 && 1 <= month <= 12
    ensures r.Some? ==>
              && ValidDate(r.value.0) && ValidDate(r.value.1)
              && r.value.0 == Date(year, month, 1)
              && r.value.1 == Date(year, month, DaysInMonth(year, month))
              && Ord(r.value.1) + 1 == FirstOfMonth(NextMonth(year, month).0, NextMonth(year, month).1)
  {
    if 1 <= year <= 9999 && 1 <= month <= 12 then
      NextMonthFirst(year, month);
      Some((Date(year, month, 1), Date(year, month, DaysInMonth(year, month))))
    else None
  }
}
