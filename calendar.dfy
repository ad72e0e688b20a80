/**
 * The proleptic Gregorian calendar as Python's `datetime.date` and
 * `calendar.monthrange` see it.  A day is identified by its ordinal
 * (`date.toordinal()`: 0001-01-01 is day 1, and it is a Monday), and
 * `timedelta(days = k)` arithmetic is addition on ordinals.
 */
module Calendar {

  datatype Date = Date(year: int, month: int, day: int)

  /** The Gregorian leap rule used by `calendar.isleap`. */
  predicate IsLeap(y: int) {
    y % 4 == 0 && (y % 100 != 0 || y % 400 == 0)
  }

  /** The second component of `calendar.monthrange(y, m)`. */
  function DaysInMonth(y: int, m: int): (n: int)
    requires 1 <= m <= 12
    ensures 28 <= n <= 31
    ensures m == 2 ==> (n == 29 <==> IsLeap(y))
  {
    if m == 2 then (if IsLeap(y) then 29 else 28)
    else if m == 4 || m == 6 || m == 9 || m == 11 then 30
    else 31
  }

  function DaysInYear(y: int): int {
    if IsLeap(y) then 366 else 365
  }

  /** A date Python can represent (the upper year bound 9999 is not modelled). */
  predicate Valid(d: Date) {
    d.year >= 1 && 1 <= d.month <= 12 && 1 <= d.day <= DaysInMonth(d.year, d.month)
  }

  /** The dates a `datetime.date` can hold. */
  type ValidDate = d: Date | Valid(d) witness Date(1, 1, 1)

  /** Days in the years before `y`, as in the standard library's `_days_before_year`. */
  function DaysBeforeYear(y: int): int
    requires y >= 1
  {
    var p := y - 1;
    p * 365 + p / 4 - p / 100 + p / 400
  }

  /** Days in the months of `y` before `m`, as in `_days_before_month`. */
  function DaysBeforeMonth(y: int, m: int): int
    requires 1 <= m <= 12
  {
    var before :=
      if m <= 6 then
        (if m == 1 then 0 else if m == 2 then 31 else if m == 3 then 59
         else if m == 4 then 90 else if m == 5 then 120 else 151)
      else
        (if m == 7 then 181 else if m == 8 then 212 else if m == 9 then 243
         else if m == 10 then 273 else if m == 11 then 304 else 334);
    before + (if m > 2 && IsLeap(y) then 1 else 0)
  }

  /** `date.toordinal()`. */
  function Ordinal(d: Date): int
    requires Valid(d)
  {
    DaysBeforeYear(d.year) + DaysBeforeMonth(d.year, d.month) + d.day
  }

  /** `date.weekday()` of the day with this ordinal: Monday is 0 and Sunday is 6. */
  function WeekdayOf(ordinal: int): (w: int)
    ensures 0 <= w < 7
  {
    (ordinal + 6) % 7
  }

  /** Python's `date.__le__`: dates compare as (year, month, day) tuples. */
  predicate DateLe(a: Date, b: Date) {
    a.year < b.year
    || (a.year == b.year && (a.month < b.month || (a.month == b.month && a.day <= b.day)))
  }

  /** `d.replace(day=1)`. */
  function FirstOfMonth(d: Date): (r: Date)
    requires Valid(d)
    ensures Valid(r) && r.year == d.year && r.month == d.month && r.day == 1
  {
    Date(d.year, d.month, 1)
  }

  /** Month number k counts months from January of year 0: k == 12 * year + month - 1. */
  function MonthIndex(d: Date): int {
    12 * d.year + d.month - 1
  }

  /** The first day of month number `k`: the one valid first-of-month whose month number is `k`. */
  ghost function MonthStart(k: int): (r: Date)
    requires k >= 12
    ensures Valid(r) && r.day == 1 && MonthIndex(r) == k
  {
    assert MonthIndex(Date(k / 12, k % 12 + 1, 1)) == k;
    var r :| Valid(r) && r.day == 1 && MonthIndex(r) == k; r
  }

  /** The last day of month number `k`, `replace(day=last_day)`. */
  ghost function MonthEnd(k: int): (r: Date)
    requires k >= 12
    ensures Valid(r) && MonthIndex(r) == k && r.day == DaysInMonth(r.year, r.month)
  {
    var y, m := k / 12, k % 12 + 1;
    assert MonthIndex(Date(y, m, DaysInMonth(y, m))) == k;
    var r :| Valid(r) && MonthIndex(r) == k && r.day == DaysInMonth(r.year, r.month); r
  }

  /** The month number determines the year and the month. */
  lemma MonthIndexDetermines(a: Date, b: Date)
    requires 1 <= a.month <= 12 && 1 <= b.month <= 12 && MonthIndex(a) == MonthIndex(b)
    ensures a.year == b.year && a.month == b.month
  {
  }

  lemma DaysBeforeMonthStep(y: int, m: int)
    requires 1 <= m < 12
    ensures DaysBeforeMonth(y, m + 1) == DaysBeforeMonth(y, m) + DaysInMonth(y, m)
  {
  }

  lemma DaysBeforeYearStep(y: int)
    requires y >= 1
    ensures DaysBeforeYear(y + 1) == DaysBeforeYear(y) + DaysInYear(y)
  {
    var p := y - 1;
    assert (p + 1) / 4 == p / 4 + (if y % 4 == 0 then 1 else 0);
    assert (p + 1) / 100 == p / 100 + (if y % 100 == 0 then 1 else 0);
    assert (p + 1) / 400 == p / 400 + (if y % 400 == 0 then 1 else 0);
  }

  /** A valid date's ordinal lies inside its year. */
  lemma OrdinalWithinYear(d: Date)
    requires Valid(d)
    ensures DaysBeforeYear(d.year) < Ordinal(d) <= DaysBeforeYear(d.year) + DaysInYear(d.year)
  {
  }

  lemma {:induction false} DaysBeforeYearGrows(y1: int, y2: int)
    requires 1 <= y1 <= y2
    ensures DaysBeforeYear(y1) + 365 * (y2 - y1) <= DaysBeforeYear(y2)
    decreases y2 - y1
  {
    if y1 < y2 {
      DaysBeforeYearStep(y1);
      DaysBeforeYearGrows(y1 + 1, y2);
    }
  }

  /**
   * Comparing dates as tuples and comparing their ordinals agree: the
   * ordinal is strictly increasing in the calendar order.
   */
  lemma OrdinalMonotone(a: Date, b: Date)
    requires Valid(a) && Valid(b)
    ensures DateLe(a, b) <==> Ordinal(a) <= Ordinal(b)
    ensures a == b <==> Ordinal(a) == Ordinal(b)
  {
    if a.year < b.year {
      OrdinalBeforeLaterYear(a, b);
    } else if b.year < a.year {
      OrdinalBeforeLaterYear(b, a);
    } else if a.month < b.month {
      OrdinalBeforeLaterMonth(a, b);
    } else if b.month < a.month {
      OrdinalBeforeLaterMonth(b, a);
    }
  }

  lemma OrdinalBeforeLaterYear(a: Date, b: Date)
    requires Valid(a) && Valid(b) && a.year < b.year
    ensures Ordinal(a) < Ordinal(b)
  {
    OrdinalWithinYear(a);
    OrdinalWithinYear(b);
    DaysBeforeYearStep(a.year);
    DaysBeforeYearGrows(a.year + 1, b.year);
  }

  lemma OrdinalBeforeLaterMonth(a: Date, b: Date)
    requires Valid(a) && Valid(b) && a.year == b.year && a.month < b.month
    ensures Ordinal(a) < Ordinal(b)
  {
    assert DaysBeforeMonth(a.year, a.month) + DaysInMonth(a.year, a.month) <= DaysBeforeMonth(b.year, b.month);
  }

  /**
   * The first day of month k + 1 is the day after the last day of month k,
   * including the December to January roll-over.
   */
  lemma NextMonthStartsNextDay(k: int)
    requires k >= 12
    ensures Ordinal(MonthStart(k + 1)) == Ordinal(MonthEnd(k)) + 1
  {
    var e, s := MonthEnd(k), MonthStart(k + 1);
    if e.month == 12 {
      MonthIndexDetermines(s, Date(e.year + 1, 1, 1));
      DaysBeforeYearStep(e.year);
    } else {
      MonthIndexDetermines(s, Date(e.year, e.month + 1, 1));
      DaysBeforeMonthStep(e.year, e.month);
    }
  }

  /** Month numbers and the (year, month) of a date agree. */
  lemma MonthOfDate(d: Date)
    requires Valid(d)
    ensures MonthStart(MonthIndex(d)) == FirstOfMonth(d)
    ensures MonthEnd(MonthIndex(d)) == Date(d.year, d.month, DaysInMonth(d.year, d.month))
  {
    MonthIndexDetermines(MonthStart(MonthIndex(d)), d);
    MonthIndexDetermines(MonthEnd(MonthIndex(d)), d);
  }

  /** A first-of-month is not after a date exactly when its month number is not greater. */
  lemma FirstOfMonthLe(first: Date, d: Date)
    requires Valid(first) && Valid(d) && first.day == 1
    ensures DateLe(first, d) <==> MonthIndex(first) <= MonthIndex(d)
  {
  }

  /** A month's first day is not after its last day. */
  lemma MonthStartNotAfterEnd(k: int)
    requires k >= 12
    ensures Ordinal(MonthStart(k)) < Ordinal(MonthEnd(k))
  {
    MonthIndexDetermines(MonthStart(k), MonthEnd(k));
  }

  /** A date lies in month k (as a tuple range) exactly when its month number is k. */
  lemma InMonthIffMonthIndex(d: Date, k: int)
    requires Valid(d) && k >= 12
    ensures (DateLe(MonthStart(k), d) && DateLe(d, MonthEnd(k))) <==> MonthIndex(d) == k
  {
  }
}
