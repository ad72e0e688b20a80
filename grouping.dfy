/**
 * The calendar buckets of the analysis task (backend/apps/repositories/tasks.py,
 * `_create_weekly_groups` and `_create_monthly_groups`) and the fact that
 * both tile a stretch of days with no gap and no overlap.
 */
module Grouping {
  import opened Calendar

  /** A closed interval of days, given by ordinals: `(group_start, group_end)`. */
  datatype Bucket = Bucket(lo: int, hi: int)

  predicate InBucket(day: int, b: Bucket) {
    b.lo <= day <= b.hi
  }

  /**
   * Buckets that follow one another with no gap and no overlap: each is
   * non-empty and the next starts on the day after this one ends.
   */
  predicate Contiguous(bs: seq<Bucket>) {
    (forall i :: 0 <= i < |bs| ==> bs[i].lo <= bs[i].hi)
    && (forall i :: 0 <= i < |bs| - 1 ==> bs[i + 1].lo == bs[i].hi + 1)
  }

  /** Contiguous buckets are ordered: an earlier one ends before a later one starts. */
  lemma {:induction false} ContiguousOrdered(bs: seq<Bucket>, i: int, j: int)
    requires Contiguous(bs) && 0 <= i < j < |bs|
    ensures bs[i].hi < bs[j].lo
    decreases j - i
  {
    if i + 1 < j {
      ContiguousOrdered(bs, i + 1, j);
    }
  }

  /** No day lies in two different buckets of a contiguous sequence. */
  lemma ContiguousDisjoint(bs: seq<Bucket>, day: int, i: int, j: int)
    requires Contiguous(bs) && 0 <= i < |bs| && 0 <= j < |bs|
    requires InBucket(day, bs[i]) && InBucket(day, bs[j])
    ensures i == j
  {
    if i < j {
      ContiguousOrdered(bs, i, j);
    } else if j < i {
      ContiguousOrdered(bs, j, i);
    }
  }

  /**
   * Contiguous buckets cover every day from the first bucket's start to the
   * last bucket's end.
   */
  lemma {:induction false} ContiguousCovers(bs: seq<Bucket>, day: int) returns (i: int)
    requires Contiguous(bs) && |bs| > 0
    requires bs[0].lo <= day <= bs[|bs| - 1].hi
    ensures 0 <= i < |bs| && InBucket(day, bs[i])
  {
    if day <= bs[0].hi {
      i := 0;
    } else {
      assert |bs| > 1;
      var rest := bs[1..];
      assert rest[|rest| - 1] == bs[|bs| - 1];
      assert Contiguous(rest) by {
        forall k | 0 <= k < |rest| - 1 ensures rest[k + 1].lo == rest[k].hi + 1 {
          assert rest[k + 1] == bs[k + 2] && rest[k] == bs[k + 1];
        }
      }
      var k := ContiguousCovers(rest, day);
      i := k + 1;
    }
  }

  /** Every day of the tiled stretch is in exactly one bucket. */
  lemma TilingExactlyOnce(bs: seq<Bucket>, day: int)
    requires Contiguous(bs) && |bs| > 0
    requires bs[0].lo <= day <= bs[|bs| - 1].hi
    ensures exists i :: 0 <= i < |bs| && InBucket(day, bs[i])
    ensures forall i, j :: 0 <= i < |bs| && 0 <= j < |bs| && InBucket(day, bs[i]) && InBucket(day, bs[j]) ==> i == j
  {
    var k := ContiguousCovers(bs, day);
    forall i, j | 0 <= i < |bs| && 0 <= j < |bs| && InBucket(day, bs[i]) && InBucket(day, bs[j])
      ensures i == j
    {
      ContiguousDisjoint(bs, day, i, j);
    }
  }

  // ---------------------------------------------------------------- weekly

  /** The Monday on or before `d`: `start_date - timedelta(days=start_date.weekday())`. */
  function MondayOnOrBefore(d: Date): (m: int)
    requires Valid(d)
    ensures WeekdayOf(m) == 0
    ensures Ordinal(d) - 6 <= m <= Ordinal(d)
  {
    var o := Ordinal(d);
    MondayArithmetic(o);
    o - WeekdayOf(o)
  }

  /** Stepping back by its weekday from any day lands on a Monday at most six days earlier. */
  lemma MondayArithmetic(o: int)
    ensures WeekdayOf(o - WeekdayOf(o)) == 0
  {
  }

  /** The i-th week from Monday `monday`: `(current, current + timedelta(days=6))`. */
  function Week(monday: int, i: int): Bucket {
    Bucket(monday + 7 * i, monday + 7 * i + 6)
  }

  /** How many weeks the loop emits: one per start that is not after `end`. */
  function WeekCount(monday: int, end: int): (n: nat)
    ensures n > 0 ==> monday + 7 * (n - 1) <= end < monday + 7 * n
    ensures n == 0 <==> monday > end
  {
    if monday <= end then (end - monday) / 7 + 1 else 0
  }

  /** `_create_weekly_groups(start_date, end_date)`. */
  method CreateWeeklyGroups(startDate: Date, endDate: Date) returns (groups: seq<Bucket>)
    requires Valid(startDate) && Valid(endDate)
    ensures |groups| == WeekCount(MondayOnOrBefore(startDate), Ordinal(endDate))
    ensures forall i :: 0 <= i < |groups| ==> groups[i] == Week(MondayOnOrBefore(startDate), i)
  {
    var monday := MondayOnOrBefore(startDate);
    var end := Ordinal(endDate);
    groups := [];
    var current := monday;
    while current <= end
      invariant current == monday + 7 * |groups|
      invariant monday + 7 * (|groups| - 1) <= end || |groups| == 0
      invariant forall i :: 0 <= i < |groups| ==> groups[i] == Week(monday, i)
      decreases end - current
    {
      var weekEnd := current + 6;
      groups := groups + [Bucket(current, weekEnd)];
      current := current + 7;
    }
  }

  /** The weeks emitted for an interval tile it from its Monday through `end`. */
  lemma WeeksTile(monday: int, end: int, groups: seq<Bucket>)
    requires WeekdayOf(monday) == 0
    requires |groups| == WeekCount(monday, end)
    requires forall i :: 0 <= i < |groups| ==> groups[i] == Week(monday, i)
    ensures Contiguous(groups)
    ensures |groups| > 0 ==> groups[0].lo == monday && end <= groups[|groups| - 1].hi
    ensures |groups| > 0 ==> groups[|groups| - 1].lo <= end
    ensures forall i :: 0 <= i < |groups| ==> WeekdayOf(groups[i].lo) == 0 && groups[i].hi == groups[i].lo + 6
  {
    forall i | 0 <= i < |groups| ensures WeekdayOf(groups[i].lo) == 0 {
      assert groups[i].lo + 6 == (monday + 6) + 7 * i;
    }
  }

  // --------------------------------------------------------------- monthly

  /** The i-th month from month number k0, from its first to its last day. */
  ghost function Month(k0: int, i: int): (r: (Date, Date))
    requires k0 >= 12 && i >= 0
    ensures Valid(r.0) && Valid(r.1)
  {
    (MonthStart(k0 + i), MonthEnd(k0 + i))
  }

  /** How many months the loop emits: one per first-of-month not after `end`. */
  function MonthCount(start: Date, end: Date): nat {
    if MonthIndex(start) <= MonthIndex(end) then MonthIndex(end) - MonthIndex(start) + 1 else 0
  }

  /** `_create_monthly_groups(start_date, end_date)`. */
  method CreateMonthlyGroups(startDate: Date, endDate: Date) returns (groups: seq<(Date, Date)>)
    requires Valid(startDate) && Valid(endDate)
    ensures |groups| == MonthCount(startDate, endDate)
    ensures forall i :: 0 <= i < |groups| ==> groups[i] == Month(MonthIndex(startDate), i)
  {
    var k0 := MonthIndex(startDate);
    MonthOfDate(startDate);
    groups := [];
    var current := FirstOfMonth(startDate);
    while DateLe(current, endDate)
      invariant Valid(current) && current.day == 1 && MonthIndex(current) == k0 + |groups|
      invariant |groups| > 0 ==> k0 + |groups| <= MonthIndex(endDate) + 1
      invariant forall i :: 0 <= i < |groups| ==> groups[i] == Month(k0, i)
      decreases MonthIndex(endDate) - MonthIndex(current)
    {
      FirstOfMonthLe(current, endDate);
      MonthOfDate(current);
      var lastDay := DaysInMonth(current.year, current.month);
      var monthEnd := Date(current.year, current.month, lastDay);
      assert (current, monthEnd) == Month(k0, |groups|);
      groups := groups + [(current, monthEnd)];
      if current.month == 12 {
        current := Date(current.year + 1, 1, 1);
      } else {
        current := Date(current.year, current.month + 1, 1);
      }
    }
    FirstOfMonthLe(current, endDate);
  }

  /** Monthly groups as day intervals, the way the analysis compares commit days with them. */
  function AsBuckets(groups: seq<(Date, Date)>): (bs: seq<Bucket>)
    requires forall i :: 0 <= i < |groups| ==> Valid(groups[i].0) && Valid(groups[i].1)
    ensures |bs| == |groups|
    ensures forall i :: 0 <= i < |groups| ==> bs[i] == Bucket(Ordinal(groups[i].0), Ordinal(groups[i].1))
  {
    seq(|groups|, i requires 0 <= i < |groups| => Bucket(Ordinal(groups[i].0), Ordinal(groups[i].1)))
  }

  /** Consecutive months, as day intervals, are contiguous. */
  lemma MonthBucketsContiguous(k0: int, groups: seq<(Date, Date)>)
    requires k0 >= 12
    requires forall i :: 0 <= i < |groups| ==> groups[i] == Month(k0, i)
    requires forall i :: 0 <= i < |groups| ==> Valid(groups[i].0) && Valid(groups[i].1)
    ensures Contiguous(AsBuckets(groups))
  {
    var bs := AsBuckets(groups);
    forall i | 0 <= i < |bs| ensures bs[i].lo <= bs[i].hi {
      MonthBucketNonEmptyAt(k0, groups, i);
    }
    forall i | 0 <= i < |bs| - 1 ensures bs[i + 1].lo == bs[i].hi + 1 {
      MonthBucketStepAt(k0, groups, i);
    }
  }

  lemma MonthBucketNonEmptyAt(k0: int, groups: seq<(Date, Date)>, i: int)
    requires k0 >= 12 && 0 <= i < |groups|
    requires forall i :: 0 <= i < |groups| ==> groups[i] == Month(k0, i)
    requires forall i :: 0 <= i < |groups| ==> Valid(groups[i].0) && Valid(groups[i].1)
    ensures AsBuckets(groups)[i].lo <= AsBuckets(groups)[i].hi
  {
    var bs := AsBuckets(groups);
    assert groups[i].0 == MonthStart(k0 + i) && groups[i].1 == MonthEnd(k0 + i);
    MonthBucketNonEmpty(k0 + i, bs[i]);
  }

  lemma MonthBucketStepAt(k0: int, groups: seq<(Date, Date)>, i: int)
    requires k0 >= 12 && 0 <= i < |groups| - 1
    requires forall i :: 0 <= i < |groups| ==> groups[i] == Month(k0, i)
    requires forall i :: 0 <= i < |groups| ==> Valid(groups[i].0) && Valid(groups[i].1)
    ensures AsBuckets(groups)[i + 1].lo == AsBuckets(groups)[i].hi + 1
  {
    var bs := AsBuckets(groups);
    assert groups[i].1 == MonthEnd(k0 + i) && groups[i + 1].0 == MonthStart(k0 + i + 1);
    MonthBucketStep(k0 + i, bs[i], bs[i + 1]);
  }

  lemma MonthBucketNonEmpty(k: int, b: Bucket)
    requires k >= 12 && b.lo == Ordinal(MonthStart(k)) && b.hi == Ordinal(MonthEnd(k))
    ensures b.lo <= b.hi
  {
    MonthStartNotAfterEnd(k);
  }

  lemma MonthBucketStep(k: int, b: Bucket, b': Bucket)
    requires k >= 12 && b.hi == Ordinal(MonthEnd(k)) && b'.lo == Ordinal(MonthStart(k + 1))
    ensures b'.lo == b.hi + 1
  {
    NextMonthStartsNextDay(k);
  }

  /**
   * The months emitted for an interval tile it: the first starts on day 1 of
   * the start date's month, each ends on its month's last day and the next
   * starts the day after, and the last one contains the end date.
   */
  lemma MonthsTile(startDate: Date, endDate: Date, groups: seq<(Date, Date)>)
    requires Valid(startDate) && Valid(endDate)
    requires |groups| == MonthCount(startDate, endDate)
    requires forall i :: 0 <= i < |groups| ==> groups[i] == Month(MonthIndex(startDate), i)
    requires forall i :: 0 <= i < |groups| ==> Valid(groups[i].0) && Valid(groups[i].1)
    ensures Contiguous(AsBuckets(groups))
    ensures |groups| > 0 ==> groups[0].0 == FirstOfMonth(startDate)
    ensures |groups| > 0 ==> AsBuckets(groups)[0].lo <= Ordinal(startDate)
    ensures |groups| > 0 ==> Ordinal(endDate) <= AsBuckets(groups)[|groups| - 1].hi
    ensures |groups| > 0 <==> DateLe(FirstOfMonth(startDate), endDate)
  {
    MonthBucketsContiguous(MonthIndex(startDate), groups);
    MonthOfDate(startDate);
    FirstOfMonthLe(FirstOfMonth(startDate), endDate);
    if |groups| > 0 {
      FirstMonthCoversStart(startDate, groups);
      LastMonthCoversEnd(startDate, endDate, groups);
    }
  }

  lemma FirstMonthCoversStart(startDate: Date, groups: seq<(Date, Date)>)
    requires Valid(startDate) && |groups| > 0
    requires forall i :: 0 <= i < |groups| ==> groups[i] == Month(MonthIndex(startDate), i)
    requires forall i :: 0 <= i < |groups| ==> Valid(groups[i].0) && Valid(groups[i].1)
    ensures groups[0].0 == FirstOfMonth(startDate)
    ensures AsBuckets(groups)[0].lo <= Ordinal(startDate)
  {
    assert groups[0].0 == MonthStart(MonthIndex(startDate));
    MonthOfDate(startDate);
    OrdinalMonotone(groups[0].0, startDate);
  }

  lemma LastMonthCoversEnd(startDate: Date, endDate: Date, groups: seq<(Date, Date)>)
    requires Valid(startDate) && Valid(endDate) && |groups| > 0
    requires |groups| == MonthCount(startDate, endDate)
    requires forall i :: 0 <= i < |groups| ==> groups[i] == Month(MonthIndex(startDate), i)
    requires forall i :: 0 <= i < |groups| ==> Valid(groups[i].0) && Valid(groups[i].1)
    ensures Ordinal(endDate) <= AsBuckets(groups)[|groups| - 1].hi
  {
    var n := |groups| - 1;
    assert groups[n].1 == MonthEnd(MonthIndex(endDate));
    MonthOfDate(endDate);
    OrdinalMonotone(endDate, groups[n].1);
  }
}
