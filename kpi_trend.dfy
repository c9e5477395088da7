/**
 * The KPI trend: the period cut into calendar-month or Monday-to-Sunday
 * buckets, each summarised from the stored cost rate snapshots that overlap
 * it. Buckets are pairs of ordinal days (first, last).
 */
module KpiTrend {
  import opened Wrappers
  import opened Text
  import opened Dates
  import opened Tenant
  import opened CostPersist
  import opened Kpis

  function Max(a: int, b: int): int { if a >= b then a else b }
  function Min(a: int, b: int): int { if a <= b then a else b }

  // ---- Month buckets ----

  /** The number of calendar months from `ps`'s month through `pe`'s, none when `pe`'s month is earlier. */
  function MonthCount(ps: Date, pe: Date): nat {
    if MonthIndex(pe) >= MonthIndex(ps) then MonthIndex(pe) - MonthIndex(ps) + 1 else 0
  }

  /** The `i`-th month bucket: the `i`-th month from `ps`'s, cut to the period. */
  function MonthBucket(ps: Date, pe: Date, i: int): (int, int)
    requires 1 <= ps.month <= 12 && 1 <= pe.month <= 12
  {
    var ym := MonthAfter(ps.year, ps.month, i);
    (Max(FirstOfMonth(ym.0, ym.1), Ord(ps)), Min(LastOfMonth(ym.0, ym.1), Ord(pe)))
  }

  /** `_month_buckets`: walk from the first of `ps`'s month, one month at a time, while the month starts by `pe`. */
  method MonthBuckets(ps: Date, pe: Date) returns (b: seq<(int, int)>)
    requires ValidDate(ps) && ValidDate(pe)
    ensures |b| == MonthCount(ps, pe)
    ensures forall i :: 0 <= i < |b| ==> b[i] == MonthBucket(ps, pe, i)
  {
    var y, m := ps.year, ps.month;
    b := [];
    ghost var bucketAt := (i: nat) => MonthBucket(ps, pe, i);
    var first, last := FirstOfMonth(y, m), Ord(pe);
    while first <= last
      invariant 1 <= m <= 12
      invariant y * 12 + m == MonthIndex(ps) + |b|
      invariant first == FirstOfMonth(y, m)
      invariant |b| <= MonthCount(ps, pe)
      invariant b == Tabulate(|b|, bucketAt)
      decreases last - first
    {
      var bucket;
      bucket, y, m := MonthStep(ps, pe, y, m, |b|);
      b := b + [bucket];
      first := FirstOfMonth(y, m);
    }
    MonthWalkEnd(ps, pe, y, m, |b|);
  }

  /** The first `n` values of `f`, in order. */
  function Tabulate<T>(n: nat, f: nat -> T): (r: seq<T>)
    ensures |r| == n
    ensures forall i :: 0 <= i < n ==> r[i] == f(i)
  {
    if n == 0 then [] else Tabulate(n - 1, f) + [f(n - 1)]
  }

  /** The body of the month walk: the bucket of month (y, m), cut to the period, and the month after it. */
  method MonthStep(ps: Date, pe: Date, y: int, m: int, ghost k: nat) returns (bucket: (int, int), y': int, m': int)
    requires ValidDate(ps) && ValidDate(pe) && 1 <= m <= 12
    requires y * 12 + m == MonthIndex(ps) + k
    requires FirstOfMonth(y, m) <= Ord(pe)
    ensures bucket == MonthBucket(ps, pe, k) && k < MonthCount(ps, pe)
    ensures 1 <= m' <= 12 && y' * 12 + m' == MonthIndex(ps) + k + 1
    ensures FirstOfMonth(y', m') > FirstOfMonth(y, m)
  {
    SameMonthIndex(MonthAfter(ps.year, ps.month, k), (y, m));
    MonthWalkStep(ps, pe, y, m, k);
    var bucketEnd := Min(LastOfMonth(y, m), Ord(pe));
    var bucketStart := Max(FirstOfMonth(y, m), Ord(ps));
    bucket := (bucketStart, bucketEnd);
    var next := NextMonth(y, m);
    y', m' := next.0, next.1;
  }

  /** One step of the month walk: the month is still within the period, and the next one starts later. */
  lemma MonthWalkStep(ps: Date, pe: Date, y: int, m: int, k: nat)
    requires ValidDate(ps) && ValidDate(pe) && 1 <= m <= 12
    requires (y, m) == MonthAfter(ps.year, ps.month, k)
    requires FirstOfMonth(y, m) <= Ord(pe)
    ensures k < MonthCount(ps, pe)
    ensures NextMonth(y, m) == MonthAfter(ps.year, ps.month, k + 1)
    ensures FirstOfMonth(NextMonth(y, m).0, NextMonth(y, m).1) > FirstOfMonth(y, m)
    ensures MonthBucket(ps, pe, k) == (Max(FirstOfMonth(y, m), Ord(ps)), Min(LastOfMonth(y, m), Ord(pe)))
  {
    FirstOfMonthAtMost(y, m, pe);
    MonthAfterStep(ps.year, ps.month, k);
    NextMonthFirst(y, m);
  }

  /** The walk stops at a month that starts after the period, which is past the last bucket. */
  lemma MonthWalkEnd(ps: Date, pe: Date, y: int, m: int, k: nat)
    requires ValidDate(ps) && ValidDate(pe) && 1 <= m <= 12
    requires y * 12 + m == MonthIndex(ps) + k
    requires FirstOfMonth(y, m) > Ord(pe)
    ensures k >= MonthCount(ps, pe)
  {
    FirstOfMonthAtMost(y, m, pe);
  }

  /** Where the `i`-th month bucket starts and ends, for a period that is not inverted. */
  lemma MonthBucketShape(ps: Date, pe: Date, i: int)
    requires ValidDate(ps) && ValidDate(pe) && Ord(ps) <= Ord(pe)
    requires 0 <= i < MonthCount(ps, pe)
    ensures var ym := MonthAfter(ps.year, ps.month, i);
            && MonthBucket(ps, pe, i).0 == (if i == 0 then Ord(ps) else FirstOfMonth(ym.0, ym.1))
            && MonthBucket(ps, pe, i).1 == (if i == MonthCount(ps, pe) - 1 then Ord(pe) else LastOfMonth(ym.0, ym.1))
            && FirstOfMonth(ym.0, ym.1) <= MonthBucket(ps, pe, i).0 <= MonthBucket(ps, pe, i).1 <= LastOfMonth(ym.0, ym.1)
  {
    var ym := MonthAfter(ps.year, ps.month, i);
    OrdWithinMonth(ps);
    OrdWithinMonth(pe);
    if i == 0 {
      SameMonthIndex(ym, (ps.year, ps.month));
    } else {
      EarlierMonthEndsBefore(ps.year, ps.month, ym.0, ym.1);
    }
    if i == MonthCount(ps, pe) - 1 {
      SameMonthIndex(ym, (pe.year, pe.month));
    } else {
      EarlierMonthEndsBefore(ym.0, ym.1, pe.year, pe.month);
    }
  }

  /**
   * For `ps <= pe` the month buckets tile the period: the first starts on
   * `ps`, the last ends on `pe`, each starts the day after the one before
   * ends, each lies within its own calendar month, and there is one per
   * month spanned.
   */
  lemma MonthBucketsTile(ps: Date, pe: Date)
    requires ValidDate(ps) && ValidDate(pe) && Ord(ps) <= Ord(pe)
    ensures MonthCount(ps, pe) == MonthIndex(pe) - MonthIndex(ps) + 1
    ensures MonthBucket(ps, pe, 0).0 == Ord(ps)
    ensures MonthBucket(ps, pe, MonthCount(ps, pe) - 1).1 == Ord(pe)
    ensures forall i :: 0 <= i < MonthCount(ps, pe) - 1 ==> MonthBucket(ps, pe, i + 1).0 == MonthBucket(ps, pe, i).1 + 1
    ensures forall i :: 0 <= i < MonthCount(ps, pe) ==>
              var ym := MonthAfter(ps.year, ps.month, i);
              FirstOfMonth(ym.0, ym.1) <= MonthBucket(ps, pe, i).0 <= MonthBucket(ps, pe, i).1 <= LastOfMonth(ym.0, ym.1)
  {
    OrdWithinMonth(ps);
    FirstOfMonthAtMost(ps.year, ps.month, pe);
    var n := MonthCount(ps, pe);
    MonthBucketShape(ps, pe, 0);
    MonthBucketShape(ps, pe, n - 1);
    forall i | 0 <= i < n - 1 ensures MonthBucket(ps, pe, i + 1).0 == MonthBucket(ps, pe, i).1 + 1 {
      MonthBucketShape(ps, pe, i);
      MonthBucketShape(ps, pe, i + 1);
      var ym := MonthAfter(ps.year, ps.month, i);
      MonthAfterStep(ps.year, ps.month, i);
      NextMonthFirst(ym.0, ym.1);
    }
    forall i | 0 <= i < n
      ensures var ym := MonthAfter(ps.year, ps.month, i);
              FirstOfMonth(ym.0, ym.1) <= MonthBucket(ps, pe, i).0 <= MonthBucket(ps, pe, i).1 <= LastOfMonth(ym.0, ym.1)
    {
      MonthBucketShape(ps, pe, i);
    }
  }

  // ---- Week buckets ----

  /** The Monday of the week holding day `p`. */
  function WeekStart(p: int): int {
    p - Weekday(p)
  }

  /** The number of weeks from the one holding `p` while they start by `e`. */
  function WeekCount(p: int, e: int): nat {
    if WeekStart(p) <= e then (e - WeekStart(p)) / 7 + 1 else 0
  }

  /** The `i`-th week bucket: the `i`-th week from `p`'s, cut to the period. */
  function WeekBucket(p: int, e: int, i: int): (int, int) {
    var monday := WeekStart(p) + 7 * i;
    (Max(monday, p), Min(monday + 6, e))
  }

  /** `_week_buckets`: walk from the Monday of `ps`'s week, seven days at a time, while the week starts by `pe`. */
  method WeekBuckets(ps: Date, pe: Date) returns (b: seq<(int, int)>)
    requires ValidDate(ps) && ValidDate(pe)
    ensures |b| == WeekCount(Ord(ps), Ord(pe))
    ensures forall i :: 0 <= i < |b| ==> b[i] == WeekBucket(Ord(ps), Ord(pe), i)
  {
    var p, e := Ord(ps), Ord(pe);
    var current := p - Weekday(p);
    b := [];
    while current <= e
      invariant current == WeekStart(p) + 7 * |b|
      invariant |b| <= WeekCount(p, e)
      invariant forall i :: 0 <= i < |b| ==> b[i] == WeekBucket(p, e, i)
      decreases e - current
    {
      var bucketStart := Max(current, p);
      var bucketEnd := Min(current + 6, e);
      b := b + [(bucketStart, bucketEnd)];
      current := current + 7;
    }
  }

  /** Monday's weekday is 0. */
  lemma WeekStartIsMonday(p: int, i: int)
    ensures Weekday(WeekStart(p) + 7 * i) == 0
  {
    var q := (p + 6) / 7;
    assert p + 6 == 7 * q + (p + 6) % 7;
    assert WeekStart(p) + 7 * i + 6 == 7 * (q + i);
  }

  /**
   * For `p <= e` the week buckets tile [p, e]: the first starts on `p`, the
   * last ends on `e`, each starts the day after the one before ends, none
   * is longer than seven days, and every one after the first starts on a
   * Monday.
   */
  lemma WeekBucketsTile(p: int, e: int)
    requires p <= e
    ensures WeekCount(p, e) >= 1
    ensures WeekBucket(p, e, 0).0 == p
    ensures WeekBucket(p, e, WeekCount(p, e) - 1).1 == e
    ensures forall i :: 0 <= i < WeekCount(p, e) - 1 ==> WeekBucket(p, e, i + 1).0 == WeekBucket(p, e, i).1 + 1
    ensures forall i :: 0 <= i < WeekCount(p, e) ==> WeekBucket(p, e, i).0 <= WeekBucket(p, e, i).1 <= WeekBucket(p, e, i).0 + 6
    ensures forall i :: 1 <= i < WeekCount(p, e) ==> Weekday(WeekBucket(p, e, i).0) == 0
  {
    var m := WeekStart(p);
    var n := WeekCount(p, e);
    assert (e - m) == 7 * ((e - m) / 7) + (e - m) % 7;
    assert m + 7 * (n - 1) <= e <= m + 7 * (n - 1) + 6;
    forall i | 1 <= i < n ensures WeekBucket(p, e, i).0 == m + 7 * i {
    }
    forall i | 0 <= i < n - 1 ensures WeekBucket(p, e, i).1 == m + 7 * i + 6 {
      assert m + 7 * (i + 1) <= m + 7 * (n - 1);
    }
    forall i | 1 <= i < n ensures Weekday(WeekBucket(p, e, i).0) == 0 {
      WeekStartIsMonday(p, i);
    }
  }

  // ---- Trend ----

  datatype TrendPoint = TrendPoint(periodStart: int, periodEnd: int, totalCost: real, totalUnits: real, avgRate: real)

  /** `grain` is lower-cased and `basisUnit` upper-cased as the response reports them. */
  datatype Trend = Trend(grain: string, basisUnit: string, series: seq<TrendPoint>)

  /** The current company's snapshots overlapping a bucket with the given basis. */
  function BucketRows(t: seq<SnapshotRow>, current: Option<CompanyId>, bucket: (int, int), basis: string): seq<SnapshotRow> {
    OverlapBasis(ScopedFilter(t, SnapshotOwner, current), bucket.0, bucket.1, Some(basis))
  }

  /**
   * One trend point: the bucket's summed cost and units, and the cost per
   * unit, which is 0 when there are no units (no mean-rate fallback).
   */
  function TrendPointOf(t: seq<SnapshotRow>, current: Option<CompanyId>, bucket: (int, int), basis: string): (pt: TrendPoint)
    ensures pt.periodStart == bucket.0 && pt.periodEnd == bucket.1
    ensures pt.totalCost == CostSum(BucketRows(t, current, bucket, basis))
    ensures pt.totalUnits == UnitSum(BucketRows(t, current, bucket, basis))
    ensures pt.totalUnits > 0.0 ==> pt.avgRate * pt.totalUnits == pt.totalCost
    ensures pt.totalUnits <= 0.0 ==> pt.avgRate == 0.0
  {
    var rows := BucketRows(t, current, bucket, basis);
    var cost := CostSum(rows);
    var units := UnitSum(rows);
    TrendPoint(bucket.0, bucket.1, cost, units, if units > 0.0 then cost / units else 0.0)
  }

  /** Outside any tenant context every trend point is zero. */
  lemma TrendPointWithoutTenant(t: seq<SnapshotRow>, bucket: (int, int), basis: string)
    ensures TrendPointOf(t, None, bucket, basis).totalCost == 0.0
    ensures TrendPointOf(t, None, bucket, basis).avgRate == 0.0
  {
  }

  /** A snapshot counts in a bucket exactly when it is the company's, overlaps the bucket and has the basis. */
  lemma BucketRowsMembers(t: seq<SnapshotRow>, current: Option<CompanyId>, bucket: (int, int), basis: string, x: SnapshotRow)
    ensures x in BucketRows(t, current, bucket, basis) <==>
            x in t && current == Some(x.company) && x.periodStart <= bucket.1 && x.periodEnd >= bucket.0 && x.basisUnit == basis
  {
    OverlapBasisMembers(ScopedFilter(t, SnapshotOwner, current), bucket.0, bucket.1, Some(basis));
  }

  /** The trend points of the buckets, one per bucket in order. */
  method SeriesOf(t: seq<SnapshotRow>, current: Option<CompanyId>, buckets: seq<(int, int)>, basis: string)
    returns (series: seq<TrendPoint>)
    ensures |series| == |buckets|
    ensures forall k :: 0 <= k < |buckets| ==> series[k] == TrendPointOf(t, current, buckets[k], basis)
  {
    series := [];
    for i := 0 to |buckets|
      invariant |series| == i
      invariant forall k :: 0 <= k < i ==> series[k] == TrendPointOf(t, current, buckets[k], basis)
    {
      series := series + [TrendPointOf(t, current, buckets[i], basis)];
    }
  }

  /**
   * `get_trend`: month buckets when the lower-cased grain is "month", week
   * buckets for any other grain, and one point per bucket in order.
   */
  method GetTrend(t: seq<SnapshotRow>, current: Option<CompanyId>, ps: Date, pe: Date, grain: string, basis: string)
    returns (tr: Trend)
    requires ValidDate(ps) && ValidDate(pe)
    ensures tr.grain == Lower(grain) && tr.basisUnit == Upper(basis)
    ensures Lower(grain) == "month" ==>
              && |tr.series| == MonthCount(ps, pe)
              && forall i :: 0 <= i < |tr.series| ==> tr.series[i] == TrendPointOf(t, current, MonthBucket(ps, pe, i), Upper(basis))
    ensures Lower(grain) != "month" ==>
              && |tr.series| == WeekCount(Ord(ps), Ord(pe))
              && forall i :: 0 <= i < |tr.series| ==> tr.series[i] == TrendPointOf(t, current, WeekBucket(Ord(ps), Ord(pe), i), Upper(basis))
  {
    var g := Lower(grain);
    var bu := Upper(basis);
    var buckets: seq<(int, int)>;
    if g == "month" {
      buckets := MonthBuckets(ps, pe);
    } else {
      buckets := WeekBuckets(ps, pe);
    }
    var series := SeriesOf(t, current, buckets, bu);
    tr := Trend(g, bu, series);
  }
}
