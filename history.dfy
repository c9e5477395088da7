/**
 * The cost engine history: the stored snapshots (and, on request, order
 * breakdowns) of the current company overlapping a period, newest period
 * first, cut to a capped limit, with a summary of the returned snapshots.
 */
module History {
  import opened Wrappers
  import opened Text
  import opened Tenant
  import opened CostEntities
  import opened CostPersist
  import opened Ordering
  import opened Kpis
  import opened Values

  const LIMIT_HARD_CAP := 2000
  const LIMIT_DEFAULT := 500

  /** The limit is capped at 2000, and any limit that is not positive becomes 500. */
  function EffectiveLimit(limit: int): (r: int)
    ensures 1 <= r <= LIMIT_HARD_CAP
    ensures limit <= 0 ==> r == LIMIT_DEFAULT
    ensures 0 < limit <= LIMIT_HARD_CAP ==> r == limit
    ensures limit > LIMIT_HARD_CAP ==> r == LIMIT_HARD_CAP
  {
    var capped := if limit < LIMIT_HARD_CAP then limit else LIMIT_HARD_CAP;
    if capped <= 0 then LIMIT_DEFAULT else capped
  }

  /**
   * A snapshot is listed when its period overlaps [ps, pe], it belongs to
   * the requested cost center and has the upper-cased basis when those are
   * given, and, under `onlyNonzero`, its cost and rate are not both zero.
   */
  predicate SnapshotSelected(r: SnapshotRow, ps: int, pe: int, costCenterId: Option<int>,
                             basis: Option<string>, onlyNonzero: bool) {
    && r.periodStart <= pe && r.periodEnd >= ps
    && (costCenterId.None? || r.costCenterId == costCenterId.value)
    && (basis.None? || basis.value == [] || r.basisUnit == Upper(basis.value))
    && (onlyNonzero ==> !(r.totalCost == 0.0 && r.rate == 0.0))
  }

  function SelectSnapshots(t: seq<SnapshotRow>, ps: int, pe: int, costCenterId: Option<int>,
                           basis: Option<string>, onlyNonzero: bool): (r: seq<SnapshotRow>)
    ensures forall x :: x in r <==> x in t && SnapshotSelected(x, ps, pe, costCenterId, basis, onlyNonzero)
    ensures multiset(r) <= multiset(t)
  {
    if t == [] then []
    else
      var x := t[|t| - 1];
      assert t == t[..|t| - 1] + [x];
      SelectSnapshots(t[..|t| - 1], ps, pe, costCenterId, basis, onlyNonzero)
      + (if SnapshotSelected(x, ps, pe, costCenterId, basis, onlyNonzero) then [x] else [])
  }

  function SnapshotStart(r: SnapshotRow): int { r.periodStart }

  /**
   * The listed snapshots: `order_by("-period_start", "-created_at")` over
   * the selected rows of the current company, then the first `limit`.
   * Rows are stored in creation order, so reversing the table puts the
   * newest first and the stable sort keeps that among equal period starts.
   */
  function HistorySnapshotRows(t: seq<SnapshotRow>, current: Option<CompanyId>, ps: int, pe: int,
                               costCenterId: Option<int>, basis: Option<string>, onlyNonzero: bool, limit: int): seq<SnapshotRow>
  {
    var ordered := SortDesc(Reverse(SelectSnapshots(ScopedFilter(t, SnapshotOwner, current), ps, pe, costCenterId, basis, onlyNonzero)), SnapshotStart);
    var n := EffectiveLimit(limit);
    if |ordered| <= n then ordered else ordered[..n]
  }

  predicate BreakdownOverlaps(r: BreakdownRow, ps: int, pe: int) {
    r.periodStart <= pe && r.periodEnd >= ps
  }

  function BreakdownOwner(r: BreakdownRow): CompanyId { r.company }

  function SelectBreakdowns(t: seq<BreakdownRow>, ps: int, pe: int): (r: seq<BreakdownRow>)
    ensures forall x :: x in r <==> x in t && BreakdownOverlaps(x, ps, pe)
    ensures multiset(r) <= multiset(t)
  {
    if t == [] then []
    else
      var x := t[|t| - 1];
      assert t == t[..|t| - 1] + [x];
      SelectBreakdowns(t[..|t| - 1], ps, pe) + (if BreakdownOverlaps(x, ps, pe) then [x] else [])
  }

  function BreakdownStart(r: BreakdownRow): int { r.periodStart }

  /** The listed breakdowns: the overlapping ones, newest period first, then the first `limit`. */
  function HistoryBreakdownRows(t: seq<BreakdownRow>, current: Option<CompanyId>, ps: int, pe: int, limit: int): seq<BreakdownRow>
  {
    var ordered := SortDesc(Reverse(SelectBreakdowns(ScopedFilter(t, BreakdownOwner, current), ps, pe)), BreakdownStart);
    var n := EffectiveLimit(limit);
    if |ordered| <= n then ordered else ordered[..n]
  }

  /** The strictly positive rates of the rows, in order. */
  function PositiveRates(rows: seq<SnapshotRow>): (r: seq<real>)
    ensures forall k :: 0 <= k < |r| ==> r[k] > 0.0
  {
    if rows == [] then []
    else PositiveRates(rows[..|rows| - 1]) + (if rows[|rows| - 1].rate > 0.0 then [rows[|rows| - 1].rate] else [])
  }

  /** History's `avg_rate`: the `PositiveMean` of the rows' strictly positive rates. */
  function PositiveMeanRate(rows: seq<SnapshotRow>): real {
    PositiveMean(PositiveRates(rows))
  }

  /** The mean of positive rates, itself positive; 0 for no rates. */
  function PositiveMean(rates: seq<real>): (r: real)
    requires forall k :: 0 <= k < |rates| ==> rates[k] > 0.0
    ensures rates != [] ==> r * (|rates| as real) == RealSum(rates) && r > 0.0
    ensures rates == [] ==> r == 0.0
  {
    if rates != [] then
      PositiveSum(rates);
      MeanOfPositive(RealSum(rates), |rates| as real)
    else 0.0
  }

  /** A listed snapshot with the name of its cost center. */
  datatype HistorySnapshot = HistorySnapshot(row: SnapshotRow, costCenterName: string)

  /** A listed breakdown with its order's date (none without an order) and distance (0 without one). */
  datatype HistoryBreakdown = HistoryBreakdown(row: BreakdownRow, orderDate: Option<int>, distanceKm: real)

  datatype HistorySummary = HistorySummary(
    totalCostSum: real, totalUnitsSum: real, avgRate: real, snapshotCount: nat, breakdownCount: nat)

  /** The filters as reported back, with the effective limit. */
  datatype HistoryFilters = HistoryFilters(
    costCenterId: Option<int>, basisUnit: Option<string>, includeBreakdowns: bool, onlyNonzero: bool, limit: int)

  datatype HistoryReport = HistoryReport(
    filters: HistoryFilters, snapshots: seq<HistorySnapshot>, breakdowns: seq<HistoryBreakdown>, summary: HistorySummary)

  /** The first order with the given id. */
  function OrderWithId(orders: seq<TransportOrder>, id: Id): (r: Option<TransportOrder>)
    ensures r.Some? ==> r.value in orders && r.value.id == id
    ensures r.None? ==> forall o :: o in orders ==> o.id != id
  {
    if orders == [] then None
    else if orders[0].id == id then Some(orders[0])
    else OrderWithId(orders[1..], id)
  }

  function BreakdownEntry(orders: seq<TransportOrder>, b: BreakdownRow): HistoryBreakdown {
    match OrderWithId(orders, b.orderId)
    case None => HistoryBreakdown(b, None, 0.0)
    case Some(o) => HistoryBreakdown(b, Some(o.date), if o.distanceKm.Some? then o.distanceKm.value else 0.0)
  }

  method SnapshotEntries(rows: seq<SnapshotRow>, centers: seq<CostCenter>) returns (entries: seq<HistorySnapshot>)
    ensures |entries| == |rows|
    ensures forall k :: 0 <= k < |rows| ==> entries[k] == HistorySnapshot(rows[k], CenterName(centers, rows[k].costCenterId))
  {
    entries := [];
    for i := 0 to |rows|
      invariant |entries| == i
      invariant forall k :: 0 <= k < i ==> entries[k] == HistorySnapshot(rows[k], CenterName(centers, rows[k].costCenterId))
    {
      entries := entries + [HistorySnapshot(rows[i], CenterName(centers, rows[i].costCenterId))];
    }
  }

  method BreakdownEntries(rows: seq<BreakdownRow>, orders: seq<TransportOrder>) returns (entries: seq<HistoryBreakdown>)
    ensures |entries| == |rows|
    ensures forall k :: 0 <= k < |rows| ==> entries[k] == BreakdownEntry(orders, rows[k])
  {
    entries := [];
    for i := 0 to |rows|
      invariant |entries| == i
      invariant forall k :: 0 <= k < i ==> entries[k] == BreakdownEntry(orders, rows[k])
    {
      entries := entries + [BreakdownEntry(orders, rows[i])];
    }
  }

  /**
   * `get_cost_engine_history`: the listed snapshots with their cost center
   * names, the listed breakdowns only when asked for, and a summary of the
   * listed (post-limit) snapshots.
   */
  method GetCostEngineHistory(t: seq<SnapshotRow>, bt: seq<BreakdownRow>, centers: seq<CostCenter>, orders: seq<TransportOrder>,
                              current: Option<CompanyId>, ps: int, pe: int, costCenterId: Option<int>, basis: Option<string>,
                              includeBreakdowns: bool, onlyNonzero: bool, limit: int)
    returns (h: HistoryReport)
    ensures h.filters == HistoryFilters(costCenterId, basis, includeBreakdowns, onlyNonzero, EffectiveLimit(limit))
    ensures var rows := HistorySnapshotRows(t, current, ps, pe, costCenterId, basis, onlyNonzero, limit);
            && |h.snapshots| == |rows|
            && (forall k :: 0 <= k < |rows| ==> h.snapshots[k] == HistorySnapshot(rows[k], CenterName(centers, rows[k].costCenterId)))
            && h.summary == HistorySummary(CostSum(rows), UnitSum(rows), PositiveMeanRate(rows), |rows|, |h.breakdowns|)
    ensures !includeBreakdowns ==> h.breakdowns == []
    ensures includeBreakdowns ==>
              var brows := HistoryBreakdownRows(bt, current, ps, pe, limit);
              && |h.breakdowns| == |brows|
              && forall k :: 0 <= k < |brows| ==> h.breakdowns[k] == BreakdownEntry(orders, brows[k])
  {
    var n := EffectiveLimit(limit);
    var rows := HistorySnapshotRows(t, current, ps, pe, costCenterId, basis, onlyNonzero, limit);
    var snapshots := SnapshotEntries(rows, centers);
    var breakdowns: seq<HistoryBreakdown> := [];
    if includeBreakdowns {
      breakdowns := BreakdownEntries(HistoryBreakdownRows(bt, current, ps, pe, limit), orders);
    }
    var summary := HistorySummary(CostSum(rows), UnitSum(rows), PositiveMeanRate(rows), |snapshots|, |breakdowns|);
    h := HistoryReport(HistoryFilters(costCenterId, basis, includeBreakdowns, onlyNonzero, n), snapshots, breakdowns, summary);
  }

  /**
   * Every listed snapshot is the current company's and passes the filters;
   * under `onlyNonzero` none has both a zero cost and a zero rate.
   */
  lemma HistorySnapshotsSelected(t: seq<SnapshotRow>, current: Option<CompanyId>, ps: int, pe: int,
                                 costCenterId: Option<int>, basis: Option<string>, onlyNonzero: bool, limit: int, x: SnapshotRow)
    requires x in HistorySnapshotRows(t, current, ps, pe, costCenterId, basis, onlyNonzero, limit)
    ensures x in t && current == Some(x.company)
    ensures x.periodStart <= pe && x.periodEnd >= ps
    ensures costCenterId.Some? ==> x.costCenterId == costCenterId.value
    ensures basis.Some? && basis.value != [] ==> x.basisUnit == Upper(basis.value)
    ensures onlyNonzero ==> x.totalCost != 0.0 || x.rate != 0.0
  {
    var sel := SelectSnapshots(ScopedFilter(t, SnapshotOwner, current), ps, pe, costCenterId, basis, onlyNonzero);
    var ordered := SortDesc(Reverse(sel), SnapshotStart);
    SortDescFacts(Reverse(sel), SnapshotStart);
    ReverseMultiset(sel);
    assert x in ordered by {
      if |ordered| > EffectiveLimit(limit) {
        assert x in ordered[..EffectiveLimit(limit)];
      }
    }
    assert x in multiset(ordered);
  }

  /**
   * The listed snapshots are the `min(count, limit)` newest matching ones
   * (limit the effective limit, at most 2000), newest period first: none is
   * listed more often than it is stored, every snapshot left out starts no
   * later than any listed one, and when no more than the limit match, every
   * matching snapshot is listed.
   */
  lemma HistorySnapshotsShape(t: seq<SnapshotRow>, current: Option<CompanyId>, ps: int, pe: int,
                              costCenterId: Option<int>, basis: Option<string>, onlyNonzero: bool, limit: int)
    ensures var rows := HistorySnapshotRows(t, current, ps, pe, costCenterId, basis, onlyNonzero, limit);
            var sel := SelectSnapshots(ScopedFilter(t, SnapshotOwner, current), ps, pe, costCenterId, basis, onlyNonzero);
            && |rows| <= EffectiveLimit(limit) <= LIMIT_HARD_CAP
            && |rows| == (if |sel| <= EffectiveLimit(limit) then |sel| else EffectiveLimit(limit))
            && Descending(rows, SnapshotStart)
            && multiset(rows) <= multiset(sel)
            && (|sel| <= EffectiveLimit(limit) ==> multiset(rows) == multiset(sel))
            && (forall x, y :: x in multiset(sel) - multiset(rows) && y in rows ==> SnapshotStart(x) <= SnapshotStart(y))
  {
    var sel := SelectSnapshots(ScopedFilter(t, SnapshotOwner, current), ps, pe, costCenterId, basis, onlyNonzero);
    var ordered, n := SortDesc(Reverse(sel), SnapshotStart), EffectiveLimit(limit);
    SortDescFacts(Reverse(sel), SnapshotStart);
    ReverseMultiset(sel);
    TakeSorted(ordered, sel, SnapshotStart, n);
    assert HistorySnapshotRows(t, current, ps, pe, costCenterId, basis, onlyNonzero, limit)
        == if |ordered| <= n then ordered else ordered[..n];
  }

  /** The `min(count, limit)` newest overlapping breakdowns are listed, newest period first; every one left out starts no later than any listed one. */
  lemma HistoryBreakdownsShape(bt: seq<BreakdownRow>, current: Option<CompanyId>, ps: int, pe: int, limit: int)
    ensures var rows := HistoryBreakdownRows(bt, current, ps, pe, limit);
            var sel := SelectBreakdowns(ScopedFilter(bt, BreakdownOwner, current), ps, pe);
            && |rows| <= EffectiveLimit(limit)
            && |rows| == (if |sel| <= EffectiveLimit(limit) then |sel| else EffectiveLimit(limit))
            && Descending(rows, BreakdownStart)
            && multiset(rows) <= multiset(sel)
            && (|sel| <= EffectiveLimit(limit) ==> multiset(rows) == multiset(sel))
            && (forall x, y :: x in multiset(sel) - multiset(rows) && y in rows ==> BreakdownStart(x) <= BreakdownStart(y))
  {
    var sel := SelectBreakdowns(ScopedFilter(bt, BreakdownOwner, current), ps, pe);
    var ordered, n := SortDesc(Reverse(sel), BreakdownStart), EffectiveLimit(limit);
    SortDescFacts(Reverse(sel), BreakdownStart);
    ReverseMultiset(sel);
    TakeSorted(ordered, sel, BreakdownStart, n);
    assert HistoryBreakdownRows(bt, current, ps, pe, limit) == if |ordered| <= n then ordered else ordered[..n];
  }

  /** Every listed breakdown is the current company's and overlaps the period. */
  lemma HistoryBreakdownsSelected(bt: seq<BreakdownRow>, current: Option<CompanyId>, ps: int, pe: int, limit: int, x: BreakdownRow)
    requires x in HistoryBreakdownRows(bt, current, ps, pe, limit)
    ensures x in bt && current == Some(x.company) && BreakdownOverlaps(x, ps, pe)
  {
    var sel := SelectBreakdowns(ScopedFilter(bt, BreakdownOwner, current), ps, pe);
    var ordered := SortDesc(Reverse(sel), BreakdownStart);
    SortDescFacts(Reverse(sel), BreakdownStart);
    ReverseMultiset(sel);
    assert x in ordered by {
      if |ordered| > EffectiveLimit(limit) {
        assert x in ordered[..EffectiveLimit(limit)];
      }
    }
    assert x in multiset(ordered);
  }

  /** Outside any tenant context the history lists nothing. */
  lemma HistoryWithoutTenant(t: seq<SnapshotRow>, bt: seq<BreakdownRow>, ps: int, pe: int,
                             costCenterId: Option<int>, basis: Option<string>, onlyNonzero: bool, limit: int)
    ensures HistorySnapshotRows(t, None, ps, pe, costCenterId, basis, onlyNonzero, limit) == []
    ensures HistoryBreakdownRows(bt, None, ps, pe, limit) == []
  {
  }
}
