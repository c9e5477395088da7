/**
 * The KPI analytics read from the stored cost rate snapshots only, through
 * the company-scoped manager: the period summary, the cost structure by
 * cost center, and the month or week trend.
 */
module Kpis {
  import opened Wrappers
  import opened Text
  import opened Dates
  import opened Values
  import opened Tenant
  import opened CostEntities
  import opened CostPersist

  function SnapshotOwner(r: SnapshotRow): CompanyId { r.company }

  /** `period_start__lte=end, period_end__gte=start`: the snapshot's period overlaps [start, end]. */
  predicate Overlaps(r: SnapshotRow, start: int, end: int) {
    r.periodStart <= end && r.periodEnd >= start
  }

  /** The rows of `t` overlapping [start, end], and with basis unit `basis` when one is given, in table order. */
  function OverlapBasis(t: seq<SnapshotRow>, start: int, end: int, basis: Option<string>): seq<SnapshotRow> {
    if t == [] then []
    else
      var x := t[|t| - 1];
      OverlapBasis(t[..|t| - 1], start, end, basis)
      + (if Overlaps(x, start, end) && (basis.None? || x.basisUnit == basis.value) then [x] else [])
  }

  lemma {:induction false} OverlapBasisMembers(t: seq<SnapshotRow>, start: int, end: int, basis: Option<string>)
    ensures forall x :: x in OverlapBasis(t, start, end, basis) <==>
                        x in t && Overlaps(x, start, end) && (basis.None? || x.basisUnit == basis.value)
  {
    if t != [] {
      OverlapBasisMembers(t[..|t| - 1], start, end, basis);
      assert t == t[..|t| - 1] + [t[|t| - 1]];
    }
  }

  function CostSum(rows: seq<SnapshotRow>): real {
    if rows == [] then 0.0 else CostSum(rows[..|rows| - 1]) + rows[|rows| - 1].totalCost
  }

  function UnitSum(rows: seq<SnapshotRow>): real {
    if rows == [] then 0.0 else UnitSum(rows[..|rows| - 1]) + rows[|rows| - 1].totalUnits
  }

  function RateSum(rows: seq<SnapshotRow>): real {
    if rows == [] then 0.0 else RateSum(rows[..|rows| - 1]) + rows[|rows| - 1].rate
  }

  /** `Count("id", filter=Q(status=s))`. */
  function StatusCount(rows: seq<SnapshotRow>, s: string): nat {
    if rows == [] then 0 else StatusCount(rows[..|rows| - 1], s) + (if rows[|rows| - 1].status == s then 1 else 0)
  }

  /**
   * Two different statuses are never counted for the same row, so their
   * counts together never exceed the number of rows.
   */
  lemma {:induction false} StatusCountsBounded(rows: seq<SnapshotRow>, a: string, b: string)
    requires a != b
    ensures StatusCount(rows, a) + StatusCount(rows, b) <= |rows|
  {
    if rows != [] {
      StatusCountsBounded(rows[..|rows| - 1], a, b);
    }
  }

  /** The summary's query: the current company's snapshots overlapping the period with the upper-cased basis. */
  function SummaryRows(t: seq<SnapshotRow>, current: Option<CompanyId>, ps: int, pe: int, basis: string): seq<SnapshotRow> {
    OverlapBasis(ScopedFilter(t, SnapshotOwner, current), ps, pe, Some(Upper(basis)))
  }

  /**
   * A snapshot is summarised exactly when it is the current company's, its
   * period overlaps the requested one, and its basis is the upper-cased
   * basis asked for.
   */
  lemma SummaryRowsMembers(t: seq<SnapshotRow>, current: Option<CompanyId>, ps: int, pe: int, basis: string, x: SnapshotRow)
    ensures x in SummaryRows(t, current, ps, pe, basis) <==>
            x in t && current == Some(x.company) && x.periodStart <= pe && x.periodEnd >= ps && x.basisUnit == Upper(basis)
  {
    OverlapBasisMembers(ScopedFilter(t, SnapshotOwner, current), ps, pe, Some(Upper(basis)));
  }

  /**
   * `avg_rate`: the cost-weighted rate when the units are positive,
   * otherwise the plain mean of the rates, and 0 without rows.
   */
  function AverageRate(rows: seq<SnapshotRow>): (r: real)
    ensures UnitSum(rows) > 0.0 ==> r * UnitSum(rows) == CostSum(rows)
    ensures UnitSum(rows) <= 0.0 && rows != [] ==> r * (|rows| as real) == RateSum(rows)
    ensures UnitSum(rows) <= 0.0 && rows == [] ==> r == 0.0
  {
    if UnitSum(rows) > 0.0 then CostSum(rows) / UnitSum(rows)
    else if rows == [] then 0.0
    else RateSum(rows) / (|rows| as real)
  }

  datatype CompanySummary = CompanySummary(
    basisUnit: string, totalCost: real, totalUnits: real, avgRate: real, costPerUnit: real,
    snapshotCount: nat, missingActivityCount: nat, missingRateCount: nat)

  /**
   * `get_company_summary`: sums, counts and the average rate of the
   * summarised snapshots; `cost_per_unit` repeats `avg_rate`.
   */
  function GetCompanySummary(t: seq<SnapshotRow>, current: Option<CompanyId>, ps: int, pe: int, basis: string): (s: CompanySummary)
    ensures var rows := SummaryRows(t, current, ps, pe, basis);
            && s.basisUnit == Upper(basis)
            && s.totalCost == CostSum(rows) && s.totalUnits == UnitSum(rows)
            && s.snapshotCount == |rows|
            && s.missingActivityCount == StatusCount(rows, MISSING_ACTIVITY)
            && s.missingRateCount == StatusCount(rows, MISSING_RATE)
            && s.missingActivityCount + s.missingRateCount <= s.snapshotCount
            && (s.totalUnits > 0.0 ==> s.avgRate * s.totalUnits == s.totalCost)
            && (s.totalUnits <= 0.0 && s.snapshotCount > 0 ==> s.avgRate * (s.snapshotCount as real) == RateSum(rows))
            && (s.snapshotCount == 0 ==> s.avgRate == 0.0 && s.totalCost == 0.0)
            && s.costPerUnit == s.avgRate
  {
    var rows := SummaryRows(t, current, ps, pe, basis);
    StatusCountsBounded(rows, MISSING_ACTIVITY, MISSING_RATE);
    var avg := AverageRate(rows);
    CompanySummary(Upper(basis), CostSum(rows), UnitSum(rows), avg, avg, |rows|,
                   StatusCount(rows, MISSING_ACTIVITY), StatusCount(rows, MISSING_RATE))
  }

  /** Outside any tenant context the summary is empty. */
  lemma SummaryWithoutTenant(t: seq<SnapshotRow>, ps: int, pe: int, basis: string)
    ensures GetCompanySummary(t, None, ps, pe, basis).snapshotCount == 0
    ensures GetCompanySummary(t, None, ps, pe, basis).totalCost == 0.0
  {
  }

  // ---- Cost structure ----

  /** One `values("cost_center_id").annotate(total_cost=Sum(...))` row. */
  datatype CenterTotal = CenterTotal(centerId: Id, totalCost: real)

  /** Add `cost` to the group of cost center `id`, opening a new group at the end when there is none. */
  function AddToCenter(g: seq<CenterTotal>, id: Id, cost: real): seq<CenterTotal> {
    if g == [] then [CenterTotal(id, cost)]
    else if g[0].centerId == id then [CenterTotal(id, g[0].totalCost + cost)] + g[1..]
    else [g[0]] + AddToCenter(g[1..], id, cost)
  }

  /** The per-cost-center cost totals of `rows`, one group per cost center, in order of first appearance. */
  function GroupByCenter(rows: seq<SnapshotRow>): seq<CenterTotal> {
    if rows == [] then []
    else AddToCenter(GroupByCenter(rows[..|rows| - 1]), rows[|rows| - 1].costCenterId, rows[|rows| - 1].totalCost)
  }

  function TotalsSum(g: seq<CenterTotal>): real {
    if g == [] then 0.0 else g[0].totalCost + TotalsSum(g[1..])
  }

  /** The summed cost of the rows of one cost center. */
  function CenterCost(rows: seq<SnapshotRow>, id: Id): real {
    if rows == [] then 0.0
    else CenterCost(rows[..|rows| - 1], id) + (if rows[|rows| - 1].costCenterId == id then rows[|rows| - 1].totalCost else 0.0)
  }

  /** The cost a list of groups holds for one cost center. */
  function GroupCost(g: seq<CenterTotal>, id: Id): real {
    if g == [] then 0.0 else (if g[0].centerId == id then g[0].totalCost else 0.0) + GroupCost(g[1..], id)
  }

  /** The cost centers a list of groups names. */
  function CenterIds(g: seq<CenterTotal>): set<Id> {
    if g == [] then {} else {g[0].centerId} + CenterIds(g[1..])
  }

  /** No cost center has two groups. */
  predicate DistinctCenters(g: seq<CenterTotal>) {
    g == [] || (g[0].centerId !in CenterIds(g[1..]) && DistinctCenters(g[1..]))
  }

  lemma {:induction false} AddToCenterIds(g: seq<CenterTotal>, id: Id, cost: real)
    ensures CenterIds(AddToCenter(g, id, cost)) == CenterIds(g) + {id}
  {
    if g != [] && g[0].centerId != id {
      AddToCenterIds(g[1..], id, cost);
      assert ([g[0]] + AddToCenter(g[1..], id, cost))[1..] == AddToCenter(g[1..], id, cost);
    } else if g != [] {
      assert ([CenterTotal(id, g[0].totalCost + cost)] + g[1..])[1..] == g[1..];
    }
  }

  lemma {:induction false} AddToCenterDistinct(g: seq<CenterTotal>, id: Id, cost: real)
    requires DistinctCenters(g)
    ensures DistinctCenters(AddToCenter(g, id, cost))
  {
    if g != [] && g[0].centerId != id {
      AddToCenterDistinct(g[1..], id, cost);
      AddToCenterIds(g[1..], id, cost);
      assert ([g[0]] + AddToCenter(g[1..], id, cost))[1..] == AddToCenter(g[1..], id, cost);
    } else if g != [] {
      assert ([CenterTotal(id, g[0].totalCost + cost)] + g[1..])[1..] == g[1..];
    }
  }

  lemma {:induction false} AddToCenterSum(g: seq<CenterTotal>, id: Id, cost: real)
    ensures TotalsSum(AddToCenter(g, id, cost)) == TotalsSum(g) + cost
  {
    if g != [] && g[0].centerId != id {
      AddToCenterSum(g[1..], id, cost);
      assert ([g[0]] + AddToCenter(g[1..], id, cost))[1..] == AddToCenter(g[1..], id, cost);
    } else if g != [] {
      assert ([CenterTotal(id, g[0].totalCost + cost)] + g[1..])[1..] == g[1..];
    }
  }

  lemma {:induction false} AddToCenterCost(g: seq<CenterTotal>, id: Id, cost: real, k: Id)
    ensures GroupCost(AddToCenter(g, id, cost), k) == GroupCost(g, k) + (if k == id then cost else 0.0)
  {
    if g != [] && g[0].centerId != id {
      AddToCenterCost(g[1..], id, cost, k);
      assert ([g[0]] + AddToCenter(g[1..], id, cost))[1..] == AddToCenter(g[1..], id, cost);
    } else if g != [] {
      assert ([CenterTotal(id, g[0].totalCost + cost)] + g[1..])[1..] == g[1..];
    }
  }

  /** The ids of a row list's cost centers. */
  function RowCenters(rows: seq<SnapshotRow>): set<Id> {
    if rows == [] then {} else RowCenters(rows[..|rows| - 1]) + {rows[|rows| - 1].costCenterId}
  }

  /**
   * Grouping keeps one group per cost center that has rows, each holding
   * the summed cost of that center's rows; together the groups hold the
   * summed cost of all rows.
   */
  lemma {:induction false} GroupByCenterFacts(rows: seq<SnapshotRow>)
    ensures DistinctCenters(GroupByCenter(rows))
    ensures CenterIds(GroupByCenter(rows)) == RowCenters(rows)
    ensures TotalsSum(GroupByCenter(rows)) == CostSum(rows)
    ensures forall k :: GroupCost(GroupByCenter(rows), k) == CenterCost(rows, k)
  {
    if rows != [] {
      var front := rows[..|rows| - 1];
      var x := rows[|rows| - 1];
      GroupByCenterFacts(front);
      var g := GroupByCenter(front);
      AddToCenterIds(g, x.costCenterId, x.totalCost);
      AddToCenterDistinct(g, x.costCenterId, x.totalCost);
      AddToCenterSum(g, x.costCenterId, x.totalCost);
      forall k ensures GroupCost(GroupByCenter(rows), k) == CenterCost(rows, k) {
        AddToCenterCost(g, x.costCenterId, x.totalCost, k);
      }
    }
  }

  /** In distinct groups, a group's own cost is all the cost the list holds for its center. */
  lemma {:induction false} GroupCostOfMember(g: seq<CenterTotal>, i: int)
    requires DistinctCenters(g) && 0 <= i < |g|
    ensures GroupCost(g, g[i].centerId) == g[i].totalCost
  {
    if i == 0 {
      GroupCostAbsent(g[1..], g[0].centerId);
    } else {
      assert g[1..][i - 1] == g[i];
      GroupCostOfMember(g[1..], i - 1);
      IdsOfMember(g[1..], i - 1);
    }
  }

  lemma {:induction false} IdsOfMember(g: seq<CenterTotal>, i: int)
    requires 0 <= i < |g|
    ensures g[i].centerId in CenterIds(g)
  {
    if i > 0 {
      assert g[1..][i - 1] == g[i];
      IdsOfMember(g[1..], i - 1);
    }
  }

  lemma {:induction false} GroupCostAbsent(g: seq<CenterTotal>, id: Id)
    requires id !in CenterIds(g)
    ensures GroupCost(g, id) == 0.0
  {
    if g != [] {
      GroupCostAbsent(g[1..], id);
    }
  }

  lemma {:induction false} MemberOfIds(g: seq<CenterTotal>, id: Id)
    requires id in CenterIds(g)
    ensures exists i :: 0 <= i < |g| && g[i].centerId == id
  {
    if g[0].centerId != id {
      MemberOfIds(g[1..], id);
      var i :| 0 <= i < |g[1..]| && g[1..][i].centerId == id;
      assert g[i + 1] == g[1..][i];
    }
  }

  lemma {:induction false} DistinctCentersIndexed(g: seq<CenterTotal>)
    requires DistinctCenters(g)
    ensures forall i, j :: 0 <= i < j < |g| ==> g[i].centerId != g[j].centerId
  {
    if g != [] {
      var rest := g[1..];
      DistinctCentersIndexed(rest);
      forall i, j | 0 <= i < j < |g| ensures g[i].centerId != g[j].centerId {
        assert g[j] == rest[j - 1];
        if i == 0 {
          IdsOfMember(rest, j - 1);
        } else {
          assert g[i] == rest[i - 1];
        }
      }
    }
  }

  /** Put `x` before the first group that costs no more than it does. */
  function InsertByCost(x: CenterTotal, s: seq<CenterTotal>): seq<CenterTotal> {
    if s == [] || x.totalCost >= s[0].totalCost then [x] + s
    else [s[0]] + InsertByCost(x, s[1..])
  }

  /** `order_by("-total_cost")`: costliest first, groups of equal cost in grouping order. */
  function SortByCostDesc(g: seq<CenterTotal>): seq<CenterTotal> {
    if g == [] then [] else InsertByCost(g[0], SortByCostDesc(g[1..]))
  }

  predicate CostDescending(s: seq<CenterTotal>) {
    forall i, j :: 0 <= i < j < |s| ==> s[i].totalCost >= s[j].totalCost
  }

  lemma {:induction false} InsertByCostMultiset(x: CenterTotal, s: seq<CenterTotal>)
    ensures multiset(InsertByCost(x, s)) == multiset(s) + multiset{x}
  {
    if !(s == [] || x.totalCost >= s[0].totalCost) {
      InsertByCostMultiset(x, s[1..]);
      assert s == [s[0]] + s[1..];
    }
  }

  lemma {:induction false} InsertByCostAtMost(x: CenterTotal, s: seq<CenterTotal>, bound: real)
    requires x.totalCost <= bound && forall k :: 0 <= k < |s| ==> s[k].totalCost <= bound
    ensures forall k :: 0 <= k < |InsertByCost(x, s)| ==> InsertByCost(x, s)[k].totalCost <= bound
  {
    if !(s == [] || x.totalCost >= s[0].totalCost) {
      var rest := s[1..];
      InsertByCostAtMost(x, rest, bound);
      var r := [s[0]] + InsertByCost(x, rest);
      forall k | 0 < k < |r| ensures r[k].totalCost <= bound {
        assert r[k] == InsertByCost(x, rest)[k - 1];
      }
    }
  }

  lemma {:induction false} InsertByCostSorted(x: CenterTotal, s: seq<CenterTotal>)
    requires CostDescending(s)
    ensures CostDescending(InsertByCost(x, s))
  {
    if !(s == [] || x.totalCost >= s[0].totalCost) {
      var rest := s[1..];
      InsertByCostSorted(x, rest);
      InsertByCostAtMost(x, rest, s[0].totalCost);
      var ins := InsertByCost(x, rest);
      var r := [s[0]] + ins;
      forall i, j | 0 <= i < j < |r| ensures r[i].totalCost >= r[j].totalCost {
        assert r[j] == ins[j - 1];
        if i > 0 { assert r[i] == ins[i - 1]; }
      }
    }
  }

  lemma {:induction false} InsertByCostIds(x: CenterTotal, s: seq<CenterTotal>)
    ensures CenterIds(InsertByCost(x, s)) == CenterIds(s) + {x.centerId}
    ensures TotalsSum(InsertByCost(x, s)) == TotalsSum(s) + x.totalCost
    ensures DistinctCenters(s) && x.centerId !in CenterIds(s) ==> DistinctCenters(InsertByCost(x, s))
  {
    if s == [] || x.totalCost >= s[0].totalCost {
      assert ([x] + s)[1..] == s;
    } else {
      InsertByCostIds(x, s[1..]);
      assert ([s[0]] + InsertByCost(x, s[1..]))[1..] == InsertByCost(x, s[1..]);
    }
  }

  /**
   * The sorted groups are a permutation of the groups, costliest first,
   * with the same cost centers and the same total.
   */
  lemma {:induction false} SortByCostFacts(g: seq<CenterTotal>)
    ensures CostDescending(SortByCostDesc(g))
    ensures multiset(SortByCostDesc(g)) == multiset(g)
    ensures CenterIds(SortByCostDesc(g)) == CenterIds(g)
    ensures TotalsSum(SortByCostDesc(g)) == TotalsSum(g)
    ensures DistinctCenters(g) ==> DistinctCenters(SortByCostDesc(g))
  {
    if g != [] {
      SortByCostFacts(g[1..]);
      InsertByCostSorted(g[0], SortByCostDesc(g[1..]));
      InsertByCostMultiset(g[0], SortByCostDesc(g[1..]));
      InsertByCostIds(g[0], SortByCostDesc(g[1..]));
      assert g == [g[0]] + g[1..];
    }
  }

  /** With distinct groups, there are as many groups as cost centers. */
  lemma {:induction false} DistinctCentersCount(g: seq<CenterTotal>)
    requires DistinctCenters(g)
    ensures |CenterIds(g)| == |g|
  {
    if g != [] {
      DistinctCentersCount(g[1..]);
    }
  }

  /** The grouped rows of the cost structure, costliest cost center first. */
  function GroupedCosts(rows: seq<SnapshotRow>): seq<CenterTotal> {
    SortByCostDesc(GroupByCenter(rows))
  }

  /**
   * The grouped rows hold one entry per cost center that has rows, with that
   * center's summed cost, costliest first, and together the cost of all rows.
   */
  lemma GroupedCostsFacts(rows: seq<SnapshotRow>)
    ensures var g := GroupedCosts(rows);
            && |g| == |RowCenters(rows)|
            && CostDescending(g)
            && TotalsSum(g) == CostSum(rows)
            && (forall i, j :: 0 <= i < j < |g| ==> g[i].centerId != g[j].centerId)
            && (forall i :: 0 <= i < |g| ==> g[i].centerId in RowCenters(rows) && g[i].totalCost == CenterCost(rows, g[i].centerId))
            && (forall id :: id in RowCenters(rows) ==> exists i :: 0 <= i < |g| && g[i].centerId == id)
  {
    var g0 := GroupByCenter(rows);
    var g := GroupedCosts(rows);
    GroupByCenterFacts(rows);
    SortByCostFacts(g0);
    DistinctCentersIndexed(g);
    DistinctCentersCount(g);
    forall i | 0 <= i < |g| ensures g[i].centerId in RowCenters(rows) && g[i].totalCost == CenterCost(rows, g[i].centerId) {
      IdsOfMember(g, i);
      assert g[i] in multiset(g0);
      var j :| 0 <= j < |g0| && g0[j] == g[i];
      GroupCostOfMember(g0, j);
    }
    forall id | id in RowCenters(rows) ensures exists i :: 0 <= i < |g| && g[i].centerId == id {
      MemberOfIds(g, id);
    }
  }

  /**
   * `share_pct`: the cost's percentage of the grand total rounded to whole
   * hundredths, and 0 when the grand total is not positive.
   */
  function SharePct(cost: real, grand: real): (r: real)
    ensures grand <= 0.0 ==> r == 0.0
    ensures grand > 0.0 ==> -0.005 <= r - cost / grand * 100.0 <= 0.005
    ensures (r * 100.0).Floor as real == r * 100.0
  {
    QuantizeWholeCents(0);
    Quantize2(if grand > 0.0 then cost / grand * 100.0 else 0.0)
  }

  /** `cost_center__name or ""`: the name of the cost center with that id. */
  function CenterName(centers: seq<CostCenter>, id: Id): (r: string)
    ensures (exists c :: c in centers && c.id == id) ==> exists c :: c in centers && c.id == id && c.name == r
    ensures (forall c :: c in centers ==> c.id != id) ==> r == ""
  {
    if centers == [] then ""
    else if centers[0].id == id then centers[0].name
    else CenterName(centers[1..], id)
  }

  /** The cost structure's query: overlapping snapshots of the company, of the upper-cased basis when a non-empty one is given. */
  function StructureRows(t: seq<SnapshotRow>, current: Option<CompanyId>, ps: int, pe: int, basis: Option<string>): seq<SnapshotRow> {
    OverlapBasis(ScopedFilter(t, SnapshotOwner, current), ps, pe,
                 if basis.Some? && basis.value != [] then Some(Upper(basis.value)) else None)
  }

  datatype StructureItem = StructureItem(groupId: Id, groupName: string, totalCost: real, sharePct: real)

  /** `basisUnit` is the filter as it was passed, not upper-cased. */
  datatype CostStructure = CostStructure(basisUnit: Option<string>, groupBy: string, items: seq<StructureItem>, totalCost: real)

  function ItemCostSum(items: seq<StructureItem>): real {
    if items == [] then 0.0 else items[0].totalCost + ItemCostSum(items[1..])
  }

  lemma {:induction false} ItemCostSumOfGroups(items: seq<StructureItem>, g: seq<CenterTotal>)
    requires |items| == |g| && forall k :: 0 <= k < |g| ==> items[k].totalCost == g[k].totalCost
    ensures ItemCostSum(items) == TotalsSum(g)
  {
    if g != [] {
      ItemCostSumOfGroups(items[1..], g[1..]);
    }
  }

  /** The items copy the grouped rows in order, adding the name and share. */
  predicate ItemsOfGroups(items: seq<StructureItem>, groups: seq<CenterTotal>, grand: real, centers: seq<CostCenter>) {
    && |items| == |groups|
    && forall k :: 0 <= k < |groups| ==>
         items[k] == StructureItem(groups[k].centerId, CenterName(centers, groups[k].centerId),
                                   groups[k].totalCost, SharePct(groups[k].totalCost, grand))
  }

  /**
   * What a cost structure over `rows` holds: the grand total of all rows,
   * which the item costs add up to; exactly one item per cost center with
   * rows, holding that center's summed cost, its name and its share of the
   * grand total; costliest first.
   */
  predicate DescribesStructure(cs: CostStructure, rows: seq<SnapshotRow>, centers: seq<CostCenter>) {
    && cs.totalCost == CostSum(rows)
    && ItemCostSum(cs.items) == cs.totalCost
    && |cs.items| == |RowCenters(rows)|
    && (forall i :: 0 <= i < |cs.items| ==>
          && cs.items[i].groupId in RowCenters(rows)
          && cs.items[i].totalCost == CenterCost(rows, cs.items[i].groupId)
          && cs.items[i].groupName == CenterName(centers, cs.items[i].groupId)
          && cs.items[i].sharePct == SharePct(cs.items[i].totalCost, cs.totalCost))
    && (forall id :: id in RowCenters(rows) ==> exists i :: 0 <= i < |cs.items| && cs.items[i].groupId == id)
    && (forall i, j :: 0 <= i < j < |cs.items| ==>
          cs.items[i].groupId != cs.items[j].groupId && cs.items[i].totalCost >= cs.items[j].totalCost)
  }

  /** Each item built from the grouped rows is its cost center's summed cost, name and share. */
  lemma StructureItemsOfCenters(rows: seq<SnapshotRow>, centers: seq<CostCenter>, items: seq<StructureItem>, grand: real)
    requires ItemsOfGroups(items, GroupedCosts(rows), grand, centers)
    ensures forall i :: 0 <= i < |items| ==>
              && items[i].groupId in RowCenters(rows)
              && items[i].totalCost == CenterCost(rows, items[i].groupId)
              && items[i].groupName == CenterName(centers, items[i].groupId)
              && items[i].sharePct == SharePct(items[i].totalCost, grand)
  {
    var groups := GroupedCosts(rows);
    GroupedCostsFacts(rows);
    forall i | 0 <= i < |items|
      ensures && items[i].groupId in RowCenters(rows)
              && items[i].totalCost == CenterCost(rows, items[i].groupId)
    {
      assert items[i].groupId == groups[i].centerId;
    }
  }

  /** Every cost center with rows has an item, and no two items share one. */
  lemma StructureItemsCover(rows: seq<SnapshotRow>, centers: seq<CostCenter>, items: seq<StructureItem>, grand: real)
    requires ItemsOfGroups(items, GroupedCosts(rows), grand, centers)
    ensures |items| == |RowCenters(rows)|
    ensures forall id :: id in RowCenters(rows) ==> exists i :: 0 <= i < |items| && items[i].groupId == id
    ensures forall i, j :: 0 <= i < j < |items| ==>
              items[i].groupId != items[j].groupId && items[i].totalCost >= items[j].totalCost
  {
    var groups := GroupedCosts(rows);
    GroupedCostsFacts(rows);
    forall id | id in RowCenters(rows) ensures exists i :: 0 <= i < |items| && items[i].groupId == id {
      var k :| 0 <= k < |groups| && groups[k].centerId == id;
      assert items[k].groupId == id;
    }
    forall i, j | 0 <= i < j < |items|
      ensures items[i].groupId != items[j].groupId && items[i].totalCost >= items[j].totalCost
    {
      assert items[i].groupId == groups[i].centerId && items[j].groupId == groups[j].centerId;
    }
  }

  /** Items built from the grouped rows describe the cost structure of the rows. */
  lemma StructureOfGroups(rows: seq<SnapshotRow>, centers: seq<CostCenter>, cs: CostStructure)
    requires cs.totalCost == TotalsSum(GroupedCosts(rows))
    requires ItemsOfGroups(cs.items, GroupedCosts(rows), cs.totalCost, centers)
    ensures DescribesStructure(cs, rows, centers)
  {
    GroupedCostsFacts(rows);
    ItemCostSumOfGroups(cs.items, GroupedCosts(rows));
    StructureItemsOfCenters(rows, centers, cs.items, cs.totalCost);
    StructureItemsCover(rows, centers, cs.items, cs.totalCost);
  }

  /** The loop of `get_cost_structure`: one item per grouped row, in order. */
  method StructureItems(groups: seq<CenterTotal>, grand: real, centers: seq<CostCenter>) returns (items: seq<StructureItem>)
    ensures ItemsOfGroups(items, groups, grand, centers)
  {
    items := [];
    var i := 0;
    while i < |groups|
      invariant 0 <= i <= |groups|
      invariant ItemsOfGroups(items, groups[..i], grand, centers)
    {
      var row := groups[i];
      var share := SharePct(row.totalCost, grand);
      items := items + [StructureItem(row.centerId, CenterName(centers, row.centerId), row.totalCost, share)];
      i := i + 1;
    }
    assert groups[..i] == groups;
  }

  /** `get_cost_structure`: items built row by row from the grouped, sorted per-center totals. */
  method GetCostStructure(t: seq<SnapshotRow>, centers: seq<CostCenter>, current: Option<CompanyId>,
                          ps: int, pe: int, basis: Option<string>, groupBy: string)
    returns (cs: CostStructure)
    ensures cs.basisUnit == basis && cs.groupBy == groupBy
    ensures DescribesStructure(cs, StructureRows(t, current, ps, pe, basis), centers)
  {
    var rows := StructureRows(t, current, ps, pe, basis);
    var groups := GroupedCosts(rows);
    var grand := TotalsSum(groups);
    var items := StructureItems(groups, grand, centers);
    cs := CostStructure(basis, groupBy, items, grand);
    StructureOfGroups(rows, centers, cs);
  }
}
