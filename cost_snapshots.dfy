/**
 * The record shapes the cost engine produces: one snapshot per cost center,
 * one breakdown per transport order, and the run summary.
 */
module CostSnapshots {
  import opened Wrappers
  import opened Tenant
  import opened CostEntities
  import opened CostAggregations

  /** A cost center's cost, activity and rate for one period. */
  datatype Snapshot = Snapshot(
    costCenterId: Id, name: string, ctype: string, periodStart: int, periodEnd: int,
    basisUnit: string, totalCost: real, totalUnits: real, rate: real, status: string)

  /** The costs allocated to one order and its resulting profit. */
  datatype Breakdown = Breakdown(
    orderId: Id, directCost: real, vehicleAlloc: real, driverAlloc: real, overheadAlloc: real,
    totalCost: real, revenue: real, profit: real, margin: real, status: string)

  datatype Summary = Summary(
    totalSnapshots: nat, totalBreakdowns: nat, totalCost: real,
    totalRevenue: real, totalProfit: real, averageMargin: real)

  /**
   * `build_cost_center_snapshot`: cost, units, basis and period are copied
   * through; rate and status come from `calculate_rate`.
   */
  function BuildCostCenterSnapshot(c: CostCenter, totalCost: real, totalUnits: real, basisUnit: string, ps: int, pe: int): (s: Snapshot)
    ensures s.costCenterId == c.id && s.name == c.name && s.ctype == c.ctype
    ensures s.periodStart == ps && s.periodEnd == pe && s.basisUnit == basisUnit
    ensures s.totalCost == totalCost && s.totalUnits == totalUnits
    ensures totalUnits == 0.0 ==> s.rate == 0.0 && s.status == MISSING_ACTIVITY
    ensures totalUnits != 0.0 ==> s.rate * totalUnits == totalCost && s.status == OK
  {
    var (rate, status) := CalculateRate(totalCost, Some(totalUnits));
    Snapshot(c.id, c.name, c.ctype, ps, pe, basisUnit, totalCost, totalUnits, rate, status)
  }

  /**
   * The rate rule a snapshot keeps: no activity means rate 0 and
   * MISSING_ACTIVITY; otherwise status OK and rate x units = cost.
   */
  predicate RateRule(s: Snapshot) {
    && (s.totalUnits == 0.0 ==> s.rate == 0.0 && s.status == MISSING_ACTIVITY)
    && (s.totalUnits != 0.0 ==> s.rate * s.totalUnits == s.totalCost && s.status == OK)
  }

  /** Rate x units = cost read off a snapshot that keeps the rate rule. */
  lemma RateSpreadsCost(s: Snapshot, rate: real, units: real, cost: real)
    requires RateRule(s) && s.rate == rate && s.totalUnits == units && s.totalCost == cost && units != 0.0
    ensures rate * units == cost
  {
  }

  /**
   * `build_order_breakdown`: the allocations add up to the total cost,
   * profit and margin are those of that total against the revenue, direct
   * and driver costs are 0 and the status is always OK.
   */
  function BuildOrderBreakdown(o: TransportOrder, vehicleCost: real, overheadCost: real, revenue: real): (b: Breakdown)
    ensures b.orderId == o.id && b.revenue == revenue
    ensures b.vehicleAlloc == vehicleCost && b.overheadAlloc == overheadCost
    ensures b.directCost == 0.0 && b.driverAlloc == 0.0 && b.status == OK
    ensures b.totalCost == b.directCost + b.vehicleAlloc + b.driverAlloc + b.overheadAlloc
    ensures (b.profit, b.margin) == CalculateProfitMargin(revenue, b.totalCost)
  {
    var total := vehicleCost + overheadCost;
    var (profit, margin) := CalculateProfitMargin(revenue, total);
    Breakdown(o.id, 0.0, vehicleCost, 0.0, overheadCost, total, revenue, profit, margin, OK)
  }

  function SnapshotCostSum(s: seq<Snapshot>): real {
    if s == [] then 0.0 else SnapshotCostSum(s[..|s| - 1]) + s[|s| - 1].totalCost
  }

  function RevenueSum(b: seq<Breakdown>): real {
    if b == [] then 0.0 else RevenueSum(b[..|b| - 1]) + b[|b| - 1].revenue
  }

  function ProfitSum(b: seq<Breakdown>): real {
    if b == [] then 0.0 else ProfitSum(b[..|b| - 1]) + b[|b| - 1].profit
  }

  function BreakdownCostSum(b: seq<Breakdown>): real {
    if b == [] then 0.0 else BreakdownCostSum(b[..|b| - 1]) + b[|b| - 1].totalCost
  }

  function MarginSum(b: seq<Breakdown>): real {
    if b == [] then 0.0 else MarginSum(b[..|b| - 1]) + b[|b| - 1].margin
  }

  /**
   * `format_calculation_summary`: counts, the snapshot cost total, the
   * breakdown revenue and profit totals, and the mean margin (0 when there
   * are no breakdowns).
   */
  function FormatCalculationSummary(snapshots: seq<Snapshot>, breakdowns: seq<Breakdown>): (r: Summary)
    ensures r.totalSnapshots == |snapshots| && r.totalBreakdowns == |breakdowns|
    ensures r.totalCost == SnapshotCostSum(snapshots)
    ensures r.totalRevenue == RevenueSum(breakdowns) && r.totalProfit == ProfitSum(breakdowns)
    ensures breakdowns == [] ==> r.averageMargin == 0.0
    ensures breakdowns != [] ==> r.averageMargin * (|breakdowns| as real) == MarginSum(breakdowns)
  {
    var avg := if breakdowns == [] then 0.0 else MarginSum(breakdowns) / (|breakdowns| as real);
    Summary(|snapshots|, |breakdowns|, SnapshotCostSum(snapshots), RevenueSum(breakdowns), ProfitSum(breakdowns), avg)
  }

  /** Every breakdown keeps profit = revenue - total cost. */
  predicate ProfitLaw(b: seq<Breakdown>) {
    forall i :: 0 <= i < |b| ==> b[i].profit == b[i].revenue - b[i].totalCost
  }

  /**
   * The profit law carries over to the totals: the summary's profit is its
   * revenue minus the breakdowns' summed cost.
   */
  lemma {:induction false} SummaryProfitLaw(snapshots: seq<Snapshot>, breakdowns: seq<Breakdown>)
    requires ProfitLaw(breakdowns)
    ensures FormatCalculationSummary(snapshots, breakdowns).totalProfit
         == FormatCalculationSummary(snapshots, breakdowns).totalRevenue - BreakdownCostSum(breakdowns)
  {
    SumsProfitLaw(breakdowns);
  }

  lemma {:induction false} SumsProfitLaw(b: seq<Breakdown>)
    requires ProfitLaw(b)
    ensures ProfitSum(b) == RevenueSum(b) - BreakdownCostSum(b)
  {
    if b != [] {
      var p := b[..|b| - 1];
      assert ProfitLaw(p) by {
        forall i | 0 <= i < |p| ensures p[i].profit == p[i].revenue - p[i].totalCost {
          assert p[i] == b[i];
        }
      }
      SumsProfitLaw(p);
    }
  }
}
