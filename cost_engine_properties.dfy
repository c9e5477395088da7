/**
 * What a cost engine run guarantees: one snapshot per cost center and one
 * breakdown per order, in input order; the missing-activity rule; the
 * allocation of vehicle and overhead costs onto orders conserves the cost
 * of the center allocated; and a run without tenant data is empty.
 */
module CostEngineProperties {
  import opened Wrappers
  import opened Tenant
  import opened CostEntities
  import opened CostQueries
  import opened CostAggregations
  import opened CostSnapshots
  import opened CostCalculator

  /** The ids of a list of cost centers, in order. */
  function CenterIds(cs: seq<CostCenter>): (r: seq<Id>)
    ensures |r| == |cs| && forall i :: 0 <= i < |cs| ==> r[i] == cs[i].id
  {
    seq(|cs|, i requires 0 <= i < |cs| => cs[i].id)
  }

  /** Sum of the vehicle allocations of the orders assigned to vehicle `v`. */
  function AllocatedToVehicle(orders: seq<TransportOrder>, bds: seq<Breakdown>, v: Id): real
    requires |orders| == |bds|
  {
    if orders == [] then 0.0
    else
      var n := |orders| - 1;
      AllocatedToVehicle(orders[..n], bds[..n], v) + (if orders[n].assignedVehicleId == Some(v) then bds[n].vehicleAlloc else 0.0)
  }

  /** Sum of the overhead allocations of all orders. */
  function OverheadAllocated(bds: seq<Breakdown>): real {
    if bds == [] then 0.0 else OverheadAllocated(bds[..|bds| - 1]) + bds[|bds| - 1].overheadAlloc
  }

  lemma {:induction false} SnapshotAt(cs: seq<CostCenter>, postings: seq<CostPosting>, orders: seq<TransportOrder>, ps: int, pe: int, k: nat)
    requires k < |cs|
    ensures |Snapshots(cs, postings, orders, ps, pe)| == |cs|
    ensures Snapshots(cs, postings, orders, ps, pe)[k] == CenterSnapshot(cs[k], postings, orders, ps, pe)
  {
    SnapshotsLength(cs, postings, orders, ps, pe);
    if k != |cs| - 1 {
      SnapshotAt(cs[..|cs| - 1], postings, orders, ps, pe, k);
    }
  }

  lemma {:induction false} SnapshotsLength(cs: seq<CostCenter>, postings: seq<CostPosting>, orders: seq<TransportOrder>, ps: int, pe: int)
    ensures |Snapshots(cs, postings, orders, ps, pe)| == |cs|
  {
    if cs != [] {
      SnapshotsLength(cs[..|cs| - 1], postings, orders, ps, pe);
    }
  }

  /** Snapshot `j` is that of cost center `j`. */
  lemma {:induction false} SnapshotIds(cs: seq<CostCenter>, postings: seq<CostPosting>, orders: seq<TransportOrder>, ps: int, pe: int)
    ensures |Snapshots(cs, postings, orders, ps, pe)| == |cs|
    ensures forall j :: 0 <= j < |cs| ==> Snapshots(cs, postings, orders, ps, pe)[j].costCenterId == cs[j].id
  {
    if cs != [] {
      var front, last := cs[..|cs| - 1], cs[|cs| - 1];
      SnapshotIds(front, postings, orders, ps, pe);
      CenterSnapshotLaw(last, postings, orders, ps, pe);
      var snaps, before := Snapshots(cs, postings, orders, ps, pe), Snapshots(front, postings, orders, ps, pe);
      assert snaps == before + [CenterSnapshot(last, postings, orders, ps, pe)];
      forall j | 0 <= j < |cs| ensures snaps[j].costCenterId == cs[j].id {
        if j < |front| {
          assert snaps[j] == before[j] && front[j] == cs[j];
        }
      }
    }
  }

  lemma {:induction false} BreakdownAt(orders: seq<TransportOrder>, vmap: map<Id, CostCenter>, overhead: Option<CostCenter>, rates: map<Id, real>, k: nat)
    requires k < |orders|
    ensures |Breakdowns(orders, vmap, overhead, rates)| == |orders|
    ensures Breakdowns(orders, vmap, overhead, rates)[k] == OrderBreakdown(orders[k], vmap, overhead, rates)
  {
    BreakdownsLength(orders, vmap, overhead, rates);
    if k != |orders| - 1 {
      BreakdownAt(orders[..|orders| - 1], vmap, overhead, rates, k);
    }
  }

  lemma {:induction false} BreakdownsLength(orders: seq<TransportOrder>, vmap: map<Id, CostCenter>, overhead: Option<CostCenter>, rates: map<Id, real>)
    ensures |Breakdowns(orders, vmap, overhead, rates)| == |orders|
  {
    if orders != [] {
      BreakdownsLength(orders[..|orders| - 1], vmap, overhead, rates);
    }
  }

  /** The snapshot of one center: its cost, its basis and units, and the rate and status `calculate_rate` gives. */
  lemma CenterSnapshotLaw(c: CostCenter, postings: seq<CostPosting>, orders: seq<TransportOrder>, ps: int, pe: int)
    ensures var s := CenterSnapshot(c, postings, orders, ps, pe);
      && s.costCenterId == c.id && s.name == c.name && s.ctype == c.ctype && s.periodStart == ps && s.periodEnd == pe
      && s.totalCost == CenterCost(postings, c.id)
      && (s.basisUnit, s.totalUnits) == CenterBasis(c, orders)
  {
    var (basis, units) := CenterBasis(c, orders);
    BuiltSnapshotIsNormal(c, CenterCost(postings, c.id), units, basis, ps, pe);
  }

  /** The rate rule of one cost center's snapshot. */
  lemma CenterSnapshotRate(c: CostCenter, postings: seq<CostPosting>, orders: seq<TransportOrder>, ps: int, pe: int)
    ensures RateRule(CenterSnapshot(c, postings, orders, ps, pe))
  {
    var (basis, units) := CenterBasis(c, orders);
    BuiltSnapshotIsNormal(c, CenterCost(postings, c.id), units, basis, ps, pe);
  }

  /**
   * Snapshot `i` of a run belongs to cost center `i`: its cost is the
   * center's posting sum, and OVERHEAD centers are measured on REVENUE by
   * the total revenue while all others are measured on KM by their
   * vehicle's distance, or by the total distance when no vehicle is linked.
   */
  lemma SnapshotOfEachCenter(centers: seq<CostCenter>, postings: seq<CostPosting>, orders: seq<TransportOrder>, ps: int, pe: int, i: nat)
    requires i < |centers|
    ensures var snaps := Snapshots(centers, postings, orders, ps, pe);
      && |snaps| == |centers|
      && snaps[i].costCenterId == centers[i].id
      && snaps[i].name == centers[i].name && snaps[i].ctype == centers[i].ctype
      && snaps[i].periodStart == ps && snaps[i].periodEnd == pe
      && snaps[i].totalCost == CenterCost(postings, centers[i].id)
      && (centers[i].ctype == OVERHEAD ==>
            snaps[i].basisUnit == REVENUE && snaps[i].totalUnits == Total(orders, OrderRevenue))
      && (centers[i].ctype != OVERHEAD && centers[i].vehicleId.Some? ==>
            snaps[i].basisUnit == KM && snaps[i].totalUnits == VehicleSum(orders, centers[i].vehicleId.value, Distance))
      && (centers[i].ctype != OVERHEAD && centers[i].vehicleId.None? ==>
            snaps[i].basisUnit == KM && snaps[i].totalUnits == Total(orders, Distance))
  {
    SnapshotAt(centers, postings, orders, ps, pe, i);
    CenterSnapshotLaw(centers[i], postings, orders, ps, pe);
  }

  /**
   * The status rule of every snapshot of a run: MISSING_ACTIVITY exactly
   * when there is no activity, with rate 0; otherwise OK with
   * rate x units = cost (so an idle center with postings gets rate 0).
   */
  lemma SnapshotStatusRule(centers: seq<CostCenter>, postings: seq<CostPosting>, orders: seq<TransportOrder>, ps: int, pe: int, i: nat)
    requires i < |centers|
    ensures var snaps := Snapshots(centers, postings, orders, ps, pe);
      && |snaps| == |centers|
      && (snaps[i].status == MISSING_ACTIVITY <==> snaps[i].totalUnits == 0.0)
      && RateRule(snaps[i])
  {
    SnapshotAt(centers, postings, orders, ps, pe, i);
    CenterSnapshotRate(centers[i], postings, orders, ps, pe);
  }

  /**
   * Breakdown `j` of a run belongs to order `j`; its total is the vehicle
   * plus the overhead allocation, its profit is revenue minus that total,
   * and an unassigned order or a run without overhead center allocates 0.
   */
  lemma BreakdownOfEachOrder(centers: seq<CostCenter>, postings: seq<CostPosting>, orders: seq<TransportOrder>, ps: int, pe: int, j: nat)
    requires j < |orders|
    ensures var bds := RunBreakdowns(centers, postings, orders, ps, pe);
      && |bds| == |orders|
      && bds[j].orderId == orders[j].id
      && bds[j].revenue == OrderRevenue(orders[j])
      && bds[j].totalCost == bds[j].vehicleAlloc + bds[j].overheadAlloc
      && bds[j].profit == bds[j].revenue - bds[j].totalCost
      && (orders[j].assignedVehicleId.None? ==> bds[j].vehicleAlloc == 0.0)
      && (FirstOverhead(centers).None? ==> bds[j].overheadAlloc == 0.0)
  {
    var snaps := Snapshots(centers, postings, orders, ps, pe);
    BreakdownAt(orders, VehicleCenters(centers), FirstOverhead(centers), RatesByCenter(snaps), j);
  }

  /** The summary counts the run's lists and its profit is revenue minus the breakdowns' cost. */
  lemma RunSummary(centers: seq<CostCenter>, postings: seq<CostPosting>, orders: seq<TransportOrder>,
                   company: CompanyId, ps: int, pe: int, env: Option<string>, now: int)
    ensures var r := CostsOf(centers, postings, orders, company, ps, pe, env, now);
      && r.summary.totalSnapshots == |centers| && r.summary.totalBreakdowns == |orders|
      && r.summary.totalProfit == r.summary.totalRevenue - BreakdownCostSum(r.breakdowns)
  {
    var snaps := Snapshots(centers, postings, orders, ps, pe);
    var vmap, overhead, rates := VehicleCenters(centers), FirstOverhead(centers), RatesByCenter(snaps);
    var bds := Breakdowns(orders, vmap, overhead, rates);
    SnapshotsLength(centers, postings, orders, ps, pe);
    BreakdownsLength(orders, vmap, overhead, rates);
    forall j | 0 <= j < |bds| ensures bds[j].profit == bds[j].revenue - bds[j].totalCost {
      BreakdownAt(orders, vmap, overhead, rates, j);
    }
    SummaryProfitLaw(snaps, bds);
  }

  lemma {:induction false} SnapshotCostsAreCenterCosts(cs: seq<CostCenter>, postings: seq<CostPosting>, orders: seq<TransportOrder>, ps: int, pe: int)
    ensures SnapshotCostSum(Snapshots(cs, postings, orders, ps, pe)) == SumOverCenters(postings, CenterIds(cs))
  {
    if cs != [] {
      var front := cs[..|cs| - 1];
      SnapshotCostsAreCenterCosts(front, postings, orders, ps, pe);
      assert CenterIds(cs)[..|cs| - 1] == CenterIds(front);
      var snaps := Snapshots(cs, postings, orders, ps, pe);
      assert snaps[..|snaps| - 1] == Snapshots(front, postings, orders, ps, pe);
    }
  }

  /**
   * Cost is conserved from postings to snapshots: when the cost centers have
   * distinct ids and include every center that has postings, the summary's
   * total cost is the sum of all posting amounts.
   */
  lemma SummaryCostIsPostingTotal(centers: seq<CostCenter>, postings: seq<CostPosting>, orders: seq<TransportOrder>,
                                  company: CompanyId, ps: int, pe: int, env: Option<string>, now: int)
    requires Distinct(CenterIds(centers))
    requires forall c :: c in PostingCenters(postings) ==> c in CenterIds(centers)
    ensures CostsOf(centers, postings, orders, company, ps, pe, env, now).summary.totalCost == TotalAmount(postings)
  {
    SnapshotCostsAreCenterCosts(centers, postings, orders, ps, pe);
    CenterCostsPartitionTotal(postings, CenterIds(centers));
  }

  /** With distinct ids, the rate table holds each snapshot's own rate. */
  lemma {:induction false} RatesAt(s: seq<Snapshot>, k: nat)
    requires k < |s|
    requires forall j :: 0 <= j < |s| && j != k ==> s[j].costCenterId != s[k].costCenterId
    ensures s[k].costCenterId in RatesByCenter(s) && RatesByCenter(s)[s[k].costCenterId] == s[k].rate
  {
    if k != |s| - 1 {
      RatesAt(s[..|s| - 1], k);
    }
  }

  /** The vehicle lookup maps `v` to the last VEHICLE center linked to it. */
  lemma {:induction false} VehicleCentersLast(cs: seq<CostCenter>, k: nat, v: Id)
    requires k < |cs| && cs[k].ctype == VEHICLE && cs[k].vehicleId == Some(v)
    requires forall j :: k < j < |cs| ==> !(cs[j].ctype == VEHICLE && cs[j].vehicleId == Some(v))
    ensures v in VehicleCenters(cs) && VehicleCenters(cs)[v] == cs[k]
  {
    if k != |cs| - 1 {
      VehicleCentersLast(cs[..|cs| - 1], k, v);
    }
  }

  lemma {:induction false} NoOverheads(cs: seq<CostCenter>)
    requires forall j :: 0 <= j < |cs| ==> cs[j].ctype != OVERHEAD
    ensures Overheads(cs) == []
  {
    if cs != [] {
      NoOverheads(cs[..|cs| - 1]);
    }
  }

  /** The first OVERHEAD center in query order is the one allocated. */
  lemma {:induction false} FirstOverheadAt(cs: seq<CostCenter>, k: nat)
    requires k < |cs| && cs[k].ctype == OVERHEAD
    requires forall j :: 0 <= j < k ==> cs[j].ctype != OVERHEAD
    ensures FirstOverhead(cs) == Some(cs[k])
  {
    var front := cs[..|cs| - 1];
    if k == |cs| - 1 {
      NoOverheads(front);
    } else {
      FirstOverheadAt(front, k);
    }
  }

  /** One step of distributing a rate over a sum. */
  lemma ScaleStep(rate: real, before: real, d: real, total: real, alloc: real, x: real)
    requires alloc == rate * before && x == d * rate && total == before + d
    ensures alloc + x == rate * total
  {
  }

  /** Every order of vehicle `v` is charged its distance times `rate`. */
  predicate VehicleCharged(orders: seq<TransportOrder>, bds: seq<Breakdown>, v: Id, rate: real)
    requires |orders| == |bds|
  {
    forall j :: 0 <= j < |orders| && orders[j].assignedVehicleId == Some(v) ==> bds[j].vehicleAlloc == Distance(orders[j]) * rate
  }

  /** Every order is charged its revenue times `rate`. */
  predicate OverheadCharged(orders: seq<TransportOrder>, bds: seq<Breakdown>, rate: real)
    requires |orders| == |bds|
  {
    forall j :: 0 <= j < |orders| ==> bds[j].overheadAlloc == OrderRevenue(orders[j]) * rate
  }

  lemma VehicleChargedPrefix(orders: seq<TransportOrder>, bds: seq<Breakdown>, v: Id, rate: real, n: nat)
    requires |orders| == |bds| && n <= |orders| && VehicleCharged(orders, bds, v, rate)
    ensures VehicleCharged(orders[..n], bds[..n], v, rate)
  {
    forall j | 0 <= j < n && orders[..n][j].assignedVehicleId == Some(v)
      ensures bds[..n][j].vehicleAlloc == Distance(orders[..n][j]) * rate
    {
      assert orders[..n][j] == orders[j] && bds[..n][j] == bds[j];
    }
  }

  lemma OverheadChargedPrefix(orders: seq<TransportOrder>, bds: seq<Breakdown>, rate: real, n: nat)
    requires |orders| == |bds| && n <= |orders| && OverheadCharged(orders, bds, rate)
    ensures OverheadCharged(orders[..n], bds[..n], rate)
  {
    forall j | 0 <= j < n ensures bds[..n][j].overheadAlloc == OrderRevenue(orders[..n][j]) * rate {
      assert orders[..n][j] == orders[j] && bds[..n][j] == bds[j];
    }
  }

  /** Orders of `v` each charged distance times `rate` add up to `rate` times v's distance. */
  lemma {:induction false} AllocProportional(orders: seq<TransportOrder>, bds: seq<Breakdown>, v: Id, rate: real, km: real)
    requires |orders| == |bds| && VehicleSum(orders, v, Distance) == km
    requires VehicleCharged(orders, bds, v, rate)
    ensures AllocatedToVehicle(orders, bds, v) == rate * km
  {
    if orders != [] {
      var n := |orders| - 1;
      var os, bs := orders[..n], bds[..n];
      VehicleChargedPrefix(orders, bds, v, rate, n);
      var before, alloc := VehicleSum(os, v, Distance), AllocatedToVehicle(os, bs, v);
      AllocProportional(os, bs, v, rate, before);
      var d := if orders[n].assignedVehicleId == Some(v) then Distance(orders[n]) else 0.0;
      var x := if orders[n].assignedVehicleId == Some(v) then bds[n].vehicleAlloc else 0.0;
      assert x == d * rate;
      ScaleStep(rate, before, d, km, alloc, x);
    }
  }

  /** Orders each charged revenue times `rate` add up to `rate` times the total revenue. */
  lemma {:induction false} OverheadProportional(orders: seq<TransportOrder>, bds: seq<Breakdown>, rate: real, revenue: real)
    requires |orders| == |bds| && Total(orders, OrderRevenue) == revenue
    requires OverheadCharged(orders, bds, rate)
    ensures OverheadAllocated(bds) == rate * revenue
  {
    if orders != [] {
      var n := |orders| - 1;
      var os, bs := orders[..n], bds[..n];
      OverheadChargedPrefix(orders, bds, rate, n);
      var before := Total(os, OrderRevenue);
      OverheadProportional(os, bs, rate, before);
      var d, alloc, x := OrderRevenue(orders[n]), OverheadAllocated(bs), bds[n].overheadAlloc;
      assert x == d * rate;
      ScaleStep(rate, before, d, revenue, alloc, x);
    }
  }

  /** With distinct cost center ids the rate table holds snapshot `k`'s rate under center `k`'s id. */
  lemma RateOfCenter(centers: seq<CostCenter>, postings: seq<CostPosting>, orders: seq<TransportOrder>, ps: int, pe: int, k: nat)
    requires Distinct(CenterIds(centers))
    requires k < |centers|
    ensures var snaps := Snapshots(centers, postings, orders, ps, pe);
      |snaps| == |centers| && GetOrZero(RatesByCenter(snaps), centers[k].id) == snaps[k].rate
  {
    var snaps := Snapshots(centers, postings, orders, ps, pe);
    SnapshotIds(centers, postings, orders, ps, pe);
    forall j | 0 <= j < |snaps| && j != k ensures snaps[j].costCenterId != snaps[k].costCenterId {
      assert CenterIds(centers)[j] == centers[j].id && CenterIds(centers)[k] == centers[k].id;
    }
    RatesAt(snaps, k);
  }

  /** The allocations of one order's breakdown. */
  lemma OrderAllocs(o: TransportOrder, vmap: map<Id, CostCenter>, overhead: Option<CostCenter>, rates: map<Id, real>)
    ensures OrderBreakdown(o, vmap, overhead, rates).vehicleAlloc == VehicleCost(o, vmap, rates)
    ensures OrderBreakdown(o, vmap, overhead, rates).overheadAlloc == OverheadCost(o, overhead, rates)
  {
  }

  lemma VehicleCostOf(o: TransportOrder, vmap: map<Id, CostCenter>, rates: map<Id, real>, v: Id, rate: real)
    requires o.assignedVehicleId == Some(v) && v in vmap && GetOrZero(rates, vmap[v].id) == rate
    ensures VehicleCost(o, vmap, rates) == Distance(o) * rate
  {
  }

  lemma OverheadCostOf(o: TransportOrder, c: CostCenter, rates: map<Id, real>, rate: real)
    requires GetOrZero(rates, c.id) == rate
    ensures OverheadCost(o, Some(c), rates) == OrderRevenue(o) * rate
  {
  }

  /** Each of vehicle `v`'s orders is charged its distance times the rate of v's center. */
  lemma VehicleAllocsPerOrder(orders: seq<TransportOrder>, vmap: map<Id, CostCenter>, overhead: Option<CostCenter>, rates: map<Id, real>, v: Id, rate: real)
    requires v in vmap && GetOrZero(rates, vmap[v].id) == rate
    ensures var bds := Breakdowns(orders, vmap, overhead, rates);
      && |bds| == |orders|
      && VehicleCharged(orders, bds, v, rate)
  {
    var bds := Breakdowns(orders, vmap, overhead, rates);
    BreakdownsLength(orders, vmap, overhead, rates);
    forall j | 0 <= j < |orders| && orders[j].assignedVehicleId == Some(v)
      ensures bds[j].vehicleAlloc == Distance(orders[j]) * rate
    {
      VehicleAllocAt(orders, vmap, overhead, rates, v, rate, j);
    }
  }

  /** Order `j`, on vehicle `v`, is charged its distance times the rate of v's center. */
  lemma VehicleAllocAt(orders: seq<TransportOrder>, vmap: map<Id, CostCenter>, overhead: Option<CostCenter>, rates: map<Id, real>,
                       v: Id, rate: real, j: nat)
    requires v in vmap && GetOrZero(rates, vmap[v].id) == rate
    requires j < |orders| && orders[j].assignedVehicleId == Some(v)
    ensures |Breakdowns(orders, vmap, overhead, rates)| == |orders|
    ensures Breakdowns(orders, vmap, overhead, rates)[j].vehicleAlloc == Distance(orders[j]) * rate
  {
    var o := orders[j];
    assert OrderBreakdown(o, vmap, overhead, rates).vehicleAlloc == Distance(o) * rate by {
      OrderAllocs(o, vmap, overhead, rates);
      VehicleCostOf(o, vmap, rates, v, rate);
    }
    BreakdownAt(orders, vmap, overhead, rates, j);
  }

  /** Vehicle `v`'s orders are charged its center's rate per km. */
  lemma VehicleAllocsSum(orders: seq<TransportOrder>, vmap: map<Id, CostCenter>, overhead: Option<CostCenter>, rates: map<Id, real>, v: Id, rate: real, km: real)
    requires v in vmap && GetOrZero(rates, vmap[v].id) == rate && VehicleSum(orders, v, Distance) == km
    ensures var bds := Breakdowns(orders, vmap, overhead, rates);
      |bds| == |orders| && AllocatedToVehicle(orders, bds, v) == rate * km
  {
    VehicleAllocsPerOrder(orders, vmap, overhead, rates, v, rate);
    AllocProportional(orders, Breakdowns(orders, vmap, overhead, rates), v, rate, km);
  }

  /** Every order is charged its revenue times the overhead center's rate. */
  lemma OverheadAllocsPerOrder(orders: seq<TransportOrder>, vmap: map<Id, CostCenter>, c: CostCenter, rates: map<Id, real>, rate: real)
    requires GetOrZero(rates, c.id) == rate
    ensures var bds := Breakdowns(orders, vmap, Some(c), rates);
      && |bds| == |orders|
      && OverheadCharged(orders, bds, rate)
  {
    var bds := Breakdowns(orders, vmap, Some(c), rates);
    BreakdownsLength(orders, vmap, Some(c), rates);
    forall j | 0 <= j < |orders| ensures bds[j].overheadAlloc == OrderRevenue(orders[j]) * rate {
      OverheadAllocAt(orders, vmap, c, rates, rate, j);
    }
  }

  /** Order `j` is charged its revenue times the overhead center's rate. */
  lemma OverheadAllocAt(orders: seq<TransportOrder>, vmap: map<Id, CostCenter>, c: CostCenter, rates: map<Id, real>, rate: real, j: nat)
    requires GetOrZero(rates, c.id) == rate && j < |orders|
    ensures |Breakdowns(orders, vmap, Some(c), rates)| == |orders|
    ensures Breakdowns(orders, vmap, Some(c), rates)[j].overheadAlloc == OrderRevenue(orders[j]) * rate
  {
    var o := orders[j];
    assert OrderBreakdown(o, vmap, Some(c), rates).overheadAlloc == OrderRevenue(o) * rate by {
      OrderAllocs(o, vmap, Some(c), rates);
      OverheadCostOf(o, c, rates, rate);
    }
    BreakdownAt(orders, vmap, Some(c), rates, j);
  }

  /** Every order is charged the overhead center's rate per unit of revenue. */
  lemma OverheadAllocsSum(orders: seq<TransportOrder>, vmap: map<Id, CostCenter>, c: CostCenter, rates: map<Id, real>, rate: real, revenue: real)
    requires GetOrZero(rates, c.id) == rate && Total(orders, OrderRevenue) == revenue
    ensures OverheadAllocated(Breakdowns(orders, vmap, Some(c), rates)) == rate * revenue
  {
    OverheadAllocsPerOrder(orders, vmap, c, rates, rate);
    OverheadProportional(orders, Breakdowns(orders, vmap, Some(c), rates), rate, revenue);
  }

  /** The facts about snapshot `k` that the rate of center `k` rests on. */
  lemma AppliedRateFacts(centers: seq<CostCenter>, postings: seq<CostPosting>, orders: seq<TransportOrder>, ps: int, pe: int, k: nat)
    requires Distinct(CenterIds(centers))
    requires k < |centers|
    ensures var snaps := Snapshots(centers, postings, orders, ps, pe);
      && |snaps| == |centers| && RateRule(snaps[k])
      && snaps[k].totalUnits == CenterBasis(centers[k], orders).1
      && snaps[k].totalCost == CenterCost(postings, centers[k].id)
      && GetOrZero(RatesByCenter(snaps), centers[k].id) == snaps[k].rate
  {
    SnapshotAt(centers, postings, orders, ps, pe, k);
    CenterSnapshotLaw(centers[k], postings, orders, ps, pe);
    CenterSnapshotRate(centers[k], postings, orders, ps, pe);
    RateOfCenter(centers, postings, orders, ps, pe, k);
  }

  /** A snapshot that keeps the rate rule spreads its cost over its activity. */
  lemma SnapshotRateSpreadsCost(snaps: seq<Snapshot>, k: nat, rate: real, units: real, cost: real)
    requires k < |snaps| && RateRule(snaps[k]) && snaps[k].rate == rate
    requires snaps[k].totalUnits == units && snaps[k].totalCost == cost && units != 0.0
    ensures rate * units == cost
  {
    RateSpreadsCost(snaps[k], rate, units, cost);
  }

  /** Vehicle `v`'s allocations add up to the cost of the snapshot whose rate its center is charged. */
  lemma VehicleCostSpread(orders: seq<TransportOrder>, vmap: map<Id, CostCenter>, overhead: Option<CostCenter>, snaps: seq<Snapshot>, k: nat, v: Id, cost: real)
    requires v in vmap && k < |snaps| && RateRule(snaps[k])
    requires GetOrZero(RatesByCenter(snaps), vmap[v].id) == snaps[k].rate
    requires snaps[k].totalUnits == VehicleSum(orders, v, Distance) && snaps[k].totalCost == cost
    requires VehicleSum(orders, v, Distance) != 0.0
    ensures var bds := Breakdowns(orders, vmap, overhead, RatesByCenter(snaps));
      |bds| == |orders| && AllocatedToVehicle(orders, bds, v) == cost
  {
    var rate, km := snaps[k].rate, VehicleSum(orders, v, Distance);
    VehicleAllocsSum(orders, vmap, overhead, RatesByCenter(snaps), v, rate, km);
    SnapshotRateSpreadsCost(snaps, k, rate, km, cost);
  }

  /** The overhead allocations add up to the cost of the snapshot whose rate the overhead center is charged. */
  lemma OverheadCostSpread(orders: seq<TransportOrder>, vmap: map<Id, CostCenter>, c: CostCenter, snaps: seq<Snapshot>, k: nat, cost: real)
    requires k < |snaps| && RateRule(snaps[k])
    requires GetOrZero(RatesByCenter(snaps), c.id) == snaps[k].rate
    requires snaps[k].totalUnits == Total(orders, OrderRevenue) && snaps[k].totalCost == cost
    requires Total(orders, OrderRevenue) != 0.0
    ensures OverheadAllocated(Breakdowns(orders, vmap, Some(c), RatesByCenter(snaps))) == cost
  {
    var rate, revenue := snaps[k].rate, Total(orders, OrderRevenue);
    OverheadAllocsSum(orders, vmap, c, RatesByCenter(snaps), rate, revenue);
    SnapshotRateSpreadsCost(snaps, k, rate, revenue, cost);
  }

  /**
   * Conservation of vehicle cost: for a vehicle `v` with non-zero distance
   * whose last VEHICLE center is `centers[k]`, the vehicle allocations of
   * v's orders add up to exactly that center's cost.
   */
  lemma VehicleCostConserved(centers: seq<CostCenter>, postings: seq<CostPosting>, orders: seq<TransportOrder>, ps: int, pe: int, k: nat, v: Id)
    requires Distinct(CenterIds(centers))
    requires k < |centers| && centers[k].ctype == VEHICLE && centers[k].vehicleId == Some(v)
    requires forall j :: k < j < |centers| ==> !(centers[j].ctype == VEHICLE && centers[j].vehicleId == Some(v))
    requires VehicleSum(orders, v, Distance) != 0.0
    ensures var bds := RunBreakdowns(centers, postings, orders, ps, pe);
      |bds| == |orders| && AllocatedToVehicle(orders, bds, v) == CenterCost(postings, centers[k].id)
  {
    VehicleCentersLast(centers, k, v);
    AppliedRateFacts(centers, postings, orders, ps, pe, k);
    VehicleCostSpread(orders, VehicleCenters(centers), FirstOverhead(centers), Snapshots(centers, postings, orders, ps, pe), k, v, CenterCost(postings, centers[k].id));
  }

  /**
   * Conservation of overhead cost: when total revenue is non-zero and
   * `centers[k]` is the first OVERHEAD center, the overhead allocations of
   * all orders add up to exactly that center's cost.
   */
  lemma OverheadCostConserved(centers: seq<CostCenter>, postings: seq<CostPosting>, orders: seq<TransportOrder>, ps: int, pe: int, k: nat)
    requires Distinct(CenterIds(centers))
    requires k < |centers| && centers[k].ctype == OVERHEAD
    requires forall j :: 0 <= j < k ==> centers[j].ctype != OVERHEAD
    requires Total(orders, OrderRevenue) != 0.0
    ensures OverheadAllocated(RunBreakdowns(centers, postings, orders, ps, pe)) == CenterCost(postings, centers[k].id)
  {
    FirstOverheadAt(centers, k);
    AppliedRateFacts(centers, postings, orders, ps, pe, k);
    OverheadCostSpread(orders, VehicleCenters(centers), centers[k], Snapshots(centers, postings, orders, ps, pe), k, CenterCost(postings, centers[k].id));
  }

  /** Outside any tenant scope a run sees no data: empty lists and an all-zero summary. */
  lemma NoTenantNoCosts(centerTable: seq<CostCenter>, postingTable: seq<CostPosting>, orderTable: seq<TransportOrder>,
                        company: CompanyId, ps: int, pe: int, env: Option<string>, now: int)
    ensures var r := CompanyCosts(None, centerTable, postingTable, orderTable, company, ps, pe, env, now);
      r.snapshots == [] && r.breakdowns == [] && r.summary == Summary(0, 0, 0.0, 0.0, 0.0, 0.0)
  {
  }
}
