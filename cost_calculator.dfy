/**
 * `calculate_company_costs`: the cost engine run. It reads the cost centers,
 * postings and orders visible in the current tenant scope, turns each cost
 * center into a snapshot with a rate per unit of activity, and allocates the
 * vehicle and overhead rates onto each order.
 */
module CostCalculator {
  import opened Wrappers
  import opened Text
  import opened Values
  import opened Tenant
  import opened CostEntities
  import opened CostQueries
  import opened CostAggregations
  import opened CostSnapshots

  /**
   * `_normalize_basis_unit`: the upper-cased text if it is a valid basis
   * unit, otherwise KM (also for a missing or empty value, and for all
   * non-string values, whose text form is never a basis unit name).
   */
  function NormalizeBasisUnit(v: RawValue): (r: string)
    ensures ValidBasisUnit(r)
    ensures v.VStr? && ValidBasisUnit(Upper(v.s)) ==> r == Upper(v.s)
    ensures !(v.VStr? && ValidBasisUnit(Upper(v.s))) ==> r == KM
  {
    var bu := if v.VStr? && v.s != [] then Upper(v.s) else KM;
    if ValidBasisUnit(bu) then bu else KM
  }

  /** A valid basis unit is kept as it is. */
  lemma NormalizeBasisUnitKeepsValid(b: string)
    requires ValidBasisUnit(b)
    ensures NormalizeBasisUnit(VStr(b)) == b
  {
    UpperFixed(b);
  }

  /** Normalising a normalised basis unit changes nothing. */
  lemma NormalizeBasisUnitIdempotent(v: RawValue)
    ensures NormalizeBasisUnit(VStr(NormalizeBasisUnit(v))) == NormalizeBasisUnit(v)
  {
    NormalizeBasisUnitKeepsValid(NormalizeBasisUnit(v));
  }

  /**
   * `_normalize_snapshot`: a valid basis unit, the status defaulting to OK,
   * and MISSING_ACTIVITY whenever the units are 0 on an activity basis.
   */
  function NormalizeSnapshot(s: Snapshot): (r: Snapshot)
    ensures ValidBasisUnit(r.basisUnit)
    ensures r.totalUnits == 0.0 && ActivityBasis(r.basisUnit) ==> r.status == MISSING_ACTIVITY
    ensures !(r.totalUnits == 0.0 && ActivityBasis(r.basisUnit)) ==> r.status == (if s.status != [] then s.status else OK)
    ensures r == s.(basisUnit := r.basisUnit, status := r.status)
  {
    var basis := NormalizeBasisUnit(VStr(s.basisUnit));
    var status := if s.status != [] then s.status else OK;
    var status' := if s.totalUnits == 0.0 && ActivityBasis(basis) then MISSING_ACTIVITY else status;
    s.(basisUnit := basis, status := status')
  }

  /** Normalising twice is normalising once. */
  lemma NormalizeSnapshotIdempotent(s: Snapshot)
    ensures NormalizeSnapshot(NormalizeSnapshot(s)) == NormalizeSnapshot(s)
  {
    var r := NormalizeSnapshot(s);
    NormalizeBasisUnitKeepsValid(r.basisUnit);
  }

  /** A snapshot built on the KM or REVENUE basis is already normal. */
  lemma BuiltSnapshotIsNormal(c: CostCenter, totalCost: real, totalUnits: real, basisUnit: string, ps: int, pe: int)
    requires basisUnit == KM || basisUnit == REVENUE
    ensures var s := BuildCostCenterSnapshot(c, totalCost, totalUnits, basisUnit, ps, pe);
            NormalizeSnapshot(s) == s
  {
    NormalizeBasisUnitKeepsValid(basisUnit);
  }

  /** The basis unit and activity measured for a cost center. */
  function CenterBasis(c: CostCenter, orders: seq<TransportOrder>): (string, real) {
    if c.ctype == OVERHEAD then (REVENUE, Total(orders, OrderRevenue))
    else if c.vehicleId.Some? then (KM, VehicleSum(orders, c.vehicleId.value, Distance))
    else (KM, Total(orders, Distance))
  }

  /** The normalised snapshot of one cost center. */
  function CenterSnapshot(c: CostCenter, postings: seq<CostPosting>, orders: seq<TransportOrder>, ps: int, pe: int): Snapshot {
    var (basis, units) := CenterBasis(c, orders);
    NormalizeSnapshot(BuildCostCenterSnapshot(c, CenterCost(postings, c.id), units, basis, ps, pe))
  }

  function Snapshots(centers: seq<CostCenter>, postings: seq<CostPosting>, orders: seq<TransportOrder>, ps: int, pe: int): seq<Snapshot> {
    if centers == [] then []
    else Snapshots(centers[..|centers| - 1], postings, orders, ps, pe) + [CenterSnapshot(centers[|centers| - 1], postings, orders, ps, pe)]
  }

  /** `vehicle_center_by_vehicle_id`: a later VEHICLE center for the same vehicle replaces an earlier one. */
  function VehicleCenters(cs: seq<CostCenter>): map<Id, CostCenter> {
    if cs == [] then map[]
    else
      var m := VehicleCenters(cs[..|cs| - 1]);
      var c := cs[|cs| - 1];
      if c.ctype == VEHICLE && c.vehicleId.Some? then m[c.vehicleId.value := c] else m
  }

  /** `overhead_centers`, in query order. */
  function Overheads(cs: seq<CostCenter>): (r: seq<CostCenter>)
    ensures forall x :: x in r <==> x in cs && x.ctype == OVERHEAD
  {
    if cs == [] then []
    else Overheads(cs[..|cs| - 1]) + (if cs[|cs| - 1].ctype == OVERHEAD then [cs[|cs| - 1]] else [])
  }

  function FirstOverhead(cs: seq<CostCenter>): Option<CostCenter> {
    var o := Overheads(cs);
    if o != [] then Some(o[0]) else None
  }

  /** `rates_by_center`: the rate of the last snapshot of each cost center. */
  function RatesByCenter(s: seq<Snapshot>): map<Id, real> {
    if s == [] then map[] else RatesByCenter(s[..|s| - 1])[s[|s| - 1].costCenterId := s[|s| - 1].rate]
  }

  /**
   * The breakdown of one order: its distance times the rate of the vehicle
   * center of its vehicle, and its revenue times the rate of the overhead
   * center.
   */
  function OrderBreakdown(o: TransportOrder, vmap: map<Id, CostCenter>, overhead: Option<CostCenter>, rates: map<Id, real>): Breakdown {
    BuildOrderBreakdown(o, VehicleCost(o, vmap, rates), OverheadCost(o, overhead, rates), OrderRevenue(o))
  }

  function VehicleCost(o: TransportOrder, vmap: map<Id, CostCenter>, rates: map<Id, real>): real {
    if o.assignedVehicleId.Some? && o.assignedVehicleId.value in vmap
    then Distance(o) * GetOrZero(rates, vmap[o.assignedVehicleId.value].id)
    else 0.0
  }

  function OverheadCost(o: TransportOrder, overhead: Option<CostCenter>, rates: map<Id, real>): real {
    if overhead.Some? then OrderRevenue(o) * GetOrZero(rates, overhead.value.id) else 0.0
  }

  function Breakdowns(orders: seq<TransportOrder>, vmap: map<Id, CostCenter>, overhead: Option<CostCenter>, rates: map<Id, real>): seq<Breakdown> {
    if orders == [] then []
    else Breakdowns(orders[..|orders| - 1], vmap, overhead, rates) + [OrderBreakdown(orders[|orders| - 1], vmap, overhead, rates)]
  }

  /** The `meta` block of a run. */
  datatype Meta = Meta(schemaVersion: int, engineVersion: string, companyId: CompanyId, periodStart: int, periodEnd: int, generatedAt: int)

  datatype CostResult = CostResult(meta: Meta, snapshots: seq<Snapshot>, breakdowns: seq<Breakdown>, summary: Summary)

  /** `_engine_version`: the `ENGINE_VERSION` setting when non-empty, else "dev". */
  function EngineVersion(env: Option<string>): (r: string)
    ensures env.Some? && env.value != [] ==> r == env.value
    ensures !(env.Some? && env.value != []) ==> r == "dev"
  {
    if env.Some? && env.value != [] then env.value else "dev"
  }

  /** The breakdowns of a run: the rates of the run's snapshots applied to each order. */
  function RunBreakdowns(centers: seq<CostCenter>, postings: seq<CostPosting>, orders: seq<TransportOrder>, ps: int, pe: int): seq<Breakdown> {
    Breakdowns(orders, VehicleCenters(centers), FirstOverhead(centers), RatesByCenter(Snapshots(centers, postings, orders, ps, pe)))
  }

  /** A run over the already fetched cost centers, postings and orders. */
  function CostsOf(centers: seq<CostCenter>, postings: seq<CostPosting>, orders: seq<TransportOrder>,
                   company: CompanyId, ps: int, pe: int, env: Option<string>, now: int): CostResult
  {
    var snaps := Snapshots(centers, postings, orders, ps, pe);
    var bds := RunBreakdowns(centers, postings, orders, ps, pe);
    CostResult(Meta(1, EngineVersion(env), company, ps, pe, now), snaps, bds, FormatCalculationSummary(snaps, bds))
  }

  /**
   * The run as the source performs it: every read goes through the scoped
   * manager, so `current` (the tenant slot) decides what is visible; the
   * `company` argument only fills `meta.company_id`.
   */
  function CompanyCosts(current: Option<CompanyId>, centerTable: seq<CostCenter>, postingTable: seq<CostPosting>,
                        orderTable: seq<TransportOrder>, company: CompanyId, ps: int, pe: int,
                        env: Option<string>, now: int): CostResult
  {
    CostsOf(ScopedFilter(centerTable, CenterOwner, current), FetchCostPostings(current, postingTable, ps, pe),
            FetchTransportOrders(current, orderTable, ps, pe), company, ps, pe, env, now)
  }

  /** Step 0 of the run: the vehicle-center lookup and the overhead centers, in one pass. */
  method CenterLookups(centers: seq<CostCenter>) returns (vehicleCenterByVehicle: map<Id, CostCenter>, overheadCenters: seq<CostCenter>)
    ensures vehicleCenterByVehicle == VehicleCenters(centers)
    ensures overheadCenters == Overheads(centers)
  {
    vehicleCenterByVehicle, overheadCenters := map[], [];
    var i := 0;
    while i < |centers|
      invariant 0 <= i <= |centers|
      invariant vehicleCenterByVehicle == VehicleCenters(centers[..i])
      invariant overheadCenters == Overheads(centers[..i])
    {
      var cc := centers[i];
      assert centers[..i + 1][..i] == centers[..i];
      if cc.ctype == VEHICLE && cc.vehicleId.Some? {
        vehicleCenterByVehicle := vehicleCenterByVehicle[cc.vehicleId.value := cc];
      }
      if cc.ctype == OVERHEAD {
        overheadCenters := overheadCenters + [cc];
      }
      i := i + 1;
    }
    assert centers[..i] == centers;
  }

  /** The body of step 4 for one cost center: its cost, its basis and units, and the normalised snapshot. */
  method SnapshotOfCenter(cc: CostCenter, postings: seq<CostPosting>, orders: seq<TransportOrder>, ps: int, pe: int,
                          costByCenter: map<Id, real>, totalKm: real, totalRevenue: real, kmByVehicle: map<Id, real>)
    returns (snapshot: Snapshot)
    requires costByCenter.Keys == PostingCenters(postings)
    requires forall c :: c in costByCenter ==> costByCenter[c] == CenterCost(postings, c)
    requires totalKm == Total(orders, Distance) && totalRevenue == Total(orders, OrderRevenue)
    requires kmByVehicle.Keys == AssignedVehicles(orders)
    requires forall v :: v in kmByVehicle ==> kmByVehicle[v] == VehicleSum(orders, v, Distance)
    ensures snapshot == CenterSnapshot(cc, postings, orders, ps, pe)
  {
    AggregateLookupIsCenterCost(postings, costByCenter, cc.id);
    var totalCost := GetOrZero(costByCenter, cc.id);
    var basisUnit: string, units: real;
    if cc.ctype == OVERHEAD {
      basisUnit, units := REVENUE, totalRevenue;
    } else {
      basisUnit := KM;
      if cc.vehicleId.Some? {
        if cc.vehicleId.value !in kmByVehicle {
          VehicleSumOutside(orders, cc.vehicleId.value, Distance);
        }
        units := GetOrZero(kmByVehicle, cc.vehicleId.value);
      } else {
        units := totalKm;
      }
    }
    assert (basisUnit, units) == CenterBasis(cc, orders);
    snapshot := NormalizeSnapshot(BuildCostCenterSnapshot(cc, totalCost, units, basisUnit, ps, pe));
  }

  /** Step 4: one snapshot per cost center, from the aggregated costs and activity. */
  method BuildSnapshots(centers: seq<CostCenter>, postings: seq<CostPosting>, orders: seq<TransportOrder>, ps: int, pe: int,
                        costByCenter: map<Id, real>, totalKm: real, totalRevenue: real, kmByVehicle: map<Id, real>)
    returns (snapshots: seq<Snapshot>)
    requires costByCenter.Keys == PostingCenters(postings)
    requires forall c :: c in costByCenter ==> costByCenter[c] == CenterCost(postings, c)
    requires totalKm == Total(orders, Distance) && totalRevenue == Total(orders, OrderRevenue)
    requires kmByVehicle.Keys == AssignedVehicles(orders)
    requires forall v :: v in kmByVehicle ==> kmByVehicle[v] == VehicleSum(orders, v, Distance)
    ensures snapshots == Snapshots(centers, postings, orders, ps, pe)
  {
    snapshots := [];
    var i := 0;
    while i < |centers|
      invariant 0 <= i <= |centers|
      invariant snapshots == Snapshots(centers[..i], postings, orders, ps, pe)
    {
      assert centers[..i + 1][..i] == centers[..i];
      var snapshot := SnapshotOfCenter(centers[i], postings, orders, ps, pe, costByCenter, totalKm, totalRevenue, kmByVehicle);
      snapshots := snapshots + [snapshot];
      i := i + 1;
    }
    assert centers[..i] == centers;
  }

  /** `rates_by_center`, built in one pass over the snapshots. */
  method BuildRates(snapshots: seq<Snapshot>) returns (ratesByCenter: map<Id, real>)
    ensures ratesByCenter == RatesByCenter(snapshots)
  {
    ratesByCenter := map[];
    var i := 0;
    while i < |snapshots|
      invariant 0 <= i <= |snapshots|
      invariant ratesByCenter == RatesByCenter(snapshots[..i])
    {
      assert snapshots[..i + 1][..i] == snapshots[..i];
      ratesByCenter := ratesByCenter[snapshots[i].costCenterId := snapshots[i].rate];
      i := i + 1;
    }
    assert snapshots[..i] == snapshots;
  }

  /** Step 5, for one order: revenue, vehicle cost, overhead cost and the breakdown built from them. */
  method BreakdownOfOrder(order: TransportOrder, vehicleCenterByVehicle: map<Id, CostCenter>,
                          overheadCenter: Option<CostCenter>, ratesByCenter: map<Id, real>)
    returns (breakdown: Breakdown)
    ensures breakdown == OrderBreakdown(order, vehicleCenterByVehicle, overheadCenter, ratesByCenter)
  {
    var revenue := 0.0;
    if order.revenue.Some? && order.revenue.value != 0.0 {
      revenue := order.revenue.value;
    } else if order.agreedPrice.Some? && order.agreedPrice.value != 0.0 {
      revenue := order.agreedPrice.value;
    }
    var distance := if order.distanceKm.Some? then order.distanceKm.value else 0.0;
    var vehicleCost := 0.0;
    if order.assignedVehicleId.Some? {
      if order.assignedVehicleId.value in vehicleCenterByVehicle {
        var vehicleCenter := vehicleCenterByVehicle[order.assignedVehicleId.value];
        vehicleCost := distance * GetOrZero(ratesByCenter, vehicleCenter.id);
      }
    }
    var overheadCost := 0.0;
    if overheadCenter.Some? {
      overheadCost := revenue * GetOrZero(ratesByCenter, overheadCenter.value.id);
    }
    assert revenue == OrderRevenue(order);
    assert vehicleCost == VehicleCost(order, vehicleCenterByVehicle, ratesByCenter);
    assert overheadCost == OverheadCost(order, overheadCenter, ratesByCenter);
    breakdown := BuildOrderBreakdown(order, vehicleCost, overheadCost, revenue);
  }

  /** Step 5: one breakdown per order. */
  method BuildBreakdowns(orders: seq<TransportOrder>, vehicleCenterByVehicle: map<Id, CostCenter>,
                         overheadCenter: Option<CostCenter>, ratesByCenter: map<Id, real>)
    returns (breakdowns: seq<Breakdown>)
    ensures breakdowns == Breakdowns(orders, vehicleCenterByVehicle, overheadCenter, ratesByCenter)
  {
    breakdowns := [];
    var i := 0;
    while i < |orders|
      invariant 0 <= i <= |orders|
      invariant breakdowns == Breakdowns(orders[..i], vehicleCenterByVehicle, overheadCenter, ratesByCenter)
    {
      assert orders[..i + 1][..i] == orders[..i];
      var breakdown := BreakdownOfOrder(orders[i], vehicleCenterByVehicle, overheadCenter, ratesByCenter);
      breakdowns := breakdowns + [breakdown];
      i := i + 1;
    }
    assert orders[..i] == orders;
  }

  /**
   * `calculate_company_costs`: lookups of vehicle and overhead centers,
   * activity and cost aggregation, one snapshot per cost center, the rate
   * table, one breakdown per order and the summary.
   */
  method CalculateCompanyCosts(current: Option<CompanyId>, centerTable: seq<CostCenter>, postingTable: seq<CostPosting>,
                               orderTable: seq<TransportOrder>, company: CompanyId, ps: int, pe: int,
                               env: Option<string>, now: int)
    returns (result: CostResult)
    ensures result == CompanyCosts(current, centerTable, postingTable, orderTable, company, ps, pe, env, now)
  {
    var centers := ScopedFilter(centerTable, CenterOwner, current);
    var vehicleCenterByVehicle, overheadCenters := CenterLookups(centers);
    var overheadCenter := if overheadCenters != [] then Some(overheadCenters[0]) else None;

    var postings := FetchCostPostings(current, postingTable, ps, pe);
    var orders := FetchTransportOrders(current, orderTable, ps, pe);
    var totalKm, totalRevenue, kmByVehicle, revenueByVehicle := GetOrderActivity(orders);
    var costByCenter := AggregatePostingsByCostCenter(postings);

    var snapshots := BuildSnapshots(centers, postings, orders, ps, pe, costByCenter, totalKm, totalRevenue, kmByVehicle);
    var ratesByCenter := BuildRates(snapshots);
    var breakdowns := BuildBreakdowns(orders, vehicleCenterByVehicle, overheadCenter, ratesByCenter);

    var summary := FormatCalculationSummary(snapshots, breakdowns);
    var meta := Meta(1, EngineVersion(env), company, ps, pe, now);
    result := CostResult(meta, snapshots, breakdowns, summary);
  }
}
