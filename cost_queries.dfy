/**
 * Data fetching for the cost engine: postings overlapping a period, orders
 * dated inside it (both read through the scoped manager, so the slot's
 * company decides what is visible), and the activity totals of a list of
 * orders.
 */
module CostQueries {
  import opened Wrappers
  import opened Tenant
  import opened CostEntities

  /** The interval `[start, end]` of a record meets the period `[ps, pe]`. */
  predicate PostingOverlaps(p: CostPosting, ps: int, pe: int) {
    p.periodStart <= pe && p.periodEnd >= ps
  }

  function OverlapFilter(rows: seq<CostPosting>, ps: int, pe: int): (r: seq<CostPosting>)
    ensures forall x :: x in r <==> x in rows && PostingOverlaps(x, ps, pe)
    ensures multiset(r) <= multiset(rows)
  {
    if rows == [] then []
    else
      var rest := OverlapFilter(rows[1..], ps, pe);
      assert rows == [rows[0]] + rows[1..];
      if PostingOverlaps(rows[0], ps, pe) then [rows[0]] + rest else rest
  }

  /**
   * `fetch_cost_postings`: the scoped postings whose period overlaps
   * `[ps, pe]`; the company argument of the source is not used by it.
   */
  function FetchCostPostings(current: Option<CompanyId>, table: seq<CostPosting>, ps: int, pe: int): (r: seq<CostPosting>)
    ensures forall x :: x in r <==> x in table && current == Some(x.company) && x.periodStart <= pe && x.periodEnd >= ps
    ensures multiset(r) <= multiset(table)
  {
    ScopedSubMultiset(table, PostingOwner, current);
    OverlapFilter(ScopedFilter(table, PostingOwner, current), ps, pe)
  }

  function DateFilter(rows: seq<TransportOrder>, ps: int, pe: int): (r: seq<TransportOrder>)
    ensures forall x :: x in r <==> x in rows && ps <= x.date <= pe
    ensures multiset(r) <= multiset(rows)
  {
    if rows == [] then []
    else
      var rest := DateFilter(rows[1..], ps, pe);
      assert rows == [rows[0]] + rows[1..];
      if ps <= rows[0].date <= pe then [rows[0]] + rest else rest
  }

  /** `fetch_transport_orders`: the scoped orders dated within `[ps, pe]`. */
  function FetchTransportOrders(current: Option<CompanyId>, table: seq<TransportOrder>, ps: int, pe: int): (r: seq<TransportOrder>)
    ensures forall x :: x in r <==> x in table && current == Some(x.company) && ps <= x.date <= pe
    ensures multiset(r) <= multiset(table)
  {
    ScopedSubMultiset(table, OrderOwner, current);
    DateFilter(ScopedFilter(table, OrderOwner, current), ps, pe)
  }

  /** The distance counted for an order: missing or zero counts as 0. */
  function Distance(o: TransportOrder): real {
    if o.distanceKm.Some? && o.distanceKm.value != 0.0 then o.distanceKm.value else 0.0
  }

  /** Revenue of an order: `revenue` if truthy, else `agreed_price` if truthy, else 0. */
  function OrderRevenue(o: TransportOrder): (r: real)
    ensures o.revenue.Some? && o.revenue.value != 0.0 ==> r == o.revenue.value
    ensures !(o.revenue.Some? && o.revenue.value != 0.0) && o.agreedPrice.Some? && o.agreedPrice.value != 0.0 ==> r == o.agreedPrice.value
    ensures !(o.revenue.Some? && o.revenue.value != 0.0) && !(o.agreedPrice.Some? && o.agreedPrice.value != 0.0) ==> r == 0.0
  {
    if o.revenue.Some? && o.revenue.value != 0.0 then o.revenue.value
    else if o.agreedPrice.Some? && o.agreedPrice.value != 0.0 then o.agreedPrice.value
    else 0.0
  }

  /** Sum of a per-order measure over all orders. */
  function Total(s: seq<TransportOrder>, f: TransportOrder -> real): real {
    if s == [] then 0.0 else Total(s[..|s| - 1], f) + f(s[|s| - 1])
  }

  /** Sum of a per-order measure over the orders assigned to vehicle `v`. */
  function VehicleSum(s: seq<TransportOrder>, v: Id, f: TransportOrder -> real): real {
    if s == [] then 0.0
    else VehicleSum(s[..|s| - 1], v, f) + (if s[|s| - 1].assignedVehicleId == Some(v) then f(s[|s| - 1]) else 0.0)
  }

  /** Sum of a per-order measure over the orders with no vehicle. */
  function UnassignedSum(s: seq<TransportOrder>, f: TransportOrder -> real): real {
    if s == [] then 0.0
    else UnassignedSum(s[..|s| - 1], f) + (if s[|s| - 1].assignedVehicleId.None? then f(s[|s| - 1]) else 0.0)
  }

  /** The vehicles some order is assigned to. */
  function AssignedVehicles(s: seq<TransportOrder>): set<Id> {
    if s == [] then {}
    else
      var last := s[|s| - 1];
      AssignedVehicles(s[..|s| - 1]) + (if last.assignedVehicleId.Some? then {last.assignedVehicleId.value} else {})
  }

  /** A vehicle no order is assigned to has sum 0 (what `.get(v, 0)` returns for it). */
  lemma {:induction false} VehicleSumOutside(s: seq<TransportOrder>, v: Id, f: TransportOrder -> real)
    requires v !in AssignedVehicles(s)
    ensures VehicleSum(s, v, f) == 0.0
  {
    if s != [] {
      VehicleSumOutside(s[..|s| - 1], v, f);
    }
  }

  /** `m` holds, for every vehicle with orders in `s` and only for those, the sum of `f` over its orders. */
  predicate SumsByVehicle(m: map<Id, real>, s: seq<TransportOrder>, f: TransportOrder -> real) {
    m.Keys == AssignedVehicles(s) && forall v :: v in m ==> m[v] == VehicleSum(s, v, f)
  }

  /** Adding an order's measure to its vehicle's entry keeps the per-vehicle sums. */
  lemma SumsByVehicleStep(m: map<Id, real>, s: seq<TransportOrder>, o: TransportOrder, f: TransportOrder -> real)
    requires SumsByVehicle(m, s, f)
    ensures o.assignedVehicleId.None? ==> SumsByVehicle(m, s + [o], f)
    ensures o.assignedVehicleId.Some? ==>
      var v := o.assignedVehicleId.value;
      SumsByVehicle(m[v := (if v in m then m[v] else 0.0) + f(o)], s + [o], f)
  {
    assert (s + [o])[..|s + [o]| - 1] == s;
    if o.assignedVehicleId.Some? && o.assignedVehicleId.value !in m {
      VehicleSumOutside(s, o.assignedVehicleId.value, f);
    }
  }

  /**
   * `get_order_activity`: one pass over the orders accumulating the total
   * distance and revenue and, for assigned orders, the per-vehicle sums.
   */
  method GetOrderActivity(orders: seq<TransportOrder>)
    returns (totalKm: real, totalRevenue: real, kmByVehicle: map<Id, real>, revenueByVehicle: map<Id, real>)
    ensures totalKm == Total(orders, Distance) && totalRevenue == Total(orders, OrderRevenue)
    ensures kmByVehicle.Keys == AssignedVehicles(orders) && revenueByVehicle.Keys == AssignedVehicles(orders)
    ensures forall v :: v in kmByVehicle ==> kmByVehicle[v] == VehicleSum(orders, v, Distance)
    ensures forall v :: v in revenueByVehicle ==> revenueByVehicle[v] == VehicleSum(orders, v, OrderRevenue)
    ensures orders == [] ==> totalKm == 0.0 && totalRevenue == 0.0 && kmByVehicle == map[] && revenueByVehicle == map[]
  {
    totalKm, totalRevenue := 0.0, 0.0;
    kmByVehicle, revenueByVehicle := map[], map[];
    var i := 0;
    while i < |orders|
      invariant 0 <= i <= |orders|
      invariant totalKm == Total(orders[..i], Distance) && totalRevenue == Total(orders[..i], OrderRevenue)
      invariant SumsByVehicle(kmByVehicle, orders[..i], Distance)
      invariant SumsByVehicle(revenueByVehicle, orders[..i], OrderRevenue)
    {
      var order := orders[i];
      assert orders[..i + 1] == orders[..i] + [order];
      SumsByVehicleStep(kmByVehicle, orders[..i], order, Distance);
      SumsByVehicleStep(revenueByVehicle, orders[..i], order, OrderRevenue);
      var distance := Distance(order);
      totalKm := totalKm + distance;
      var revenue := OrderRevenue(order);
      totalRevenue := totalRevenue + revenue;
      if order.assignedVehicleId.Some? {
        var v := order.assignedVehicleId.value;
        kmByVehicle := kmByVehicle[v := (if v in kmByVehicle then kmByVehicle[v] else 0.0) + distance];
        revenueByVehicle := revenueByVehicle[v := (if v in revenueByVehicle then revenueByVehicle[v] else 0.0) + revenue];
      }
      i := i + 1;
    }
    assert orders[..i] == orders;
  }

  /** Sum of per-vehicle sums over a list of vehicles. */
  function SumOverVehicles(s: seq<TransportOrder>, vs: seq<Id>, f: TransportOrder -> real): real {
    if vs == [] then 0.0 else VehicleSum(s, vs[0], f) + SumOverVehicles(s, vs[1..], f)
  }

  lemma {:induction false} SumOverVehiclesStep(s: seq<TransportOrder>, o: TransportOrder, vs: seq<Id>, f: TransportOrder -> real)
    requires Distinct(vs)
    ensures SumOverVehicles(s + [o], vs, f) == SumOverVehicles(s, vs, f)
      + (if o.assignedVehicleId.Some? && o.assignedVehicleId.value in vs then f(o) else 0.0)
  {
    if vs != [] {
      assert (s + [o])[..|s + [o]| - 1] == s;
      assert Distinct(vs[1..]) by {
        forall i, j | 0 <= i < j < |vs[1..]| ensures vs[1..][i] != vs[1..][j] {
          assert vs[1..][i] == vs[i + 1] && vs[1..][j] == vs[j + 1];
        }
      }
      SumOverVehiclesStep(s, o, vs[1..], f);
      if o.assignedVehicleId == Some(vs[0]) {
        assert vs[0] !in vs[1..] by {
          forall k | 0 <= k < |vs[1..]| ensures vs[1..][k] != vs[0] {
            assert vs[1..][k] == vs[k + 1];
          }
        }
      }
    }
  }

  /**
   * The per-vehicle sums partition the total: summed over any list of
   * distinct vehicles that includes every assigned one, they plus the
   * unassigned orders' share give the total (for distance: `km_by_vehicle`
   * values sum to `total_km` minus the unassigned distance).
   */
  lemma {:induction false} VehicleSumsPartitionTotal(s: seq<TransportOrder>, vs: seq<Id>, f: TransportOrder -> real)
    requires Distinct(vs)
    requires forall v :: v in AssignedVehicles(s) ==> v in vs
    ensures SumOverVehicles(s, vs, f) + UnassignedSum(s, f) == Total(s, f)
  {
    if s == [] {
      SumOverVehiclesZero(vs, f);
    } else {
      var p, o := s[..|s| - 1], s[|s| - 1];
      assert s == p + [o];
      assert forall v :: v in AssignedVehicles(p) ==> v in vs;
      VehicleSumsPartitionTotal(p, vs, f);
      SumOverVehiclesStep(p, o, vs, f);
    }
  }

  lemma {:induction false} SumOverVehiclesZero(vs: seq<Id>, f: TransportOrder -> real)
    ensures SumOverVehicles([], vs, f) == 0.0
  {
    if vs != [] {
      SumOverVehiclesZero(vs[1..], f);
    }
  }

  /** With non-negative distances no vehicle's distance exceeds the total. */
  lemma {:induction false} VehicleKmAtMostTotal(s: seq<TransportOrder>, v: Id)
    requires forall o :: o in s ==> Distance(o) >= 0.0
    ensures 0.0 <= VehicleSum(s, v, Distance) <= Total(s, Distance)
  {
    if s != [] {
      var p := s[..|s| - 1];
      assert forall o :: o in p ==> o in s;
      assert s[|s| - 1] in s;
      VehicleKmAtMostTotal(p, v);
    }
  }
}
