/**
 * The older per-trip cost model: the trip profitability calculator (fixed,
 * overhead and variable costs of one trip) and the freight pricing engine
 * (an hourly rate, a per-kilometre rate, a trip estimate and a suggested
 * price). What these read from the database (the vehicle's fuel entries,
 * the company's expenses, the active fleet size, the assigned driver) is
 * passed in as values.
 */
module LegacyCosts {
  import opened Wrappers
  import opened Values
  import opened Expenses
  import opened EmployeeCost

  const TIRE_SET_PRICE := 800.0
  const TIRE_LIFESPAN_KM := 50000.0
  const MAINTENANCE_PER_KM := 0.05
  const DEFAULT_FUEL_PRICE := 1.75
  /** Litres per 100 km taken when the fuel history says nothing. */
  const DEFAULT_CONSUMPTION := 25.0
  /** 252 working days of 8 hours. */
  const WORKING_HOURS_PER_YEAR := 2016.0

  // ---- Trip profitability ----

  /** What the calculator is built from: the vehicle's purchase price and the trip. */
  datatype Trip = Trip(purchasePrice: real, distanceKm: real, durationHours: real, tollsCost: real, ferryCost: real)

  /** Depreciation over five years, 3% insurance and 500 in taxes a year, per working hour, plus a 12/hour wage. */
  function FixedCostPerHour(purchasePrice: real): (r: real)
    ensures (r - 12.0) * WORKING_HOURS_PER_YEAR == purchasePrice / 5.0 + purchasePrice * 0.03 + 500.0
  {
    (purchasePrice / 5.0 + purchasePrice * 0.03 + 500.0) / 2016.0 + 12.0
  }

  /**
   * `_calculate_fixed_cost`: the trip's hours at the fixed cost per hour, so
   * the wage of 12 an hour plus the annual fixed costs spread over the
   * working hours of a year.
   */
  function FixedCost(t: Trip): (r: real)
    ensures (r - 12.0 * t.durationHours) * WORKING_HOURS_PER_YEAR
            == (t.purchasePrice / 5.0 + t.purchasePrice * 0.03 + 500.0) * t.durationHours
  {
    var perHour := FixedCostPerHour(t.purchasePrice);
    HoursAtRate(perHour, t.durationHours, t.purchasePrice / 5.0 + t.purchasePrice * 0.03 + 500.0);
    perHour * t.durationHours
  }

  /** Hours at a rate of 12 plus an annual figure per working hour cost 12 an hour plus that figure's share. */
  lemma HoursAtRate(perHour: real, hours: real, annual: real)
    requires (perHour - 12.0) * WORKING_HOURS_PER_YEAR == annual
    ensures (perHour * hours - 12.0 * hours) * WORKING_HOURS_PER_YEAR == annual * hours
  {
    var extra := perHour - 12.0;
    assert perHour * hours - 12.0 * hours == extra * hours;
    assert extra * hours * WORKING_HOURS_PER_YEAR == extra * WORKING_HOURS_PER_YEAR * hours;
  }

  /** The company's active expenses. */
  function ActiveExpenses(expenses: seq<Expense>): (r: seq<Expense>)
    ensures forall x :: x in r <==> x in expenses && x.isActive
  {
    if expenses == [] then []
    else ActiveExpenses(expenses[..|expenses| - 1]) + (if expenses[|expenses| - 1].isActive then [expenses[|expenses| - 1]] else [])
  }

  function AnnualImpacts(expenses: seq<Expense>): (r: seq<real>)
    ensures |r| == |expenses| && forall k :: 0 <= k < |r| ==> r[k] == AnnualImpact(expenses[k])
  {
    seq(|expenses|, k requires 0 <= k < |expenses| => AnnualImpact(expenses[k]))
  }

  /** The yearly overhead: the annual impacts of the active expenses, summed. */
  function AnnualOverhead(expenses: seq<Expense>): real {
    RealSum(AnnualImpacts(ActiveExpenses(expenses)))
  }

  /**
   * `_calculate_overhead_cost` as written: the sum asks every active
   * expense for a `get_annual_cost()` it does not have, so any active
   * expense raises (None here); with none the overhead is 0.
   */
  function OverheadCostAsWritten(expenses: seq<Expense>, fleetSize: nat, hours: real): (r: Option<real>)
    ensures r == None <==> ActiveExpenses(expenses) != []
    ensures r.Some? ==> r.value == 0.0
  {
    if ActiveExpenses(expenses) == [] then Some(0.0) else None
  }

  /** The overhead charged to one trip hour when the expenses are weighed by their annual impact. */
  function OverheadCost(totalAnnualOverhead: real, fleetSize: nat, hours: real): (r: real)
    ensures totalAnnualOverhead == 0.0 || fleetSize == 0 ==> r == 0.0
    ensures totalAnnualOverhead != 0.0 && fleetSize > 0 ==>
              r * (WORKING_HOURS_PER_YEAR * fleetSize as real) == totalAnnualOverhead * hours
  {
    if totalAnnualOverhead == 0.0 then 0.0
    else if fleetSize == 0 then 0.0
    else OverheadShare(totalAnnualOverhead, 2016.0 * fleetSize as real, hours)
  }

  function OverheadShare(total: real, fleetHours: real, hours: real): (r: real)
    requires fleetHours > 0.0
    ensures r * fleetHours == total * hours
  {
    var perHour := Mean(total, fleetHours);
    assert (perHour * hours) * fleetHours == (perHour * fleetHours) * hours;
    perHour * hours
  }

  /** A monthly expense of 100, active, for a fleet of one. */
  function SampleExpenses(): seq<Expense> {
    [Expense(RECURRING, MONTHLY, 100.0, 1, None, false, true)]
  }

  /**
   * As written, a company with one active expense of 100 a month cannot
   * price a trip at all, where the annual-impact reading charges it
   * 1200 over 2016 fleet hours.
   */
  lemma OverheadAsWrittenRaises()
    ensures OverheadCostAsWritten(SampleExpenses(), 1, 8.0) == None
    ensures OverheadCost(AnnualOverhead(SampleExpenses()), 1, 8.0) * WORKING_HOURS_PER_YEAR == 1200.0 * 8.0
  {
    var es := SampleExpenses();
    assert ActiveExpenses(es[..0]) == [];
    assert ActiveExpenses(es) == es;
    assert AnnualImpacts(es) == [1200.0];
    assert RealSum([1200.0]) == RealSum([1200.0][..0]) + 1200.0;
  }

  /** A full-tank fuel entry as the consumption history sees it. */
  datatype FuelRecord = FuelRecord(date: int, isFullTank: bool, odometer: int, liters: real, costPerLiter: real)

  /** The full-tank entries dated on or after the cut-off, in their order. */
  function RecentFullTank(history: seq<FuelRecord>, cutoff: int): (r: seq<FuelRecord>)
    ensures forall x :: x in r <==> x in history && x.isFullTank && x.date >= cutoff
  {
    if history == [] then []
    else
      var x := history[|history| - 1];
      RecentFullTank(history[..|history| - 1], cutoff) + (if x.isFullTank && x.date >= cutoff then [x] else [])
  }

  /** Litres per 100 km from the litres of a fill and the kilometres since the previous one. */
  function PerHundredKm(liters: real, km: int): (r: real)
    requires km > 0
    ensures r * (km as real) == liters * 100.0
  {
    var perKm := Mean(liters, km as real);
    assert perKm * 100.0 * (km as real) == (perKm * (km as real)) * 100.0;
    perKm * 100.0
  }

  /** Kilometres between entry k-1 and entry k. */
  function KmDriven(entries: seq<FuelRecord>, k: int): int
    requires 1 <= k < |entries|
  {
    entries[k].odometer - entries[k - 1].odometer
  }

  /** One consumption per consecutive pair of entries with kilometres driven, in order. */
  function Consumptions(entries: seq<FuelRecord>): seq<real> {
    if |entries| < 2 then []
    else
      var n := |entries|;
      Consumptions(entries[..n - 1]) + (if KmDriven(entries, n - 1) > 0 then [PerHundredKm(entries[n - 1].liters, KmDriven(entries, n - 1))] else [])
  }

  /** No consumption is recorded exactly when no consecutive pair shows kilometres driven. */
  lemma {:induction false} ConsumptionsEmpty(entries: seq<FuelRecord>)
    ensures Consumptions(entries) == [] <==> forall k :: 1 <= k < |entries| ==> KmDriven(entries, k) <= 0
  {
    var n := |entries|;
    if n >= 2 {
      var front := entries[..n - 1];
      ConsumptionsEmpty(front);
      assert forall k :: 1 <= k < n - 1 ==> KmDriven(front, k) == KmDriven(entries, k);
    }
  }

  /** With litres never negative, no consumption is negative. */
  lemma {:induction false} ConsumptionsNonNegative(entries: seq<FuelRecord>)
    requires forall k :: 0 <= k < |entries| ==> entries[k].liters >= 0.0
    ensures forall k :: 0 <= k < |Consumptions(entries)| ==> Consumptions(entries)[k] >= 0.0
  {
    var n := |entries|;
    if n >= 2 {
      ConsumptionsNonNegative(entries[..n - 1]);
      var km := KmDriven(entries, n - 1);
      if km > 0 {
        var c := PerHundredKm(entries[n - 1].liters, km);
        assert c * (km as real) >= 0.0;
      }
    }
  }

  /**
   * Litres per 100 km: 25 with fewer than two entries or no pair with
   * kilometres driven; otherwise the mean of the per-pair consumptions.
   */
  function AverageConsumption(entries: seq<FuelRecord>): (r: real)
    ensures |entries| < 2 || Consumptions(entries) == [] ==> r == DEFAULT_CONSUMPTION
    ensures |entries| >= 2 && Consumptions(entries) != [] ==>
              r * (|Consumptions(entries)| as real) == RealSum(Consumptions(entries))
  {
    if |entries| < 2 then DEFAULT_CONSUMPTION else AverageOf(Consumptions(entries))
  }

  /** The mean of the consumptions, or the default when there are none. */
  function AverageOf(xs: seq<real>): (r: real)
    ensures xs == [] ==> r == DEFAULT_CONSUMPTION
    ensures xs != [] ==> r * (|xs| as real) == RealSum(xs)
  {
    if xs == [] then DEFAULT_CONSUMPTION else Mean(RealSum(xs), |xs| as real)
  }

  /** The average consumption is never negative when no entry has negative litres. */
  lemma AverageConsumptionNonNegative(entries: seq<FuelRecord>)
    requires forall k :: 0 <= k < |entries| ==> entries[k].liters >= 0.0
    ensures AverageConsumption(entries) >= 0.0
  {
    var c := Consumptions(entries);
    if |entries| >= 2 && c != [] {
      ConsumptionsNonNegative(entries);
      NonNegativeSum(c);
      var r := AverageConsumption(entries);
      assert r * (|c| as real) >= 0.0;
    }
  }

  /** The consumption loop of `_calculate_fuel_cost`. */
  method FuelConsumption(entries: seq<FuelRecord>) returns (avg: real)
    ensures avg == AverageConsumption(entries)
  {
    if |entries| < 2 {
      return 25.0;
    }
    var consumptions: seq<real> := [];
    for i := 1 to |entries|
      invariant consumptions == Consumptions(entries[..i])
    {
      assert entries[..i + 1][..i] == entries[..i];
      var km := entries[i].odometer - entries[i - 1].odometer;
      if km > 0 {
        consumptions := consumptions + [PerHundredKm(entries[i].liters, km)];
      }
    }
    assert entries[..|entries|] == entries;
    if consumptions != [] {
      avg := Mean(RealSum(consumptions), |consumptions| as real);
    } else {
      avg := 25.0;
    }
  }

  /** The price of the vehicle's latest fuel entry (the history is in date order), else 1.75. */
  function LatestFuelPrice(history: seq<FuelRecord>): (r: real)
    ensures history == [] ==> r == DEFAULT_FUEL_PRICE
    ensures history != [] ==> r == history[|history| - 1].costPerLiter
  {
    if history == [] then 1.75 else history[|history| - 1].costPerLiter
  }

  /** `_calculate_fuel_cost`'s product: litres per 100 km at the price, over the distance. */
  function FuelCost(consumption: real, fuelPrice: real, distance: real): (r: real)
    ensures r * 100.0 == consumption * fuelPrice * distance
    ensures consumption >= 0.0 && fuelPrice >= 0.0 && distance >= 0.0 ==> r >= 0.0
  {
    NonNegativeProduct(consumption, fuelPrice, distance);
    (consumption * fuelPrice * distance) / 100.0
  }

  lemma NonNegativeProduct(a: real, b: real, c: real)
    ensures a >= 0.0 && b >= 0.0 && c >= 0.0 ==> a * b * c >= 0.0
  {
    if a >= 0.0 && b >= 0.0 && c >= 0.0 {
      var ab := a * b;
      assert ab >= 0.0;
    }
  }

  /** `_calculate_tire_cost`: one tyre set worn out every lifespan's worth of kilometres. */
  function TireCost(distance: real): (r: real)
    ensures r * TIRE_LIFESPAN_KM == TIRE_SET_PRICE * distance
  {
    (800.0 / 50000.0) * distance
  }

  /** `_calculate_maintenance_cost`: the fixed accrual per kilometre. */
  function MaintenanceCost(distance: real): (r: real)
    ensures r == MAINTENANCE_PER_KM * distance
    ensures distance >= 0.0 ==> r >= 0.0
  {
    0.05 * distance
  }

  /** `_calculate_variable_cost`: fuel, tyres and maintenance for the trip's distance. */
  function VariableCost(t: Trip, consumption: real, fuelPrice: real): (r: real)
    ensures r - FuelCost(consumption, fuelPrice, t.distanceKm)
            == (TIRE_SET_PRICE / TIRE_LIFESPAN_KM + MAINTENANCE_PER_KM) * t.distanceKm
    ensures consumption >= 0.0 && fuelPrice >= 0.0 && t.distanceKm >= 0.0 ==> r >= 0.0
  {
    FuelCost(consumption, fuelPrice, t.distanceKm) + TireCost(t.distanceKm) + MaintenanceCost(t.distanceKm)
  }

  /** Tyres wear at 0.016 and maintenance accrues at 0.05 per kilometre. */
  lemma VariableCostPerKm(t: Trip, consumption: real, fuelPrice: real)
    ensures TireCost(t.distanceKm) == 0.016 * t.distanceKm
    ensures MaintenanceCost(t.distanceKm) == MAINTENANCE_PER_KM * t.distanceKm
    ensures VariableCost(t, consumption, fuelPrice) == FuelCost(consumption, fuelPrice, t.distanceKm) + 0.066 * t.distanceKm
  {
  }

  /** The calculator's result before rounding to cents. */
  datatype TripBreakdown = TripBreakdown(
    fixedCost: real, overheadCost: real, variableCost: real, tollsCost: real, ferryCost: real,
    totalCost: real, revenue: real, profit: real, profitMargin: real)

  /** The margin in percent of the price, 0 for a price that is not positive. */
  function ProfitMargin(profit: real, price: real): (r: real)
    ensures price > 0.0 ==> r * price == profit * 100.0
    ensures price <= 0.0 ==> r == 0.0
  {
    if price > 0.0 then
      var share := Mean(profit, price);
      assert share * 100.0 * price == (share * price) * 100.0;
      share * 100.0
    else 0.0
  }

  /** The trip's costs add up to its total, the profit is the price less that total. */
  function TripBreakdownOf(t: Trip, price: real, overhead: real, variable: real): (b: TripBreakdown)
    ensures b.fixedCost == FixedCost(t) && b.overheadCost == overhead && b.variableCost == variable
    ensures b.totalCost == b.fixedCost + b.overheadCost + b.variableCost + t.tollsCost + t.ferryCost
    ensures b.revenue == price && b.profit + b.totalCost == price
    ensures price > 0.0 ==> b.profitMargin * price == b.profit * 100.0
    ensures price <= 0.0 ==> b.profitMargin == 0.0
  {
    var fixed := FixedCost(t);
    var total := fixed + overhead + variable + t.tollsCost + t.ferryCost;
    var profit := price - total;
    TripBreakdown(fixed, overhead, variable, t.tollsCost, t.ferryCost, total, price, profit, ProfitMargin(profit, price))
  }

  /** Every figure rounded to cents. */
  function RoundBreakdown(b: TripBreakdown): TripBreakdown {
    TripBreakdown(Quantize2(b.fixedCost), Quantize2(b.overheadCost), Quantize2(b.variableCost), Quantize2(b.tollsCost),
                  Quantize2(b.ferryCost), Quantize2(b.totalCost), Quantize2(b.revenue), Quantize2(b.profit),
                  Quantize2(b.profitMargin))
  }

  /**
   * The rounded profit is within half a cent of the profit, and within a
   * cent and a half of the rounded revenue less the rounded total (for a
   * profit that is the revenue less the total).
   */
  lemma RoundedProfitClose(b: TripBreakdown)
    ensures -0.005 <= RoundBreakdown(b).profit - (b.revenue - b.totalCost) + (b.revenue - b.totalCost - b.profit) <= 0.005
    ensures -0.015 <= RoundBreakdown(b).profit - (RoundBreakdown(b).revenue - RoundBreakdown(b).totalCost)
                      + (b.revenue - b.totalCost - b.profit) <= 0.015
  {
  }

  /**
   * `calculate_trip_profitability`: fixed, overhead and variable costs of
   * the trip with tolls and ferries, against the agreed price. The fuel
   * history is the vehicle's entries in date order; the consumption uses
   * the full-tank ones from the cut-off on (six months before now).
   */
  method CalculateTripProfitability(t: Trip, agreedPrice: real, expenses: seq<Expense>, fleetSize: nat,
                                    history: seq<FuelRecord>, cutoff: int)
    returns (r: TripBreakdown)
    ensures r == RoundBreakdown(TripBreakdownOf(t, agreedPrice,
                                                OverheadCost(AnnualOverhead(expenses), fleetSize, t.durationHours),
                                                VariableCost(t, AverageConsumption(RecentFullTank(history, cutoff)), LatestFuelPrice(history))))
  {
    var overhead := OverheadCost(AnnualOverhead(expenses), fleetSize, t.durationHours);
    var consumption := FuelConsumption(RecentFullTank(history, cutoff));
    var variable := VariableCost(t, consumption, LatestFuelPrice(history));
    r := RoundBreakdown(TripBreakdownOf(t, agreedPrice, overhead, variable));
  }

  // ---- Freight pricing engine ----

  /** The vehicle figures the engine reads; the averages may be unset (or zero). */
  datatype FleetVehicle = FleetVehicle(annualDepreciation: real, averageFuelConsumption: Option<real>, averageTireCostPerKm: Option<real>)

  /** The company's working-time settings. */
  datatype CompanySettings = CompanySettings(workingDaysPerYear: int, workingHoursPerDay: int, utilizationRate: real)

  /** The limits the company fields put on those settings. */
  predicate ValidSettings(c: CompanySettings) {
    1 <= c.workingDaysPerYear <= 365 && 1 <= c.workingHoursPerDay <= 24 && 0.01 <= c.utilizationRate <= 1.0
  }

  /** What the engine reads for one vehicle of one company. */
  datatype FreightEngine = FreightEngine(
    vehicle: FleetVehicle, company: CompanySettings, assignedDriver: Option<Employee>,
    expenses: seq<Expense>, activeFleetSize: nat, fuelHistory: seq<FuelRecord>)

  const DEFAULT_DRIVER_COST := 25000.0
  const FREIGHT_TIRE_COST_PER_KM := 0.05
  const FREIGHT_MAINTENANCE_PER_KM := 0.08

  /** `x or default` for an optional amount. */
  function OrDefault(x: Option<real>, default: real): (r: real)
    ensures x.Some? && x.value != 0.0 ==> r == x.value
    ensures !(x.Some? && x.value != 0.0) ==> r == default
  {
    if x.Some? && x.value != 0.0 then x.value else default
  }

  function DriverCost(e: FreightEngine): real {
    match e.assignedDriver
    case Some(emp) => TotalAnnualCost(emp)
    case None => 25000.0
  }

  /** The vehicle's share of the overhead: the annual overhead split evenly over the active fleet. */
  function OverheadPerVehicle(e: FreightEngine): (r: real)
    ensures e.activeFleetSize == 0 ==> r == 0.0
    ensures e.activeFleetSize > 0 ==> r * (e.activeFleetSize as real) == AnnualOverhead(e.expenses)
  {
    if e.activeFleetSize > 0 then Mean(AnnualOverhead(e.expenses), e.activeFleetSize as real) else 0.0
  }

  /** Depreciation and driver (level 1) plus the vehicle's overhead share (level 4). */
  function AnnualVehicleCost(e: FreightEngine): real {
    e.vehicle.annualDepreciation + DriverCost(e) + OverheadPerVehicle(e)
  }

  function EffectiveHours(c: CompanySettings): real {
    (c.workingDaysPerYear as real) * (c.workingHoursPerDay as real) * c.utilizationRate
  }

  predicate WholeCents(x: real) {
    (x * 100.0).Floor as real == x * 100.0
  }

  /**
   * `calculate_hourly_rate`: the vehicle's annual cost per effective hour,
   * rounded to cents; 0 when there are no effective hours.
   */
  function HourlyRate(e: FreightEngine): (r: real)
    ensures EffectiveHours(e.company) <= 0.0 ==> r == 0.0
    ensures EffectiveHours(e.company) > 0.0 ==>
              WholeCents(r) && -0.005 <= r - Mean(AnnualVehicleCost(e), EffectiveHours(e.company)) <= 0.005
  {
    var hours := EffectiveHours(e.company);
    if hours <= 0.0 then 0.0 else Quantize2(Mean(AnnualVehicleCost(e), hours))
  }

  /** Within the company field limits there are always effective hours. */
  lemma EffectiveHoursPositive(c: CompanySettings)
    requires ValidSettings(c)
    ensures EffectiveHours(c) > 0.0
  {
    var d, h := c.workingDaysPerYear as real, c.workingHoursPerDay as real;
    ProductPositive(d, h, c.utilizationRate);
  }

  lemma ProductPositive(d: real, h: real, u: real)
    requires d >= 1.0 && h >= 1.0 && u >= 0.01
    ensures d * h * u > 0.0
  {
    assert d * h >= 1.0 * h;
    var dh := d * h;
    assert dh * u >= dh * 0.01;
  }

  /**
   * `calculate_km_rate`: fuel per kilometre (the vehicle's average
   * consumption, else 25 L/100 km, at the given price, else the latest
   * one), tyres (the vehicle's figure, else 0.05) and 0.08 maintenance,
   * rounded to cents.
   */
  function KmRate(e: FreightEngine, currentFuelPrice: Option<real>): (r: real)
    ensures var price := if currentFuelPrice.Some? then currentFuelPrice.value else LatestFuelPrice(e.fuelHistory);
            var raw := OrDefault(e.vehicle.averageFuelConsumption, DEFAULT_CONSUMPTION) / 100.0 * price
                       + OrDefault(e.vehicle.averageTireCostPerKm, FREIGHT_TIRE_COST_PER_KM) + FREIGHT_MAINTENANCE_PER_KM;
            WholeCents(r) && -0.005 <= r - raw <= 0.005
  {
    var consumptionPerKm := OrDefault(e.vehicle.averageFuelConsumption, 25.0) / 100.0;
    var price := if currentFuelPrice.Some? then currentFuelPrice.value else LatestFuelPrice(e.fuelHistory);
    var tire := OrDefault(e.vehicle.averageTireCostPerKm, 0.05);
    Quantize2(consumptionPerKm * price + tire + 0.08)
  }

  /** `estimate_trip_cost`'s result, every figure in cents. */
  datatype TripEstimate = TripEstimate(
    hourlyRate: real, kmRate: real, timeBasedCost: real, distanceBasedCost: real, tolls: real, ferries: real, totalCost: real)

  /** Hours at the hourly rate, kilometres at the km rate, plus tolls and ferries, each rounded to cents. */
  function EstimateFromRates(hourly: real, km: real, distance: real, hours: real, tolls: real, ferries: real): (r: TripEstimate)
    ensures WholeCents(r.hourlyRate) && WholeCents(r.kmRate) && WholeCents(r.timeBasedCost)
            && WholeCents(r.distanceBasedCost) && WholeCents(r.tolls) && WholeCents(r.ferries) && WholeCents(r.totalCost)
    ensures -0.005 <= r.hourlyRate - hourly <= 0.005 && -0.005 <= r.kmRate - km <= 0.005
    ensures -0.005 <= r.timeBasedCost - hours * hourly <= 0.005 && -0.005 <= r.distanceBasedCost - distance * km <= 0.005
    ensures -0.005 <= r.tolls - tolls <= 0.005 && -0.005 <= r.ferries - ferries <= 0.005
    ensures -0.005 <= r.totalCost - (hours * hourly + distance * km + tolls + ferries) <= 0.005
  {
    var time := hours * hourly;
    var dist := distance * km;
    TripEstimate(Quantize2(hourly), Quantize2(km), Quantize2(time), Quantize2(dist), Quantize2(tolls), Quantize2(ferries),
                 Quantize2(time + dist + tolls + ferries))
  }

  /**
   * `estimate_trip_cost`: the estimate at the engine's hourly and km rates,
   * which it reports unchanged, with a total in cents.
   */
  function EstimateTripCost(e: FreightEngine, distance: real, hours: real, tolls: real, ferries: real): (r: TripEstimate)
    ensures r.hourlyRate == HourlyRate(e) && r.kmRate == KmRate(e, None)
    ensures WholeCents(r.totalCost)
  {
    EngineRatesInCents(e);
    EstimateFromRates(HourlyRate(e), KmRate(e, None), distance, hours, tolls, ferries)
  }

  /** Both of the engine's rates are already in cents. */
  lemma EngineRatesInCents(e: FreightEngine)
    ensures Quantize2(HourlyRate(e)) == HourlyRate(e) && Quantize2(KmRate(e, None)) == KmRate(e, None)
  {
    HourlyRateInCents(e);
    KmRateInCents(e);
  }

  /** Rates already in cents are reported unchanged, and the total is the unrounded sum rounded once. */
  lemma EstimateFromCentRates(hourly: real, km: real, distance: real, hours: real, tolls: real, ferries: real)
    requires Quantize2(hourly) == hourly && Quantize2(km) == km
    ensures var r := EstimateFromRates(hourly, km, distance, hours, tolls, ferries);
            && r.hourlyRate == hourly && r.kmRate == km
            && -0.005 <= r.totalCost - (hours * hourly + distance * km + tolls + ferries) <= 0.005
  {
  }

  /** The hourly rate is already in cents. */
  lemma HourlyRateInCents(e: FreightEngine)
    ensures Quantize2(HourlyRate(e)) == HourlyRate(e)
  {
    var hours := EffectiveHours(e.company);
    if hours <= 0.0 {
      QuantizeWholeCents(0);
    } else {
      QuantizeIdempotent(Mean(AnnualVehicleCost(e), hours));
    }
  }

  /** The km rate is already in cents. */
  lemma KmRateInCents(e: FreightEngine)
    ensures Quantize2(KmRate(e, None)) == KmRate(e, None)
  {
    var consumptionPerKm := OrDefault(e.vehicle.averageFuelConsumption, 25.0) / 100.0;
    var tire := OrDefault(e.vehicle.averageTireCostPerKm, 0.05);
    QuantizeIdempotent(consumptionPerKm * LatestFuelPrice(e.fuelHistory) + tire + 0.08);
  }

  /**
   * The estimate reports the engine's own rates unchanged, and its total
   * is the unrounded time and distance costs plus tolls and ferries,
   * rounded once.
   */
  lemma EstimateOfEngineRates(e: FreightEngine, distance: real, hours: real, tolls: real, ferries: real)
    ensures var r := EstimateTripCost(e, distance, hours, tolls, ferries);
            && r.hourlyRate == HourlyRate(e) && r.kmRate == KmRate(e, None)
            && -0.005 <= r.totalCost - (hours * HourlyRate(e) + distance * KmRate(e, None) + tolls + ferries) <= 0.005
  {
    HourlyRateInCents(e);
    KmRateInCents(e);
    EstimateFromCentRates(HourlyRate(e), KmRate(e, None), distance, hours, tolls, ferries);
  }

  /** The estimate's total is always in cents. */
  lemma EstimateTotalInCents(hourly: real, km: real, distance: real, hours: real, tolls: real, ferries: real)
    ensures var r := EstimateFromRates(hourly, km, distance, hours, tolls, ferries);
            Quantize2(r.totalCost) == r.totalCost
  {
    QuantizeIdempotent(hours * hourly + distance * km + tolls + ferries);
  }

  /** `calculate_suggested_price`'s result. */
  datatype SuggestedPrice = SuggestedPrice(
    baseCost: real, adjustedCost: real, marginPercentage: real, emptyReturnFactor: real, suggestedPrice: real,
    breakdown: TripEstimate)

  /** The estimate's figures with the distance cost scaled by the empty-return factor. */
  function AdjustedCost(b: TripEstimate, emptyReturnFactor: real): real {
    b.timeBasedCost + b.distanceBasedCost * emptyReturnFactor + b.tolls + b.ferries
  }

  /**
   * The estimate's rounded figures, the distance cost scaled by the
   * empty-return factor, marked up by the margin: each reported figure is
   * its unrounded value rounded to cents.
   */
  function SuggestedFromEstimate(b: TripEstimate, marginPercentage: real, emptyReturnFactor: real): (r: SuggestedPrice)
    ensures r.breakdown == b && r.marginPercentage == marginPercentage && r.emptyReturnFactor == emptyReturnFactor
    ensures WholeCents(r.baseCost) && WholeCents(r.adjustedCost) && WholeCents(r.suggestedPrice)
    ensures -0.005 <= r.baseCost - b.totalCost <= 0.005
    ensures -0.005 <= r.adjustedCost - AdjustedCost(b, emptyReturnFactor) <= 0.005
    ensures -0.005 <= r.suggestedPrice - Markup(AdjustedCost(b, emptyReturnFactor), marginPercentage) <= 0.005
  {
    var adjusted := AdjustedCost(b, emptyReturnFactor);
    SuggestedPrice(Quantize2(b.totalCost), Quantize2(adjusted), marginPercentage, emptyReturnFactor,
                   Quantize2(Markup(adjusted, marginPercentage)), b)
  }

  /** A cost marked up by a margin given in percent. */
  function Markup(cost: real, marginPercentage: real): real {
    cost * (1.0 + marginPercentage / 100.0)
  }

  /**
   * `calculate_suggested_price`, from the engine's estimate for the trip:
   * the base cost is the estimate's total exactly, and the adjusted cost and
   * the price are within half a cent of their unrounded values.
   */
  function CalculateSuggestedPrice(e: FreightEngine, distance: real, hours: real, tolls: real, ferries: real,
                                   marginPercentage: real, emptyReturnFactor: real): (r: SuggestedPrice)
    ensures r.breakdown == EstimateTripCost(e, distance, hours, tolls, ferries)
    ensures r.baseCost == r.breakdown.totalCost
    ensures r.marginPercentage == marginPercentage && r.emptyReturnFactor == emptyReturnFactor
    ensures -0.005 <= r.adjustedCost - AdjustedCost(r.breakdown, emptyReturnFactor) <= 0.005
    ensures -0.005 <= r.suggestedPrice - Markup(AdjustedCost(r.breakdown, emptyReturnFactor), marginPercentage) <= 0.005
  {
    EstimateTotalInCents(HourlyRate(e), KmRate(e, None), distance, hours, tolls, ferries);
    SuggestedFromEstimate(EstimateTripCost(e, distance, hours, tolls, ferries), marginPercentage, emptyReturnFactor)
  }

  /**
   * For an estimate whose total is in cents, the base cost is that total
   * and the suggested price is the adjusted cost marked up by the margin,
   * rounded once.
   */
  lemma SuggestedOfCentEstimate(b: TripEstimate, marginPercentage: real, emptyReturnFactor: real)
    requires Quantize2(b.totalCost) == b.totalCost
    ensures var r := SuggestedFromEstimate(b, marginPercentage, emptyReturnFactor);
            var adjusted := AdjustedCost(b, emptyReturnFactor);
            && r.breakdown == b && r.baseCost == b.totalCost
            && -0.005 <= r.adjustedCost - adjusted <= 0.005
            && -0.005 <= r.suggestedPrice - Markup(adjusted, marginPercentage) <= 0.005
            && r.marginPercentage == marginPercentage && r.emptyReturnFactor == emptyReturnFactor
  {
  }

  /**
   * The suggested price is built on the engine's own estimate, whose total
   * is in cents, so its base cost is that total exactly; the bounds on its
   * adjusted cost and price are those of `SuggestedOfCentEstimate`.
   */
  lemma SuggestedPriceOfEstimate(e: FreightEngine, distance: real, hours: real, tolls: real, ferries: real,
                                 marginPercentage: real, emptyReturnFactor: real)
    ensures var r := CalculateSuggestedPrice(e, distance, hours, tolls, ferries, marginPercentage, emptyReturnFactor);
            var b := EstimateTripCost(e, distance, hours, tolls, ferries);
            && r == SuggestedFromEstimate(b, marginPercentage, emptyReturnFactor)
            && Quantize2(b.totalCost) == b.totalCost
            && r.breakdown == b && r.baseCost == b.totalCost
  {
    EstimateTotalInCents(HourlyRate(e), KmRate(e, None), distance, hours, tolls, ferries);
  }

  /** With no margin the suggested price is the adjusted cost, and a factor of 1 leaves the distance cost as estimated. */
  lemma SuggestedPriceWithoutMarkup(e: FreightEngine, distance: real, hours: real, tolls: real, ferries: real)
    ensures var r := CalculateSuggestedPrice(e, distance, hours, tolls, ferries, 0.0, 1.0);
            && r.suggestedPrice == r.adjustedCost
            && AdjustedCost(r.breakdown, 1.0) == r.breakdown.timeBasedCost + r.breakdown.distanceBasedCost + r.breakdown.tolls + r.breakdown.ferries
  {
  }
}
