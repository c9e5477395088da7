/**
 * Fuel entries and service logs: their totals filled in on save when
 * missing, and the vehicle odometer they push forward once saved. A save
 * persists the record and then runs the record's post-save handler, with
 * `created` telling whether the record was new.
 */
module Operations {
  import opened Wrappers

  /** A missing total or a total of zero counts as not provided. */
  predicate Provided(total: Option<real>) {
    total.Some? && total.value != 0.0
  }

  /** The total a save leaves: the one provided, else the computed one. */
  function AutoTotal(total: Option<real>, computed: real): (r: real)
    ensures Provided(total) ==> r == total.value
    ensures !Provided(total) ==> r == computed
  {
    if Provided(total) then total.value else computed
  }

  /** Saving twice fills the total in at most once: the second save keeps what the first left. */
  lemma AutoTotalIdempotent(total: Option<real>, computed: real, recomputed: real)
    requires computed != 0.0
    ensures AutoTotal(Some(AutoTotal(total, computed)), recomputed) == AutoTotal(total, computed)
  {
  }

  /** A computed total of zero is left as such, and the next save computes it again. */
  lemma ZeroTotalRecomputed(total: Option<real>, recomputed: real)
    requires !Provided(total)
    ensures AutoTotal(Some(AutoTotal(total, 0.0)), recomputed) == recomputed
  {
  }

  /** The odometer after a reading: the larger of the two. */
  function NewOdometer(current: nat, reading: nat): (r: nat)
    ensures r >= current && r >= reading
    ensures r == current || r == reading
  {
    if reading > current then reading else current
  }

  /** The handlers' guard: a new record, or a reading beyond the odometer, and then a reading beyond it. */
  function ShouldUpdate(created: bool, reading: nat, current: nat): bool {
    (created || reading > current) && reading > current
  }

  /** Whether the record is new never matters: the vehicle moves exactly when the reading is beyond it. */
  lemma CreatedIrrelevant(reading: nat, current: nat)
    ensures ShouldUpdate(true, reading, current) == ShouldUpdate(false, reading, current)
    ensures ShouldUpdate(true, reading, current) <==> reading > current
    ensures ShouldUpdate(false, reading, current) ==> NewOdometer(current, reading) == reading
    ensures !ShouldUpdate(false, reading, current) ==> NewOdometer(current, reading) == current
  {
  }

  /** The odometer after a run of readings, one post-save handler after another. */
  function OdometerAfter(current: nat, readings: seq<nat>): nat {
    if readings == [] then current
    else NewOdometer(OdometerAfter(current, readings[..|readings| - 1]), readings[|readings| - 1])
  }

  /** After any run of readings the odometer is the largest of the start and all readings. */
  lemma {:induction false} OdometerAfterIsMax(current: nat, readings: seq<nat>)
    ensures OdometerAfter(current, readings) >= current
    ensures forall i :: 0 <= i < |readings| ==> OdometerAfter(current, readings) >= readings[i]
    ensures OdometerAfter(current, readings) == current
            || exists i :: 0 <= i < |readings| && OdometerAfter(current, readings) == readings[i]
  {
    if readings != [] {
      var front := readings[..|readings| - 1];
      OdometerAfterIsMax(current, front);
      var last := |readings| - 1;
      var r := OdometerAfter(current, readings);
      assert forall i :: 0 <= i < last ==> readings[i] == front[i];
      if r != current && r != readings[last] {
        var k :| 0 <= k < |front| && OdometerAfter(current, front) == front[k];
        assert r == readings[k];
      }
    }
  }

  /** The odometer never goes back: a longer run of readings leaves it at least where a shorter one did. */
  lemma {:induction false} OdometerMonotone(current: nat, readings: seq<nat>, more: seq<nat>)
    ensures OdometerAfter(current, readings + more) >= OdometerAfter(current, readings)
  {
    if more != [] {
      var longer := readings + more;
      assert longer[..|longer| - 1] == readings + more[..|more| - 1];
      OdometerMonotone(current, readings, more[..|more| - 1]);
    } else {
      assert readings + more == readings;
    }
  }

  /** `VehicleAsset`, as far as the handlers use it: the odometer, and how many times it was saved. */
  class Vehicle {
    var currentOdometer: nat
    var saves: nat

    constructor(odometer: nat)
      ensures currentOdometer == odometer && saves == 0
    {
      currentOdometer := odometer;
      saves := 0;
    }
  }

  /**
   * The shared body of both post-save handlers: a reading beyond the
   * odometer moves it there and saves the vehicle; anything else leaves
   * the vehicle alone.
   */
  method RecordReading(v: Vehicle, reading: nat, created: bool)
    modifies v
    ensures v.currentOdometer == NewOdometer(old(v.currentOdometer), reading)
    ensures v.saves == if reading > old(v.currentOdometer) then old(v.saves) + 1 else old(v.saves)
  {
    if created || reading > v.currentOdometer {
      if reading > v.currentOdometer {
        v.currentOdometer := reading;
        v.saves := v.saves + 1;
      }
    }
  }

  class FuelEntry {
    var vehicle: Vehicle
    var liters: real
    var costPerLiter: real
    var totalCost: Option<real>
    var odometerReading: nat
    var persisted: bool

    constructor(vehicle: Vehicle, liters: real, costPerLiter: real, totalCost: Option<real>, odometerReading: nat)
      ensures this.vehicle == vehicle && this.liters == liters && this.costPerLiter == costPerLiter
      ensures this.totalCost == totalCost && this.odometerReading == odometerReading && !persisted
    {
      this.vehicle := vehicle;
      this.liters := liters;
      this.costPerLiter := costPerLiter;
      this.totalCost := totalCost;
      this.odometerReading := odometerReading;
      persisted := false;
    }

    /**
     * `save`: a missing or zero total becomes liters times price per
     * liter; then the entry is persisted and the post-save handler runs.
     */
    method Save()
      modifies this, vehicle
      ensures totalCost == Some(AutoTotal(old(totalCost), liters * costPerLiter))
      ensures persisted
      ensures vehicle == old(vehicle) && liters == old(liters) && costPerLiter == old(costPerLiter)
      ensures odometerReading == old(odometerReading)
      ensures vehicle.currentOdometer == NewOdometer(old(vehicle.currentOdometer), odometerReading)
      ensures vehicle.saves == if odometerReading > old(vehicle.currentOdometer) then old(vehicle.saves) + 1 else old(vehicle.saves)
    {
      var computed := liters * costPerLiter;
      if !Provided(totalCost) {
        totalCost := Some(computed);
      }
      var created := !persisted;
      persisted := true;
      UpdateOdometerFromFuelEntry(created);
      assert liters * costPerLiter == computed;
    }

    /** `update_odometer_from_fuel_entry`. */
    method UpdateOdometerFromFuelEntry(created: bool)
      modifies vehicle
      ensures vehicle.currentOdometer == NewOdometer(old(vehicle.currentOdometer), odometerReading)
      ensures vehicle.saves == if odometerReading > old(vehicle.currentOdometer) then old(vehicle.saves) + 1 else old(vehicle.saves)
    {
      RecordReading(vehicle, odometerReading, created);
    }
  }

  class ServiceLog {
    var vehicle: Vehicle
    var costParts: real
    var costLabor: real
    var totalCost: Option<real>
    var odometerReading: nat
    var persisted: bool

    constructor(vehicle: Vehicle, costParts: real, costLabor: real, totalCost: Option<real>, odometerReading: nat)
      ensures this.vehicle == vehicle && this.costParts == costParts && this.costLabor == costLabor
      ensures this.totalCost == totalCost && this.odometerReading == odometerReading && !persisted
    {
      this.vehicle := vehicle;
      this.costParts := costParts;
      this.costLabor := costLabor;
      this.totalCost := totalCost;
      this.odometerReading := odometerReading;
      persisted := false;
    }

    /**
     * `save`: a missing or zero total becomes parts plus labour; a given
     * total is kept even when it differs from their sum. Then the log is
     * persisted and the post-save handler runs.
     */
    method Save()
      modifies this, vehicle
      ensures totalCost == Some(AutoTotal(old(totalCost), costParts + costLabor))
      ensures persisted
      ensures vehicle == old(vehicle) && costParts == old(costParts) && costLabor == old(costLabor)
      ensures odometerReading == old(odometerReading)
      ensures vehicle.currentOdometer == NewOdometer(old(vehicle.currentOdometer), odometerReading)
      ensures vehicle.saves == if odometerReading > old(vehicle.currentOdometer) then old(vehicle.saves) + 1 else old(vehicle.saves)
    {
      if !Provided(totalCost) {
        totalCost := Some(costParts + costLabor);
      }
      var created := !persisted;
      persisted := true;
      UpdateOdometerFromServiceLog(created);
    }

    /** `update_odometer_from_service_log`. */
    method UpdateOdometerFromServiceLog(created: bool)
      modifies vehicle
      ensures vehicle.currentOdometer == NewOdometer(old(vehicle.currentOdometer), odometerReading)
      ensures vehicle.saves == if odometerReading > old(vehicle.currentOdometer) then old(vehicle.saves) + 1 else old(vehicle.saves)
    {
      RecordReading(vehicle, odometerReading, created);
    }
  }
}
