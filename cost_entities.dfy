/**
 * The records the cost engine reads: cost postings, transport orders and
 * cost centers, each owned by one company. Dates are ordinal day numbers
 * (see module Dates); money and distances are exact reals.
 */
module CostEntities {
  import opened Wrappers
  import opened Tenant

  /** A cost amount booked against a cost center for a period (bounds inclusive). */
  datatype CostPosting = CostPosting(
    id: Id, company: CompanyId, costCenterId: Id, amount: real, periodStart: int, periodEnd: int)

  /**
   * A transport order. `revenue` is `None` when the record has no such
   * attribute or it is null; `distanceKm` and `agreedPrice` likewise.
   */
  datatype TransportOrder = TransportOrder(
    id: Id, company: CompanyId, date: int, distanceKm: Option<real>,
    revenue: Option<real>, agreedPrice: Option<real>, assignedVehicleId: Option<Id>)

  /** A cost center: `ctype` is "VEHICLE", "OVERHEAD" or another type name. */
  datatype CostCenter = CostCenter(
    id: Id, company: CompanyId, name: string, ctype: string, vehicleId: Option<Id>, isActive: bool)

  const VEHICLE := "VEHICLE"
  const OVERHEAD := "OVERHEAD"

  const OK := "OK"
  const MISSING_ACTIVITY := "MISSING_ACTIVITY"
  const MISSING_RATE := "MISSING_RATE"

  const KM := "KM"
  const HOUR := "HOUR"
  const TRIP := "TRIP"
  const REVENUE := "REVENUE"

  /** `VALID_BASIS_UNITS`. */
  predicate ValidBasisUnit(b: string) {
    b == KM || b == HOUR || b == TRIP || b == REVENUE
  }

  /** The basis units for which zero activity means "missing activity". */
  predicate ActivityBasis(b: string) {
    b == KM || b == HOUR || b == TRIP
  }

  /** No id occurs twice. */
  predicate Distinct(ids: seq<Id>) {
    forall i, j :: 0 <= i < j < |ids| ==> ids[i] != ids[j]
  }

  function PostingOwner(p: CostPosting): CompanyId { p.company }
  function OrderOwner(o: TransportOrder): CompanyId { o.company }
  function CenterOwner(c: CostCenter): CompanyId { c.company }
  function CenterId(c: CostCenter): int { c.id }
  function OrderId(o: TransportOrder): int { o.id }
}
