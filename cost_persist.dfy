/**
 * `CostEnginePersistence`: writes cost engine results into the snapshot and
 * breakdown tables by deleting the rows with the same natural key and
 * creating the new one, and reads them back. Both save operations accept a
 * dictionary keyed by id or a list of dictionaries, and silently skip
 * entries they cannot use.
 */
module CostPersist {
  import opened Wrappers
  import opened Values
  import opened Tenant
  import opened CostEntities
  import opened KeyedTable

  /** A stored `CostRateSnapshot`. */
  datatype SnapshotRow = SnapshotRow(
    company: CompanyId, periodStart: int, periodEnd: int, costCenterId: Id, basisUnit: string,
    totalCost: real, totalUnits: real, rate: real, status: string)

  /** A stored `OrderCostBreakdown`. */
  datatype BreakdownRow = BreakdownRow(
    company: CompanyId, orderId: Id, periodStart: int, periodEnd: int,
    vehicleAlloc: real, overheadAlloc: real, directCost: real, totalCost: real,
    revenue: real, profit: real, margin: real, status: string)

  /** The natural key of a snapshot: company, period, cost center and basis unit. */
  datatype SnapshotKey = SnapshotKey(company: CompanyId, periodStart: int, periodEnd: int, costCenterId: Id, basisUnit: string)

  /** The natural key of a breakdown: company, order and period. */
  datatype BreakdownKey = BreakdownKey(company: CompanyId, orderId: Id, periodStart: int, periodEnd: int)

  function SnapshotKeyOf(r: SnapshotRow): SnapshotKey {
    SnapshotKey(r.company, r.periodStart, r.periodEnd, r.costCenterId, r.basisUnit)
  }

  function BreakdownKeyOf(r: BreakdownRow): BreakdownKey {
    BreakdownKey(r.company, r.orderId, r.periodStart, r.periodEnd)
  }

  /** One entry of a payload: a dictionary of fields, or something else. */
  datatype Item = DictItem(fields: map<string, RawValue>) | OtherItem

  /**
   * What a save receives: a dictionary from ids to entries (in insertion
   * order), a list or tuple of entries, or any other value.
   */
  datatype Payload = DictPayload(entries: seq<(RawValue, Item)>) | ListPayload(items: seq<Item>) | OtherPayload

  /**
   * `_iter_mapping_or_list`: (id, entry) pairs. Dictionary keys go through
   * `int(k)`, `None` where that raises; list entries carry no id; any other
   * payload gives nothing.
   */
  function IterMappingOrList(p: Payload): (r: seq<(Option<int>, Item)>)
    ensures p.DictPayload? ==> |r| == |p.entries| && forall i :: 0 <= i < |r| ==> r[i] == (IntOf(p.entries[i].0), p.entries[i].1)
    ensures p.ListPayload? ==> |r| == |p.items| && forall i :: 0 <= i < |r| ==> r[i] == (None, p.items[i])
    ensures p.OtherPayload? ==> r == []
  {
    match p
    case DictPayload(entries) => seq(|entries|, i requires 0 <= i < |entries| => (IntOf(entries[i].0), entries[i].1))
    case ListPayload(items) => seq(|items|, i requires 0 <= i < |items| => (None, items[i]))
    case OtherPayload => []
  }

  /** `CostCenter.all_objects.get(id=id, company=company)` finds a row. */
  predicate OwnsCenter(centers: seq<CostCenter>, id: int, company: CompanyId) {
    exists c :: c in centers && c.id == id && c.company == company
  }

  /** `TransportOrder.all_objects.get(id=id, company=company)` finds a row. */
  predicate OwnsOrder(orders: seq<TransportOrder>, id: int, company: CompanyId) {
    exists o :: o in orders && o.id == id && o.company == company
  }

  /** The four basis units of the dictionary format, with their unit and rate field names. */
  const DictBases: seq<(string, string, string)> := [
    (KM, "total_km", "rate_per_km"),
    (HOUR, "total_hours", "rate_per_hour"),
    (TRIP, "total_trips", "rate_per_trip"),
    (REVENUE, "total_revenue", "rate_per_revenue")]

  /**
   * The row the dictionary format writes for one basis unit: the shared
   * total cost, that basis's units and rate, and the given status (OK when
   * falsy) unless the units are 0 on an activity basis, which forces
   * MISSING_ACTIVITY.
   */
  function DictBasisRow(company: CompanyId, ps: int, pe: int, centerId: Id, rates: map<string, RawValue>,
                        basis: (string, string, string)): (r: SnapshotRow)
    ensures SnapshotKeyOf(r) == SnapshotKey(company, ps, pe, centerId, basis.0)
  {
    var units := ToDecimal(GetOrDefault(rates, basis.1, VDec(0.0)));
    var status := TextOr(Get(rates, "status"), OK);
    var status' := if units == 0.0 && ActivityBasis(basis.0) then MISSING_ACTIVITY else status;
    SnapshotRow(company, ps, pe, centerId, basis.0, ToDecimal(Get(rates, "total_cost")), units,
                ToDecimal(GetOrDefault(rates, basis.2, VDec(0.0))), status')
  }

  /**
   * The rows one dictionary-format entry yields: none when the key is not a
   * non-zero integer, the entry is not a dictionary or the cost center is
   * not the company's; otherwise one per basis unit KM, HOUR, TRIP, REVENUE.
   */
  function DictSnapshotRows(company: CompanyId, ps: int, pe: int, centers: seq<CostCenter>,
                            maybeId: Option<int>, data: Item): (r: seq<SnapshotRow>)
    ensures |r| == 0 || |r| == 4
    ensures |r| == 4 <==> maybeId.Some? && maybeId.value != 0 && data.DictItem? && OwnsCenter(centers, maybeId.value, company)
  {
    if maybeId.None? || maybeId.value == 0 || !data.DictItem? || !OwnsCenter(centers, maybeId.value, company) then []
    else
      var cid: Id := maybeId.value;
      BasisRows(company, ps, pe, cid, data.fields, DictBases)
  }

  /** The rows for a list of basis units, in that order. */
  function BasisRows(company: CompanyId, ps: int, pe: int, centerId: Id, rates: map<string, RawValue>,
                     bases: seq<(string, string, string)>): (r: seq<SnapshotRow>)
    ensures |r| == |bases|
  {
    if bases == [] then []
    else BasisRows(company, ps, pe, centerId, rates, bases[..|bases| - 1]) + [DictBasisRow(company, ps, pe, centerId, rates, bases[|bases| - 1])]
  }

  /**
   * The row one list-format entry yields: none unless it is a dictionary
   * whose `cost_center_id` (or else `cost_center`) converts to the id of one
   * of the company's cost centers; the basis defaults to KM and the status
   * to OK, with no missing-activity override.
   */
  function ListSnapshotRows(company: CompanyId, ps: int, pe: int, centers: seq<CostCenter>, data: Item): (r: seq<SnapshotRow>)
    ensures |r| <= 1
    ensures |r| == 1 <==> data.DictItem? && CenterIdField(data.fields).Some? && OwnsCenter(centers, CenterIdField(data.fields).value, company)
  {
    if !data.DictItem? then []
    else
      var id := CenterIdField(data.fields);
      if id.None? || !OwnsCenter(centers, id.value, company) then []
      else
        var cid: Id := id.value;
        var snap := data.fields;
        [SnapshotRow(company, ps, pe, cid, TextOr(Get(snap, "basis_unit"), KM), ToDecimal(Get(snap, "total_cost")),
                     ToDecimal(Get(snap, "total_units")), ToDecimal(Get(snap, "rate")), TextOr(Get(snap, "status"), OK))]
  }

  /** `int(snap.get("cost_center_id", snap.get("cost_center")))`, `None` when missing or when it raises. */
  function CenterIdField(snap: map<string, RawValue>): (r: Option<int>)
    ensures GetOrDefault(snap, "cost_center_id", Get(snap, "cost_center")).VNone? ==> r == None
  {
    var raw := GetOrDefault(snap, "cost_center_id", Get(snap, "cost_center"));
    if raw.VNone? then None else IntOf(raw)
  }

  /** The rows one (id, entry) pair yields, by payload format. */
  function EntrySnapshotRows(company: CompanyId, ps: int, pe: int, centers: seq<CostCenter>, isDict: bool,
                             pair: (Option<int>, Item)): (r: seq<SnapshotRow>)
    ensures |r| <= if isDict then 4 else 1
  {
    if isDict then DictSnapshotRows(company, ps, pe, centers, pair.0, pair.1)
    else ListSnapshotRows(company, ps, pe, centers, pair.1)
  }

  /** The rows a sequence of pairs yields, in order. */
  function PairsSnapshotRows(company: CompanyId, ps: int, pe: int, centers: seq<CostCenter>, isDict: bool,
                             pairs: seq<(Option<int>, Item)>): (r: seq<SnapshotRow>)
    ensures |r| <= (if isDict then 4 else 1) * |pairs|
  {
    if pairs == [] then []
    else PairsSnapshotRows(company, ps, pe, centers, isDict, pairs[..|pairs| - 1])
         + EntrySnapshotRows(company, ps, pe, centers, isDict, pairs[|pairs| - 1])
  }

  /** The rows `save_cost_rate_snapshots` creates, in the order it creates them: four per dictionary entry at most, one per list entry at most, none for any other payload. */
  function SnapshotRowsOf(company: CompanyId, ps: int, pe: int, centers: seq<CostCenter>, payload: Payload): (r: seq<SnapshotRow>)
    ensures payload.OtherPayload? ==> r == []
    ensures payload.DictPayload? ==> |r| <= 4 * |payload.entries|
    ensures payload.ListPayload? ==> |r| <= |payload.items|
  {
    PairsSnapshotRows(company, ps, pe, centers, payload.DictPayload?, IterMappingOrList(payload))
  }

  /** The breakdown row written for an entry: each amount through `_to_decimal`, status OK when falsy. */
  function BreakdownRowOf(company: CompanyId, orderId: Id, ps: int, pe: int, b: map<string, RawValue>): (r: BreakdownRow)
    ensures BreakdownKeyOf(r) == BreakdownKey(company, orderId, ps, pe)
  {
    BreakdownRow(company, orderId, ps, pe,
      ToDecimal(Get(b, "vehicle_alloc")), ToDecimal(Get(b, "overhead_alloc")), ToDecimal(Get(b, "direct_cost")),
      ToDecimal(Get(b, "total_cost")), ToDecimal(Get(b, "revenue")), ToDecimal(Get(b, "profit")),
      ToDecimal(Get(b, "margin")), TextOr(Get(b, "status"), OK))
  }

  /** A dictionary-format breakdown entry: its key must convert with `int()`, its value be a dictionary, its order the company's. */
  function DictBreakdownRows(company: CompanyId, ps: int, pe: int, orders: seq<TransportOrder>, entry: (RawValue, Item)): (r: seq<BreakdownRow>)
    ensures |r| <= 1
    ensures |r| == 1 <==> IntOf(entry.0).Some? && entry.1.DictItem? && OwnsOrder(orders, IntOf(entry.0).value, company)
    ensures |r| == 1 ==> r[0] == BreakdownRowOf(company, IntOf(entry.0).value, ps, pe, entry.1.fields)
  {
    var id := IntOf(entry.0);
    if id.None? || !entry.1.DictItem? || !OwnsOrder(orders, id.value, company) then []
    else
      var oid: Id := id.value;
      [BreakdownRowOf(company, oid, ps, pe, entry.1.fields)]
  }

  /** `b.get("order_id", b.get("transport_order_id"))`, `None` when falsy or when `int()` raises. */
  function OrderIdField(b: map<string, RawValue>): (r: Option<int>)
    ensures !Truthy(GetOrDefault(b, "order_id", Get(b, "transport_order_id"))) ==> r == None
  {
    var raw := GetOrDefault(b, "order_id", Get(b, "transport_order_id"));
    if !Truthy(raw) then None else IntOf(raw)
  }

  /** A list-format breakdown entry: a dictionary whose order id is truthy, converts, and names one of the company's orders. */
  function ListBreakdownRows(company: CompanyId, ps: int, pe: int, orders: seq<TransportOrder>, item: Item): (r: seq<BreakdownRow>)
    ensures |r| <= 1
    ensures |r| == 1 <==> item.DictItem? && OrderIdField(item.fields).Some? && OwnsOrder(orders, OrderIdField(item.fields).value, company)
    ensures |r| == 1 ==> r[0] == BreakdownRowOf(company, OrderIdField(item.fields).value, ps, pe, item.fields)
  {
    if !item.DictItem? then []
    else
      var id := OrderIdField(item.fields);
      if id.None? || !OwnsOrder(orders, id.value, company) then []
      else
        var oid: Id := id.value;
        [BreakdownRowOf(company, oid, ps, pe, item.fields)]
  }

  function DictEntriesBreakdownRows(company: CompanyId, ps: int, pe: int, orders: seq<TransportOrder>,
                                    entries: seq<(RawValue, Item)>): (r: seq<BreakdownRow>)
    ensures |r| <= |entries|
  {
    if entries == [] then []
    else DictEntriesBreakdownRows(company, ps, pe, orders, entries[..|entries| - 1])
         + DictBreakdownRows(company, ps, pe, orders, entries[|entries| - 1])
  }

  function ListItemsBreakdownRows(company: CompanyId, ps: int, pe: int, orders: seq<TransportOrder>,
                                  items: seq<Item>): (r: seq<BreakdownRow>)
    ensures |r| <= |items|
  {
    if items == [] then []
    else ListItemsBreakdownRows(company, ps, pe, orders, items[..|items| - 1])
         + ListBreakdownRows(company, ps, pe, orders, items[|items| - 1])
  }

  /** The rows of one more dictionary entry: those of the entries before it, then its own. */
  lemma DictEntriesBreakdownRowsSnoc(company: CompanyId, ps: int, pe: int, orders: seq<TransportOrder>,
                                     entries: seq<(RawValue, Item)>, i: nat)
    requires i < |entries|
    ensures DictEntriesBreakdownRows(company, ps, pe, orders, entries[..i + 1])
            == DictEntriesBreakdownRows(company, ps, pe, orders, entries[..i]) + DictBreakdownRows(company, ps, pe, orders, entries[i])
  {
    assert entries[..i + 1][..i] == entries[..i];
  }

  /** The rows of one more list item: those of the items before it, then its own. */
  lemma ListItemsBreakdownRowsSnoc(company: CompanyId, ps: int, pe: int, orders: seq<TransportOrder>, items: seq<Item>, i: nat)
    requires i < |items|
    ensures ListItemsBreakdownRows(company, ps, pe, orders, items[..i + 1])
            == ListItemsBreakdownRows(company, ps, pe, orders, items[..i]) + ListBreakdownRows(company, ps, pe, orders, items[i])
  {
    assert items[..i + 1][..i] == items[..i];
  }

  /**
   * The rows `save_order_cost_breakdowns` creates, in order, from a
   * dictionary or a list: at most one row per entry. The source iterates
   * any other truthy value too; the model gives no rows for it.
   */
  function BreakdownRowsOf(company: CompanyId, ps: int, pe: int, orders: seq<TransportOrder>, payload: Payload): (r: seq<BreakdownRow>)
    ensures payload.DictPayload? ==> |r| <= |payload.entries|
    ensures payload.ListPayload? ==> |r| <= |payload.items|
    ensures payload.OtherPayload? ==> r == []
  {
    match payload
    case DictPayload(entries) => DictEntriesBreakdownRows(company, ps, pe, orders, entries)
    case ListPayload(items) => ListItemsBreakdownRows(company, ps, pe, orders, items)
    case OtherPayload => []
  }

  /** The rows of one more basis unit: those of the units before it, then its own. */
  lemma BasisRowsSnoc(company: CompanyId, ps: int, pe: int, cid: Id, rates: map<string, RawValue>,
                      bases: seq<(string, string, string)>, j: nat)
    requires j < |bases|
    ensures BasisRows(company, ps, pe, cid, rates, bases[..j + 1])
            == BasisRows(company, ps, pe, cid, rates, bases[..j]) + [DictBasisRow(company, ps, pe, cid, rates, bases[j])]
  {
    assert bases[..j + 1][..j] == bases[..j];
  }

  /** The status rule of one basis unit in the dictionary format, step by step. */
  method BasisRowFor(company: CompanyId, ps: int, pe: int, cid: Id, rates: map<string, RawValue>, totalCost: real,
                     basis: (string, string, string)) returns (row: SnapshotRow)
    requires totalCost == ToDecimal(Get(rates, "total_cost"))
    ensures row == DictBasisRow(company, ps, pe, cid, rates, basis)
  {
    var (basisUnit, unitsField, rateField) := basis;
    var totalUnits := GetOrDefault(rates, unitsField, VDec(0.0));
    var rate := GetOrDefault(rates, rateField, VDec(0.0));
    var status := TextOr(Get(rates, "status"), OK);
    if ToDecimal(totalUnits) == 0.0 && ActivityBasis(basisUnit) {
      status := MISSING_ACTIVITY;
    }
    row := SnapshotRow(company, ps, pe, cid, basisUnit, totalCost, ToDecimal(totalUnits), ToDecimal(rate), status);
  }

  /** The dictionary-format body of the snapshot loop: four delete-then-create steps for a usable entry. */
  method WriteDictEntry(table: seq<SnapshotRow>, company: CompanyId, ps: int, pe: int, centers: seq<CostCenter>,
                        maybeId: Option<int>, data: Item) returns (table': seq<SnapshotRow>, rows: seq<SnapshotRow>)
    ensures rows == DictSnapshotRows(company, ps, pe, centers, maybeId, data)
    ensures table' == SaveRows(table, SnapshotKeyOf, rows)
  {
    table', rows := table, [];
    if maybeId.None? || maybeId.value == 0 || !data.DictItem? {
      return;
    }
    if !OwnsCenter(centers, maybeId.value, company) {
      return;
    }
    var cid: Id := maybeId.value;
    table', rows := WriteBasisRows(table, company, ps, pe, cid, data.fields, DictBases);
  }

  /** The inner loop of the dictionary format: one delete-then-create step per basis unit, in order. */
  method WriteBasisRows(table: seq<SnapshotRow>, company: CompanyId, ps: int, pe: int, cid: Id, rates: map<string, RawValue>,
                        bases: seq<(string, string, string)>) returns (table': seq<SnapshotRow>, rows: seq<SnapshotRow>)
    ensures rows == BasisRows(company, ps, pe, cid, rates, bases)
    ensures table' == SaveRows(table, SnapshotKeyOf, rows)
  {
    table', rows := table, [];
    var totalCost := ToDecimal(Get(rates, "total_cost"));
    var j := 0;
    while j < |bases|
      invariant 0 <= j <= |bases|
      invariant rows == BasisRows(company, ps, pe, cid, rates, bases[..j])
      invariant table' == SaveRows(table, SnapshotKeyOf, rows)
    {
      var row := BasisRowFor(company, ps, pe, cid, rates, totalCost, bases[j]);
      BasisRowsSnoc(company, ps, pe, cid, rates, bases, j);
      SaveRowsSnoc(table, SnapshotKeyOf, rows, row);
      table' := Replace(table', SnapshotKeyOf, row);
      rows := rows + [row];
      j := j + 1;
    }
    assert bases[..j] == bases;
  }

  /** The list-format body of the snapshot loop: at most one delete-then-create step. */
  method WriteListEntry(table: seq<SnapshotRow>, company: CompanyId, ps: int, pe: int, centers: seq<CostCenter>, data: Item)
    returns (table': seq<SnapshotRow>, rows: seq<SnapshotRow>)
    ensures rows == ListSnapshotRows(company, ps, pe, centers, data)
    ensures table' == SaveRows(table, SnapshotKeyOf, rows)
  {
    table', rows := table, [];
    if !data.DictItem? {
      return;
    }
    var snap := data.fields;
    var costCenterId := CenterIdField(snap);
    if costCenterId.None? || !OwnsCenter(centers, costCenterId.value, company) {
      return;
    }
    var cid: Id := costCenterId.value;
    var basisUnit := TextOr(Get(snap, "basis_unit"), KM);
    var row := SnapshotRow(company, ps, pe, cid, basisUnit, ToDecimal(Get(snap, "total_cost")),
                           ToDecimal(Get(snap, "total_units")), ToDecimal(Get(snap, "rate")), TextOr(Get(snap, "status"), OK));
    table' := Replace(table', SnapshotKeyOf, row);
    rows := [row];
    assert rows[..0] == [];
  }

  /** One entry of the snapshot loop, in the payload's format. */
  method WriteEntry(table: seq<SnapshotRow>, company: CompanyId, ps: int, pe: int, centers: seq<CostCenter>, isDict: bool,
                    pair: (Option<int>, Item)) returns (table': seq<SnapshotRow>, rows: seq<SnapshotRow>)
    ensures rows == EntrySnapshotRows(company, ps, pe, centers, isDict, pair)
    ensures table' == SaveRows(table, SnapshotKeyOf, rows)
  {
    if isDict {
      table', rows := WriteDictEntry(table, company, ps, pe, centers, pair.0, pair.1);
    } else {
      table', rows := WriteListEntry(table, company, ps, pe, centers, pair.1);
    }
  }

  /** The rows of one more pair: those of the pairs before it, then its own. */
  lemma PairsSnapshotRowsSnoc(company: CompanyId, ps: int, pe: int, centers: seq<CostCenter>, isDict: bool,
                              pairs: seq<(Option<int>, Item)>, i: nat)
    requires i < |pairs|
    ensures PairsSnapshotRows(company, ps, pe, centers, isDict, pairs[..i + 1])
            == PairsSnapshotRows(company, ps, pe, centers, isDict, pairs[..i]) + EntrySnapshotRows(company, ps, pe, centers, isDict, pairs[i])
  {
    assert pairs[..i + 1][..i] == pairs[..i];
  }

  /**
   * The loop of `save_cost_rate_snapshots` on the snapshot table: the rows
   * created are those the payload yields, in order, and the table is the
   * given one with each of them written by delete-then-create.
   */
  method WriteSnapshots(table: seq<SnapshotRow>, company: CompanyId, ps: int, pe: int, centers: seq<CostCenter>, payload: Payload)
    returns (table': seq<SnapshotRow>, created: seq<SnapshotRow>)
    ensures created == SnapshotRowsOf(company, ps, pe, centers, payload)
    ensures table' == SaveRows(table, SnapshotKeyOf, created)
  {
    table', created := table, [];
    var isDict := payload.DictPayload?;
    var pairs := IterMappingOrList(payload);
    var i := 0;
    while i < |pairs|
      invariant 0 <= i <= |pairs|
      invariant created == PairsSnapshotRows(company, ps, pe, centers, isDict, pairs[..i])
      invariant table' == SaveRows(table, SnapshotKeyOf, created)
    {
      var rows;
      table', rows := WriteEntry(table', company, ps, pe, centers, isDict, pairs[i]);
      PairsSnapshotRowsSnoc(company, ps, pe, centers, isDict, pairs, i);
      SaveRowsAppend(table, SnapshotKeyOf, created, rows);
      created := created + rows;
      i := i + 1;
    }
    assert pairs[..i] == pairs;
  }

  /** One dictionary-format breakdown entry: skipped, or one delete-then-create step. */
  method WriteDictBreakdown(table: seq<BreakdownRow>, company: CompanyId, ps: int, pe: int, orders: seq<TransportOrder>,
                            entry: (RawValue, Item)) returns (table': seq<BreakdownRow>, rows: seq<BreakdownRow>)
    ensures rows == DictBreakdownRows(company, ps, pe, orders, entry)
    ensures table' == SaveRows(table, BreakdownKeyOf, rows)
  {
    table', rows := table, [];
    var orderId := IntOf(entry.0);
    if orderId.None? {
      return;
    }
    var data := entry.1;
    if !data.DictItem? {
      return;
    }
    if !OwnsOrder(orders, orderId.value, company) {
      return;
    }
    var oid: Id := orderId.value;
    var row := BreakdownRowOf(company, oid, ps, pe, data.fields);
    table' := Replace(table', BreakdownKeyOf, row);
    rows := [row];
    assert rows[..0] == [];
  }

  /** One list-format breakdown entry: skipped, or one delete-then-create step. */
  method WriteListBreakdown(table: seq<BreakdownRow>, company: CompanyId, ps: int, pe: int, orders: seq<TransportOrder>, b: Item)
    returns (table': seq<BreakdownRow>, rows: seq<BreakdownRow>)
    ensures rows == ListBreakdownRows(company, ps, pe, orders, b)
    ensures table' == SaveRows(table, BreakdownKeyOf, rows)
  {
    table', rows := table, [];
    if !b.DictItem? {
      return;
    }
    var orderId := OrderIdField(b.fields);
    if orderId.None? {
      return;
    }
    if !OwnsOrder(orders, orderId.value, company) {
      return;
    }
    var oid: Id := orderId.value;
    var row := BreakdownRowOf(company, oid, ps, pe, b.fields);
    table' := Replace(table', BreakdownKeyOf, row);
    rows := [row];
    assert rows[..0] == [];
  }

  /** The dictionary-format loop of `save_order_cost_breakdowns` on the breakdown table. */
  method WriteDictBreakdowns(table: seq<BreakdownRow>, company: CompanyId, ps: int, pe: int, orders: seq<TransportOrder>,
                             entries: seq<(RawValue, Item)>) returns (table': seq<BreakdownRow>, created: seq<BreakdownRow>)
    ensures created == DictEntriesBreakdownRows(company, ps, pe, orders, entries)
    ensures table' == SaveRows(table, BreakdownKeyOf, created)
  {
    table', created := table, [];
    var i := 0;
    while i < |entries|
      invariant 0 <= i <= |entries|
      invariant created == DictEntriesBreakdownRows(company, ps, pe, orders, entries[..i])
      invariant table' == SaveRows(table, BreakdownKeyOf, created)
    {
      var rows;
      table', rows := WriteDictBreakdown(table', company, ps, pe, orders, entries[i]);
      DictEntriesBreakdownRowsSnoc(company, ps, pe, orders, entries, i);
      SaveRowsAppend(table, BreakdownKeyOf, created, rows);
      created := created + rows;
      i := i + 1;
    }
    assert entries[..i] == entries;
  }

  /** The list-format loop of `save_order_cost_breakdowns` on the breakdown table. */
  method WriteListBreakdowns(table: seq<BreakdownRow>, company: CompanyId, ps: int, pe: int, orders: seq<TransportOrder>,
                             items: seq<Item>) returns (table': seq<BreakdownRow>, created: seq<BreakdownRow>)
    ensures created == ListItemsBreakdownRows(company, ps, pe, orders, items)
    ensures table' == SaveRows(table, BreakdownKeyOf, created)
  {
    table', created := table, [];
    var i := 0;
    while i < |items|
      invariant 0 <= i <= |items|
      invariant created == ListItemsBreakdownRows(company, ps, pe, orders, items[..i])
      invariant table' == SaveRows(table, BreakdownKeyOf, created)
    {
      var rows;
      table', rows := WriteListBreakdown(table', company, ps, pe, orders, items[i]);
      ListItemsBreakdownRowsSnoc(company, ps, pe, orders, items, i);
      SaveRowsAppend(table, BreakdownKeyOf, created, rows);
      created := created + rows;
      i := i + 1;
    }
    assert items[..i] == items;
  }

  /**
   * The two tables, holding the rows of every company (the methods go
   * through `all_objects`, and scope by the company argument themselves).
   * Each save runs in one transaction, so it is modelled as computing the
   * new table and then committing it.
   */
  class CostEnginePersistence {
    var snapshots: seq<SnapshotRow>
    var breakdowns: seq<BreakdownRow>

    constructor (snapshots0: seq<SnapshotRow>, breakdowns0: seq<BreakdownRow>)
      ensures snapshots == snapshots0 && breakdowns == breakdowns0
    {
      snapshots := snapshots0;
      breakdowns := breakdowns0;
    }

    /**
     * `save_cost_rate_snapshots`: the created rows are those the payload
     * yields, in order, and the table is the old one with each of them
     * written by delete-then-create.
     */
    method SaveCostRateSnapshots(company: CompanyId, ps: int, pe: int, centers: seq<CostCenter>, payload: Payload)
      returns (created: seq<SnapshotRow>)
      modifies this
      ensures created == SnapshotRowsOf(company, ps, pe, centers, payload)
      ensures snapshots == SaveRows(old(snapshots), SnapshotKeyOf, created)
      ensures breakdowns == old(breakdowns)
    {
      var table;
      table, created := WriteSnapshots(snapshots, company, ps, pe, centers, payload);
      snapshots := table;
    }

    /**
     * `save_order_cost_breakdowns`: the created rows are those the payload
     * yields, in order, each written by delete-then-create.
     */
    method SaveOrderCostBreakdowns(company: CompanyId, ps: int, pe: int, orders: seq<TransportOrder>, payload: Payload)
      returns (created: seq<BreakdownRow>)
      modifies this
      ensures created == BreakdownRowsOf(company, ps, pe, orders, payload)
      ensures breakdowns == SaveRows(old(breakdowns), BreakdownKeyOf, created)
      ensures snapshots == old(snapshots)
    {
      var table;
      if payload.DictPayload? {
        table, created := WriteDictBreakdowns(breakdowns, company, ps, pe, orders, payload.entries);
      } else {
        var items := if payload.ListPayload? then payload.items else [];
        table, created := WriteListBreakdowns(breakdowns, company, ps, pe, orders, items);
      }
      breakdowns := table;
    }

    /** `get_cost_rate_snapshot`: the row with this natural key; several rows make `.get()` raise. */
    function GetCostRateSnapshot(company: CompanyId, ps: int, pe: int, costCenterId: Id, basisUnit: string): (r: Lookup<SnapshotRow>)
      reads this
      ensures r == NotFound <==> forall x :: x in snapshots ==> SnapshotKeyOf(x) != SnapshotKey(company, ps, pe, costCenterId, basisUnit)
      ensures r.Found? ==> r.row in snapshots && SnapshotKeyOf(r.row) == SnapshotKey(company, ps, pe, costCenterId, basisUnit)
      ensures r.Found? <==> |RowsWithKey(snapshots, SnapshotKeyOf, SnapshotKey(company, ps, pe, costCenterId, basisUnit))| == 1
      ensures r.Found? ==> r.row == RowsWithKey(snapshots, SnapshotKeyOf, SnapshotKey(company, ps, pe, costCenterId, basisUnit))[0]
      ensures r == MultipleFound <==> |RowsWithKey(snapshots, SnapshotKeyOf, SnapshotKey(company, ps, pe, costCenterId, basisUnit))| > 1
    {
      GetByKey(snapshots, SnapshotKeyOf, SnapshotKey(company, ps, pe, costCenterId, basisUnit))
    }

    /** `get_order_cost_breakdown`: the row with this natural key; several rows make `.get()` raise. */
    function GetOrderCostBreakdown(company: CompanyId, ps: int, pe: int, orderId: Id): (r: Lookup<BreakdownRow>)
      reads this
      ensures r == NotFound <==> forall x :: x in breakdowns ==> BreakdownKeyOf(x) != BreakdownKey(company, orderId, ps, pe)
      ensures r.Found? ==> r.row in breakdowns && BreakdownKeyOf(r.row) == BreakdownKey(company, orderId, ps, pe)
      ensures r.Found? <==> |RowsWithKey(breakdowns, BreakdownKeyOf, BreakdownKey(company, orderId, ps, pe))| == 1
      ensures r.Found? ==> r.row == RowsWithKey(breakdowns, BreakdownKeyOf, BreakdownKey(company, orderId, ps, pe))[0]
      ensures r == MultipleFound <==> |RowsWithKey(breakdowns, BreakdownKeyOf, BreakdownKey(company, orderId, ps, pe))| > 1
    {
      GetByKey(breakdowns, BreakdownKeyOf, BreakdownKey(company, orderId, ps, pe))
    }

    /** `get_all_cost_rate_snapshots`: the company's rows whose period is exactly [ps, pe], in table order. */
    function GetAllCostRateSnapshots(company: CompanyId, ps: int, pe: int): (r: seq<SnapshotRow>)
      reads this
      ensures forall x :: x in r <==> x in snapshots && x.company == company && x.periodStart == ps && x.periodEnd == pe
      ensures multiset(r) <= multiset(snapshots)
    {
      RowsOfPeriod(snapshots, SnapshotScope, company, ps, pe)
    }

    /** `get_all_order_cost_breakdowns`: the company's rows whose period is exactly [ps, pe], in table order. */
    function GetAllOrderCostBreakdowns(company: CompanyId, ps: int, pe: int): (r: seq<BreakdownRow>)
      reads this
      ensures forall x :: x in r <==> x in breakdowns && x.company == company && x.periodStart == ps && x.periodEnd == pe
      ensures multiset(r) <= multiset(breakdowns)
    {
      RowsOfPeriod(breakdowns, BreakdownScope, company, ps, pe)
    }
  }

  /** The rows of `company` whose period is exactly [ps, pe], in table order: `.filter(company=..., period_start=..., period_end=...)`. */
  function RowsOfPeriod<R(==,!new)>(t: seq<R>, scope: R -> (CompanyId, int, int), company: CompanyId, ps: int, pe: int): (r: seq<R>)
    ensures forall x :: x in r <==> x in t && scope(x) == (company, ps, pe)
    ensures multiset(r) <= multiset(t)
  {
    if t == [] then []
    else
      var x := t[|t| - 1];
      assert t == t[..|t| - 1] + [x];
      RowsOfPeriod(t[..|t| - 1], scope, company, ps, pe) + (if scope(x) == (company, ps, pe) then [x] else [])
  }

  function SnapshotScope(r: SnapshotRow): (CompanyId, int, int) {
    (r.company, r.periodStart, r.periodEnd)
  }

  function BreakdownScope(r: BreakdownRow): (CompanyId, int, int) {
    (r.company, r.periodStart, r.periodEnd)
  }
}
