/**
 * What the two save operations of the cost engine persistence guarantee:
 * the dictionary format's four rows per cost center, the scoping of every
 * created row to the company, period and its own cost centers or orders,
 * what the lookups return afterwards, and that a save leaves other
 * companies' and periods' rows alone.
 */
module CostPersistProperties {
  import opened Wrappers
  import opened Values
  import opened Tenant
  import opened CostEntities
  import opened KeyedTable
  import opened CostPersist

  /** The row at position `j` of `BasisRows` is the row of the `j`-th basis unit. */
  lemma {:induction false} BasisRowsAt(company: CompanyId, ps: int, pe: int, cid: Id, rates: map<string, RawValue>,
                                       bases: seq<(string, string, string)>, j: int)
    requires 0 <= j < |bases|
    ensures BasisRows(company, ps, pe, cid, rates, bases)[j] == DictBasisRow(company, ps, pe, cid, rates, bases[j])
  {
    var front := bases[..|bases| - 1];
    if j < |front| {
      BasisRowsAt(company, ps, pe, cid, rates, front, j);
      assert front[j] == bases[j];
    }
  }

  /**
   * A usable dictionary-format entry yields four rows, for KM, HOUR, TRIP
   * and REVENUE in that order, all for the entry's cost center and sharing
   * its total cost; each basis reads its own units and rate fields (0 when
   * absent), and the status is the entry's (OK when falsy) except that
   * zero units on KM, HOUR or TRIP force MISSING_ACTIVITY.
   */
  lemma DictEntryRows(company: CompanyId, ps: int, pe: int, centers: seq<CostCenter>, id: int, fields: map<string, RawValue>)
    requires id != 0 && OwnsCenter(centers, id, company)
    ensures var r := DictSnapshotRows(company, ps, pe, centers, Some(id), DictItem(fields));
            && |r| == 4
            && r[0].basisUnit == KM && r[1].basisUnit == HOUR && r[2].basisUnit == TRIP && r[3].basisUnit == REVENUE
            && forall j :: 0 <= j < 4 ==>
                 && r[j].company == company && r[j].periodStart == ps && r[j].periodEnd == pe && r[j].costCenterId == id
                 && r[j].totalCost == ToDecimal(Get(fields, "total_cost"))
                 && r[j].totalUnits == ToDecimal(GetOrDefault(fields, DictBases[j].1, VDec(0.0)))
                 && r[j].rate == ToDecimal(GetOrDefault(fields, DictBases[j].2, VDec(0.0)))
                 && r[j].status == (if r[j].totalUnits == 0.0 && ActivityBasis(r[j].basisUnit) then MISSING_ACTIVITY
                                    else TextOr(Get(fields, "status"), OK))
  {
    var cid: Id := id;
    forall j | 0 <= j < 4 ensures BasisRows(company, ps, pe, cid, fields, DictBases)[j] == DictBasisRow(company, ps, pe, cid, fields, DictBases[j]) {
      BasisRowsAt(company, ps, pe, cid, fields, DictBases, j);
    }
  }

  /**
   * After a usable dictionary-format entry is saved into any table,
   * `get_cost_rate_snapshot` for each of its four keys finds exactly the
   * row written for it.
   */
  lemma DictEntryLookup(t: seq<SnapshotRow>, company: CompanyId, ps: int, pe: int, centers: seq<CostCenter>,
                        id: int, fields: map<string, RawValue>, j: int)
    requires id != 0 && OwnsCenter(centers, id, company) && 0 <= j < 4
    ensures var r := DictSnapshotRows(company, ps, pe, centers, Some(id), DictItem(fields));
            GetByKey(SaveRows(t, SnapshotKeyOf, r), SnapshotKeyOf, SnapshotKeyOf(r[j])) == Found(r[j])
  {
    var r := DictSnapshotRows(company, ps, pe, centers, Some(id), DictItem(fields));
    DictEntryRows(company, ps, pe, centers, id, fields);
    LookupAfterSaveDistinct(t, SnapshotKeyOf, r, j);
  }

  /** A created snapshot row belongs to the company and the period, and names one of the company's cost centers. */
  predicate SnapshotScoped(x: SnapshotRow, company: CompanyId, ps: int, pe: int, centers: seq<CostCenter>) {
    x.company == company && x.periodStart == ps && x.periodEnd == pe && OwnsCenter(centers, x.costCenterId, company)
  }

  /** A created breakdown row belongs to the company and the period, and names one of the company's orders. */
  predicate BreakdownScoped(x: BreakdownRow, company: CompanyId, ps: int, pe: int, orders: seq<TransportOrder>) {
    x.company == company && x.periodStart == ps && x.periodEnd == pe && OwnsOrder(orders, x.orderId, company)
  }

  lemma {:induction false} BasisRowsScoped(company: CompanyId, ps: int, pe: int, centers: seq<CostCenter>, cid: Id,
                                           rates: map<string, RawValue>, bases: seq<(string, string, string)>)
    requires OwnsCenter(centers, cid, company)
    ensures forall x :: x in BasisRows(company, ps, pe, cid, rates, bases) ==> SnapshotScoped(x, company, ps, pe, centers)
  {
    if bases != [] {
      BasisRowsScoped(company, ps, pe, centers, cid, rates, bases[..|bases| - 1]);
    }
  }

  lemma {:induction false} PairsScoped(company: CompanyId, ps: int, pe: int, centers: seq<CostCenter>, isDict: bool,
                                       pairs: seq<(Option<int>, Item)>)
    ensures forall x :: x in PairsSnapshotRows(company, ps, pe, centers, isDict, pairs) ==> SnapshotScoped(x, company, ps, pe, centers)
  {
    if pairs != [] {
      PairsScoped(company, ps, pe, centers, isDict, pairs[..|pairs| - 1]);
      var (maybeId, data) := pairs[|pairs| - 1];
      if isDict && |DictSnapshotRows(company, ps, pe, centers, maybeId, data)| == 4 {
        var cid: Id := maybeId.value;
        BasisRowsScoped(company, ps, pe, centers, cid, data.fields, DictBases);
      }
    }
  }

  /**
   * Every row `save_cost_rate_snapshots` creates is the company's, for the
   * period saved, and for a cost center of that company.
   */
  lemma SnapshotRowsScoped(company: CompanyId, ps: int, pe: int, centers: seq<CostCenter>, payload: Payload)
    ensures forall x :: x in SnapshotRowsOf(company, ps, pe, centers, payload) ==> SnapshotScoped(x, company, ps, pe, centers)
  {
    PairsScoped(company, ps, pe, centers, payload.DictPayload?, IterMappingOrList(payload));
  }

  lemma {:induction false} DictEntriesScoped(company: CompanyId, ps: int, pe: int, orders: seq<TransportOrder>,
                                             entries: seq<(RawValue, Item)>)
    ensures forall x :: x in DictEntriesBreakdownRows(company, ps, pe, orders, entries) ==> BreakdownScoped(x, company, ps, pe, orders)
  {
    if entries != [] {
      DictEntriesScoped(company, ps, pe, orders, entries[..|entries| - 1]);
    }
  }

  lemma {:induction false} ListItemsScoped(company: CompanyId, ps: int, pe: int, orders: seq<TransportOrder>, items: seq<Item>)
    ensures forall x :: x in ListItemsBreakdownRows(company, ps, pe, orders, items) ==> BreakdownScoped(x, company, ps, pe, orders)
  {
    if items != [] {
      ListItemsScoped(company, ps, pe, orders, items[..|items| - 1]);
    }
  }

  /**
   * Every row `save_order_cost_breakdowns` creates is the company's, for the
   * period saved, and for a transport order of that company.
   */
  lemma BreakdownRowsScoped(company: CompanyId, ps: int, pe: int, orders: seq<TransportOrder>, payload: Payload)
    ensures forall x :: x in BreakdownRowsOf(company, ps, pe, orders, payload) ==> BreakdownScoped(x, company, ps, pe, orders)
  {
    match payload
    case DictPayload(entries) => DictEntriesScoped(company, ps, pe, orders, entries);
    case ListPayload(items) => ListItemsScoped(company, ps, pe, orders, items);
    case OtherPayload =>
  }

  /**
   * `save_cost_rate_snapshots` leaves the rows of every other company and
   * every other period as they were.
   */
  lemma SnapshotSaveIsolated(t: seq<SnapshotRow>, company: CompanyId, ps: int, pe: int, centers: seq<CostCenter>,
                             payload: Payload, k: SnapshotKey)
    requires k.company != company || k.periodStart != ps || k.periodEnd != pe
    ensures var created := SnapshotRowsOf(company, ps, pe, centers, payload);
            RowsWithKey(SaveRows(t, SnapshotKeyOf, created), SnapshotKeyOf, k) == RowsWithKey(t, SnapshotKeyOf, k)
  {
    var created := SnapshotRowsOf(company, ps, pe, centers, payload);
    SnapshotRowsScoped(company, ps, pe, centers, payload);
    forall i | 0 <= i < |created| ensures SnapshotKeyOf(created[i]) != k {
      assert created[i] in created;
    }
    KeysOfMembers(created, SnapshotKeyOf, k);
    OtherKeysUnchanged(t, SnapshotKeyOf, created, k);
  }

  /**
   * `save_order_cost_breakdowns` leaves the rows of every other company and
   * every other period as they were.
   */
  lemma BreakdownSaveIsolated(t: seq<BreakdownRow>, company: CompanyId, ps: int, pe: int, orders: seq<TransportOrder>,
                              payload: Payload, k: BreakdownKey)
    requires k.company != company || k.periodStart != ps || k.periodEnd != pe
    ensures var created := BreakdownRowsOf(company, ps, pe, orders, payload);
            RowsWithKey(SaveRows(t, BreakdownKeyOf, created), BreakdownKeyOf, k) == RowsWithKey(t, BreakdownKeyOf, k)
  {
    var created := BreakdownRowsOf(company, ps, pe, orders, payload);
    BreakdownRowsScoped(company, ps, pe, orders, payload);
    forall i | 0 <= i < |created| ensures BreakdownKeyOf(created[i]) != k {
      assert created[i] in created;
    }
    KeysOfMembers(created, BreakdownKeyOf, k);
    OtherKeysUnchanged(t, BreakdownKeyOf, created, k);
  }

  /**
   * Saving a dictionary-format entry for a cost center a second time, with
   * any new figures, leaves the table as if only the second save had run:
   * the four old rows are replaced, not duplicated.
   */
  lemma DictResaveReplaces(t: seq<SnapshotRow>, company: CompanyId, ps: int, pe: int, centers: seq<CostCenter>,
                           id: int, first: map<string, RawValue>, second: map<string, RawValue>)
    requires id != 0 && OwnsCenter(centers, id, company)
    ensures var r1 := DictSnapshotRows(company, ps, pe, centers, Some(id), DictItem(first));
            var r2 := DictSnapshotRows(company, ps, pe, centers, Some(id), DictItem(second));
            SaveRows(SaveRows(t, SnapshotKeyOf, r1), SnapshotKeyOf, r2) == SaveRows(t, SnapshotKeyOf, r2)
  {
    var r1 := DictSnapshotRows(company, ps, pe, centers, Some(id), DictItem(first));
    var r2 := DictSnapshotRows(company, ps, pe, centers, Some(id), DictItem(second));
    DictEntryRows(company, ps, pe, centers, id, first);
    DictEntryRows(company, ps, pe, centers, id, second);
    ResaveSameKeys(t, SnapshotKeyOf, r1, r2);
  }
}
