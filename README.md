# A verified model of the GreekFleet360 cost core

GreekFleet360 is a multi-tenant fleet-management application for transport companies. This project models its core in Dafny and proves properties of that model. The core covers:

- **Tenant scoping** (`tenant.dfy`). A thread-local slot holds the current company. Every tenant-owned query filters on it, and returns nothing when the slot is empty. A context manager and the request middleware set the slot, and clear it (set it to None) afterwards; they do not restore an earlier value.
- **The cost engine** (`cost_entities.dfy`, `cost_queries.dfy`, `cost_aggregations.dfy`, `cost_snapshots.dfy`, `cost_calculator.dfy`, `cost_engine_properties.dfy`):
  - the period queries over postings and orders;
  - the per-cost-center totals;
  - the rate snapshots for every basis unit, with a zero-activity period giving rate 0 and status `MISSING_ACTIVITY`;
  - the per-order breakdowns, where profit is revenue less total cost and the margin is 0 on zero revenue;
  - the calculation summary.
- **Snapshot persistence** (`keyed_table.dfy`, `cost_persist.dfy`, `cost_persist_properties.dfy`). For each natural key, the store deletes the old row and creates the new one inside one atomic unit, so recomputing never duplicates a row.
- **Analytics and the read-only API**:
  - `dates.dfy` and `iso_dates.dfy`: calendar arithmetic and ISO dates;
  - `kpis.dfy` and `kpi_trend.dfy`: the KPI summary, the cost structure and the monthly and weekly trend;
  - `ordering.dfy` and `history.dfy`: the stored-history report;
  - `api_views.dfy` and `kpi_views.dfy`: query-parameter validation for the v1 API views.
- **The surrounding rules the core reads** (`expenses.dfy`, `employee.dfy`, `legacy_costs.dfy`, `operations.dfy`):
  - company expense weights and amortisation;
  - employee yearly cost;
  - the older trip-profitability calculator and freight pricing engine;
  - fuel-entry and service-log totals with the odometer signal handlers.
- **The company form's tax-id rule** (`tax_id.dfy`) and **two text-normalisation scripts** (`normalize_text.dfy`).
- **Shared helpers** (`wrappers.dfy`, `values.dfy`, `text.dfy`): Option and Result, the loose value conversions the views and the persistence apply, and the Python string operations the code relies on.

Money is modelled as `real`, dates as day ordinals (`date.toordinal()`), and strings as `seq<char>`. Objects whose fields the code updates in place are classes:
- the tenant slot;
- the persistence service with its two tables;
- the vehicle, fuel entry and service log.

The rest is datatypes and functions. Where a function carries a loop in the source (the aggregations, the snapshot and breakdown builders, the save loops, the consumption average), the loop is a method proved equal to a reference function. The properties are then proved about that reference function.

`finance/services.py` holds a copy of the legacy `CostCalculator` from `finance/legacy_services.py`, with its lines shifted up by three. It is modelled once, and the table cites the legacy file.

## Model

| member | source | states |
|---|---|---|
| Tenant.TenantSlot.constructor | core/mixins.py:8-9 | A fresh thread-local slot holds no company. |
| Tenant.TenantSlot.SetCurrentCompany | core/mixins.py:12-19 | Setting the slot stores exactly the given company (or none). |
| Tenant.SetThenGet | core/mixins.py:12-29 | After two sets, reading the slot returns the value of the last set. |
| Tenant.TenantSlot.GetCurrentCompany | core/mixins.py:22-29 | Reading the slot returns exactly the company it holds, None when empty; SetThenGet shows that this is the value of the last set. |
| Tenant.ScopedFilter | core/mixins.py:43-60 | With no current company the scoped query is empty; otherwise it holds exactly the rows owned by the current company. |
| Tenant.ScopedIsSubsetOfAll | core/mixins.py:84-88 | Every scoped row is also a row of the unscoped `all_objects` manager. |
| Tenant.ScopedSubMultiset | core/mixins.py:53-55 | A scoped query returns no row more often than the table holds it. |
| Tenant.ScopedKeepsOrder | core/mixins.py:53-55 | Scoped rows keep the table order: two kept rows appear in the order of their table positions. |
| Tenant.ScopedDisjoint | core/mixins.py:53-55 | Querysets scoped to two different companies share no row. |
| Tenant.GetById | core/mixins.py:43-60 | A lookup by id through the scoped manager finds only a current-company row with that id, and finds nothing when no company is set. |
| Tenant.FirstWithId | core/mixins.py:43-60 | The first row with the id is returned when one exists, and nothing otherwise. |
| Tenant.CrossTenantLookupFindsNothing | core/mixins.py:53-55 | When ids are unique, looking up another company's row by its id while scoped to `c` finds nothing. |
| Tenant.EnterScope | core/tenant_context.py:38-39 | Entering the context stores the company in the slot. |
| Tenant.ExitScope | core/tenant_context.py:44-46 | Leaving the context clears the slot to none rather than restoring the previous value. |
| Tenant.RunInContext | core/tenant_context.py:9-46 | The body reads exactly the company's rows; afterwards the slot is none, both on a normal exit and when the body raises, and a raised exception propagates. |
| Tenant.NestedScopes | core/tenant_context.py:38-46 | Inside a nested block reads see the inner company; after the inner block, still inside the outer one, reads see nothing. |
| Tenant.SequentialScopes | core/tenant_context.py:38-46 | Two blocks run one after the other each see only their own company's rows, and the slot is empty at the end. |
| Tenant.Request.constructor | core/middleware.py:20-32 | A new request carries its user and has no company attached yet. |
| Tenant.ProfileLookupOrder | core/middleware.py:36-41 | When every earlier profile name lacks a profile with a `company` attribute, the k-th name decides the company. |
| Tenant.NoProfileNoCompany | core/middleware.py:32-43 | When no profile has a `company` attribute, the lookup gives none. |
| Tenant.ProcessRequest | core/middleware.py:20-47 | An authenticated user gets the company of the first profile that has one; anyone else gets none. The result is written both to `request.company` and to the slot. |
| Tenant.AnonymousRequestSeesNothing | core/middleware.py:34-47 | After an anonymous request every scoped read is empty. |
| Tenant.ProcessResponse | core/middleware.py:49-61 | The response is returned unchanged and the slot is cleared. |
| Tenant.ProcessException | core/middleware.py:63-75 | The slot is cleared and the result is none, so the exception propagates. |
| CostQueries.OverlapFilter | finance/services/cost_engine/queries.py:23-27 | Keeps exactly the postings whose period meets `[ps, pe]`: start ≤ pe and end ≥ ps, none more often than the input holds it. |
| CostQueries.FetchCostPostings | finance/services/cost_engine/queries.py:9-29 | Returns exactly the postings of the current company whose period overlaps the requested one; the company argument plays no part. No posting is returned more often than the table holds it. |
| CostQueries.DateFilter | finance/services/cost_engine/queries.py:46-50 | Keeps exactly the orders dated within `[ps, pe]`, both ends included, none more often than the input holds it. |
| CostQueries.FetchTransportOrders | finance/services/cost_engine/queries.py:32-52 | Returns exactly the current company's orders dated within the period, none more often than the table holds it. |
| CostQueries.OrderRevenue | finance/services/cost_engine/queries.py:79-84 | Revenue is `revenue` when truthy, else `agreed_price` when truthy, else 0. |
| CostQueries.VehicleSumOutside | finance/services/cost_engine/queries.py:91-92 | A vehicle with no orders has per-vehicle sum 0, which is what `.get(v, 0)` starts from. |
| CostQueries.SumsByVehicleStep | finance/services/cost_engine/queries.py:88-92 | Adding one order to its vehicle's entry keeps every map entry equal to that vehicle's sum; an unassigned order leaves the map as it is. |
| CostQueries.GetOrderActivity | finance/services/cost_engine/queries.py:55-99 | Total km and revenue are the sums over all orders. Each vehicle map has exactly the assigned vehicles as keys, and each entry is the sum over that vehicle's orders. No orders gives zeros and empty maps. |
| CostQueries.VehicleSumsPartitionTotal | finance/services/cost_engine/queries.py:74-92 | The per-vehicle sums over distinct vehicles that cover every assigned one, plus the unassigned orders' share, equal the total. |
| CostQueries.VehicleKmAtMostTotal | finance/services/cost_engine/queries.py:74-92 | With non-negative distances, each vehicle's km lies between 0 and the total km. |
| CostAggregations.CenterCostOutside | finance/services/cost_engine/aggregations.py:19-24 | A cost center with no postings has total 0, the defaultdict's starting value. |
| CostAggregations.AggregatePostingsByCostCenter | finance/services/cost_engine/aggregations.py:9-24 | The map's keys are exactly the cost centers that have postings, and each value is the sum of that center's posting amounts. |
| CostAggregations.AggregateLookupIsCenterCost | finance/services/cost_engine/aggregations.py:19-24 | A lookup with default 0 gives the center's posting sum for every center, with postings or without. |
| CostAggregations.CenterCostsPartitionTotal | finance/services/cost_engine/aggregations.py:21-22 | The per-center totals over distinct centers that cover all postings add up to the sum of all amounts. |
| CostAggregations.CalculateRate | finance/services/cost_engine/aggregations.py:27-46 | Zero or missing units give (0, MISSING_ACTIVITY). Otherwise the status is OK and rate × units = cost. OK holds iff the units are present and non-zero. |
| CostAggregations.CalculateProfitMargin | finance/services/cost_engine/aggregations.py:49-72 | profit + cost = revenue. For positive revenue, margin × revenue = profit × 100; otherwise the margin is 0. |
| CostSnapshots.BuildCostCenterSnapshot | finance/services/cost_engine/snapshots.py:8-38 | The snapshot copies the center's id, name and type, the period, the basis, the cost and the units. Zero units give rate 0 and MISSING_ACTIVITY; otherwise rate × units = cost and the status is OK. |
| CostSnapshots.RateSpreadsCost | finance/services/cost_engine/snapshots.py:25 | For a snapshot built by the rate rule with non-zero units, rate × units gives back its cost. |
| CostSnapshots.BuildOrderBreakdown | finance/services/cost_engine/snapshots.py:41-71 | The breakdown carries vehicle and overhead allocations as given, zero direct and driver costs, and status OK. Its total is the sum of the four parts, and profit and margin are those of `calculate_profit_margin`. |
| CostSnapshots.FormatCalculationSummary | finance/services/cost_engine/snapshots.py:74-100 | The counts are the list lengths, and the totals are sums over the snapshots or breakdowns. The average margin is 0 for no breakdowns; otherwise it times the count gives the margin sum. |
| CostSnapshots.SummaryProfitLaw | finance/services/cost_engine/snapshots.py:85-98 | When every breakdown has profit = revenue − cost, the summary's total profit is total revenue minus the summed breakdown costs. |
| CostSnapshots.SumsProfitLaw | finance/services/cost_engine/snapshots.py:86-87 | Summed over breakdowns that keep profit = revenue − cost, the profits equal revenue minus cost. |
| CostCalculator.NormalizeBasisUnit | finance/services/cost_engine/calculator.py:40-42 | The result is always one of KM, HOUR, TRIP and REVENUE. It is the upper-cased value when that is valid, and KM otherwise (None, empty or unknown). |
| CostCalculator.NormalizeBasisUnitKeepsValid | finance/services/cost_engine/calculator.py:40-42 | A valid basis unit passes through unchanged. |
| CostCalculator.NormalizeBasisUnitIdempotent | finance/services/cost_engine/calculator.py:40-42 | Normalising an already normalised basis unit changes nothing. |
| CostCalculator.NormalizeSnapshot | finance/services/cost_engine/calculator.py:45-65 | The basis unit becomes valid. Zero units on an activity basis (KM, HOUR, TRIP) force MISSING_ACTIVITY. Otherwise the status is kept, with empty replaced by OK. No other field changes. |
| CostCalculator.NormalizeSnapshotIdempotent | finance/services/cost_engine/calculator.py:45-65 | Normalising a snapshot twice gives the same result as normalising it once. |
| CostCalculator.BuiltSnapshotIsNormal | finance/services/cost_engine/calculator.py:165-191 | The snapshots step 4 builds (KM or REVENUE basis) already pass normalisation unchanged. |
| CostCalculator.Overheads | finance/services/cost_engine/calculator.py:142-147 | The overhead list holds exactly the cost centers of type OVERHEAD. |
| CostCalculator.EngineVersion | finance/services/cost_engine/calculator.py:68-82 | The version is the ENGINE_VERSION value when set and non-empty, and "dev" otherwise. |
| CostCalculator.CenterLookups | finance/services/cost_engine/calculator.py:141-147 | One pass over the cost centers builds the vehicle-center map and the overhead list that their reference functions define. |
| CostCalculator.SnapshotOfCenter | finance/services/cost_engine/calculator.py:168-191 | Given the costs and activity aggregated as step 3 defines them, the loop body produces the normalised snapshot that the reference function gives for the center. |
| CostCalculator.BuildSnapshots | finance/services/cost_engine/calculator.py:166-191 | Step 4's loop produces one reference snapshot per cost center, in order. |
| CostCalculator.BuildRates | finance/services/cost_engine/calculator.py:197-203 | The rate table built in one pass maps each center id to the rate of its last snapshot. |
| CostCalculator.BreakdownOfOrder | finance/services/cost_engine/calculator.py:205-232 | The loop body gives the reference breakdown of the order. Revenue comes from revenue, else agreed price. A vehicle cost is distance × the rate of the vehicle's center; an overhead cost is revenue × the overhead rate. |
| CostCalculator.BuildBreakdowns | finance/services/cost_engine/calculator.py:194-232 | Step 5's loop produces one reference breakdown per order, in order. |
| CostCalculator.CalculateCompanyCosts | finance/services/cost_engine/calculator.py:114-259 | The whole run equals the reference run over the tenant-scoped tables. |
| CostEngineProperties.SnapshotIds | finance/services/cost_engine/calculator.py:168-191 | There is one snapshot per cost center, and snapshot j carries center j's id. |
| CostEngineProperties.CenterSnapshotLaw | finance/services/cost_engine/calculator.py:168-191 | A center's snapshot copies its id, name, type and period. Its cost is the center's posting total, and its basis and units come from the center type (REVENUE for overhead, KM with vehicle or total km otherwise). |
| CostEngineProperties.SnapshotOfEachCenter | finance/services/cost_engine/calculator.py:168-191 | Snapshot i matches center i in id, name, type, period and posting cost. Its basis and units follow that center's type. |
| CostEngineProperties.SnapshotStatusRule | finance/services/cost_engine/calculator.py:57-58 | Every snapshot is MISSING_ACTIVITY exactly when its units are zero, and its rate obeys the rate rule. |
| CostEngineProperties.BreakdownOfEachOrder | finance/services/cost_engine/calculator.py:205-232 | Breakdown j belongs to order j and carries that order's revenue. Its cost is the vehicle plus the overhead allocation, and its profit is revenue − cost. An order without a vehicle gets no vehicle cost; a run without an overhead center gets no overhead cost. |
| CostEngineProperties.RunSummary | finance/services/cost_engine/calculator.py:234-243 | The summary counts one snapshot per center and one breakdown per order. Its total profit is total revenue minus the summed breakdown cost. |
| CostEngineProperties.SnapshotCostsAreCenterCosts | finance/services/cost_engine/calculator.py:168-191 | The snapshots' costs add up to the posting totals of the centers, in order. |
| CostEngineProperties.SummaryCostIsPostingTotal | finance/services/cost_engine/calculator.py:163-191 | With distinct center ids, and every posted center among the centers, the summary's total cost is exactly the sum of all postings. |
| CostEngineProperties.RatesAt | finance/services/cost_engine/calculator.py:197-203 | A snapshot whose center id no other snapshot shares has its own rate in the rate table. |
| CostEngineProperties.VehicleCentersLast | finance/services/cost_engine/calculator.py:143-145 | The vehicle lookup maps a vehicle to the last VEHICLE center linked to it. |
| CostEngineProperties.NoOverheads | finance/services/cost_engine/calculator.py:149 | Without OVERHEAD centers the overhead list is empty. |
| CostEngineProperties.FirstOverheadAt | finance/services/cost_engine/calculator.py:149 | The overhead center allocated is the first OVERHEAD center in query order. |
| CostEngineProperties.RateOfCenter | finance/services/cost_engine/calculator.py:197-203 | With distinct center ids, the rate table holds snapshot k's rate under center k's id. |
| CostEngineProperties.VehicleAllocsSum | finance/services/cost_engine/calculator.py:216-223 | A vehicle's orders are charged, in total, its center's rate times the vehicle's km. |
| CostEngineProperties.OverheadAllocsSum | finance/services/cost_engine/calculator.py:225-229 | All orders together are charged the overhead rate times total revenue. |
| CostEngineProperties.VehicleCostConserved | finance/services/cost_engine/calculator.py:165-223 | With distinct ids and non-zero km for the vehicle, the vehicle costs allocated to its orders add up to exactly the posting cost of its (last) VEHICLE center. |
| CostEngineProperties.OverheadCostConserved | finance/services/cost_engine/calculator.py:165-229 | With distinct ids and non-zero total revenue, the overhead costs allocated add up to exactly the posting cost of the first OVERHEAD center. |
| CostEngineProperties.NoTenantNoCosts | finance/services/cost_engine/calculator.py:137-153 | Outside any tenant scope a run sees no data: no snapshots, no breakdowns and an all-zero summary. |
| CostEngineProperties.VehicleAllocsPerOrder | finance/services/cost_engine/calculator.py:216-223 | Every order of vehicle v is charged its distance times the rate of v's center. |
| CostEngineProperties.OverheadAllocsPerOrder | finance/services/cost_engine/calculator.py:225-229 | Every order is charged its revenue times the overhead center's rate. |
| CostEngineProperties.AllocProportional | finance/services/cost_engine/calculator.py:216-223 | When each of a vehicle's orders is charged its distance times a rate, the vehicle's allocations add up to the rate times its total distance. |
| CostEngineProperties.OverheadProportional | finance/services/cost_engine/calculator.py:225-229 | When each order is charged its revenue times a rate, the overhead allocations add up to the rate times the total revenue. |
| KeyedTable.GetByKey | finance/services/cost_engine/persist.py:310-319 | The lookup finds nothing exactly when no row has the key. It finds a row exactly when one row has the key, and then it is that row. Several rows with the key give `MultipleFound`, where `.get()` raises. |
| KeyedTable.WithoutKeysMembers | finance/services/cost_engine/persist.py:131-137 | Deleting by a set of keys leaves exactly the rows whose key is outside the set. |
| KeyedTable.RowsWithKeyMembers | finance/services/cost_engine/persist.py:131-137 | The rows with a key are exactly the table's rows that carry it. |
| KeyedTable.KeysOfMembers | finance/services/cost_engine/persist.py:129-155 | A key belongs to the keys of a batch exactly when some row of the batch carries it. |
| KeyedTable.SaveRowsShape | finance/services/cost_engine/persist.py:129-155 | Saving a batch row by row (delete by key, then create) removes every earlier row with one of the batch's keys and adds the batch's own surviving rows. |
| KeyedTable.SaveRowsAppend | finance/services/cost_engine/persist.py:129-155 | Saving two batches one after the other is saving their concatenation. |
| KeyedTable.ResaveReplaces | finance/services/cost_engine/persist.py:129-155 | Saving a second batch whose keys cover the first's fully replaces the first save. |
| KeyedTable.SaveRowsIdempotent | finance/services/cost_engine/persist.py:129-155 | Saving the same rows twice leaves the table as one save does. |
| KeyedTable.OneRowPerSavedKey | finance/services/cost_engine/persist.py:129-155 | After a save, each key of the batch has exactly one row: the batch's last row with that key. |
| KeyedTable.OtherKeysUnchanged | finance/services/cost_engine/persist.py:129-155 | After a save, the rows of every key outside the batch are unchanged. |
| KeyedTable.LookupAfterSave | finance/services/cost_engine/persist.py:310-319 | After a save, a lookup by one of the batch's keys finds the batch's last row with it. |
| KeyedTable.LookupAfterSaveDistinct | finance/services/cost_engine/persist.py:310-319 | When the batch's keys are distinct, a lookup by the key of row j finds row j. |
| KeyedTable.ResaveSameKeys | finance/services/cost_engine/persist.py:129-155 | A second batch with the same keys in the same order fully replaces the first. |
| KeyedTable.SaveKeepsOneRowPerKey | finance/services/cost_engine/persist.py:129-155 | A table with at most one row per key still has at most one after any save. |
| CostPersist.IterMappingOrList | finance/services/cost_engine/persist.py:34-59 | A dictionary payload yields its entries in order, each key converted by `int()` (None where that raises). A list yields (None, item) per item, and any other payload yields nothing. |
| CostPersist.DictBasisRow | finance/services/cost_engine/persist.py:119-154 | The row created for one basis unit carries the key (company, period, cost center, basis unit). |
| CostPersist.DictSnapshotRows | finance/services/cost_engine/persist.py:107-157 | A dictionary entry yields four rows when its key is a non-zero integer, its value is a dictionary and the cost center belongs to the company. Otherwise it yields none. |
| CostPersist.ListSnapshotRows | finance/services/cost_engine/persist.py:162-201 | A list entry yields one row exactly when it is a dictionary whose `cost_center_id` (or `cost_center`) converts to an integer naming one of the company's cost centers. Otherwise it yields none. |
| CostPersist.CenterIdField | finance/services/cost_engine/persist.py:166-168 | A missing cost center id gives no id. |
| CostPersist.BreakdownRowOf | finance/services/cost_engine/persist.py:242-297 | The breakdown row carries the key (company, order, period). |
| CostPersist.DictBreakdownRows | finance/services/cost_engine/persist.py:222-256 | A dictionary entry yields one row, built from its fields, exactly when its key converts to an integer, its value is a dictionary and the order belongs to the company. |
| CostPersist.OrderIdField | finance/services/cost_engine/persist.py:264-270 | A falsy `order_id`/`transport_order_id` gives no id. |
| CostPersist.ListBreakdownRows | finance/services/cost_engine/persist.py:261-298 | A list item yields one row, built from its fields, exactly when it is a dictionary with an order id that converts and names an order of the company. |
| CostPersist.BasisRowFor | finance/services/cost_engine/persist.py:129-154 | The loop body creates the row its reference function defines. |
| CostPersist.WriteDictEntry | finance/services/cost_engine/persist.py:107-157 | The rows of a dictionary entry are created, and the table is the keyed save of them. |
| CostPersist.WriteBasisRows | finance/services/cost_engine/persist.py:129-155 | The loop over basis units creates their rows in order, and the table ends up as the keyed save of those rows. |
| CostPersist.WriteListEntry | finance/services/cost_engine/persist.py:162-201 | A list entry's row (if any) is created, and the table ends up as the keyed save of it. |
| CostPersist.WriteSnapshots | finance/services/cost_engine/persist.py:88-203 | The loop over the payload creates exactly the reference rows, and the table ends up as the keyed save of them. |
| CostPersist.SnapshotRowsOf | finance/services/cost_engine/persist.py:69-203 | The reference rows the snapshot save creates: at most four per dictionary entry, at most one per list entry, and none for any other payload. SnapshotRowsScoped and DictEntryRows state which rows they are. |
| CostPersist.WriteDictBreakdown | finance/services/cost_engine/persist.py:222-256 | One dictionary entry's breakdown row is created and saved by key. |
| CostPersist.WriteListBreakdown | finance/services/cost_engine/persist.py:261-298 | One list item's breakdown row is created and saved by key. |
| CostPersist.WriteDictBreakdowns | finance/services/cost_engine/persist.py:220-258 | The loop over dictionary entries creates exactly the reference rows and saves them by key. |
| CostPersist.BreakdownRowsOf | finance/services/cost_engine/persist.py:207-299 | The reference rows the breakdown save creates: at most one per dictionary or list entry, and none for any other payload (see Left out). BreakdownRowsScoped states which rows they are. |
| CostPersist.WriteListBreakdowns | finance/services/cost_engine/persist.py:261-300 | The loop over list items creates exactly the reference rows and saves them by key. |
| CostPersist.CostEnginePersistence.constructor | finance/services/cost_engine/persist.py:62-65 | The service starts with the given snapshot and breakdown tables. |
| CostPersist.CostEnginePersistence.SaveCostRateSnapshots | finance/services/cost_engine/persist.py:67-203 | It returns the reference rows of the payload. The snapshot table becomes their keyed save, and the breakdown table is untouched. |
| CostPersist.CostEnginePersistence.SaveOrderCostBreakdowns | finance/services/cost_engine/persist.py:205-300 | It returns the reference rows of the payload. The breakdown table becomes their keyed save, and the snapshot table is untouched. |
| CostPersist.CostEnginePersistence.GetCostRateSnapshot | finance/services/cost_engine/persist.py:302-319 | None exactly when no snapshot has the key. The stored snapshot exactly when one snapshot has it. `MultipleFound` (a raise) exactly when several have it. |
| CostPersist.CostEnginePersistence.GetOrderCostBreakdown | finance/services/cost_engine/persist.py:321-336 | None exactly when no breakdown has the key. The stored breakdown exactly when one breakdown has it. `MultipleFound` (a raise) exactly when several have it. |
| CostPersist.CostEnginePersistence.GetAllCostRateSnapshots | finance/services/cost_engine/persist.py:338-350 | Exactly the stored snapshots of the company and period, none listed more often than it is stored. |
| CostPersist.CostEnginePersistence.GetAllOrderCostBreakdowns | finance/services/cost_engine/persist.py:352-364 | Exactly the stored breakdowns of the company and period, none listed more often than it is stored. |
| CostPersist.RowsOfPeriod | finance/services/cost_engine/persist.py:338-364 | The period filter both readers share keeps exactly the rows of the company whose period is exactly the one asked for, each no more often than the table holds it. |
| CostPersistProperties.DictEntryRows | finance/services/cost_engine/persist.py:119-155 | A valid dictionary entry yields four rows, for KM, HOUR, TRIP and REVENUE. Each carries the company, the period, the center, the shared total cost, that basis's units and rate (defaulting to 0), and the status (OK when falsy) unless zero units on an activity basis force MISSING_ACTIVITY. |
| CostPersistProperties.DictEntryLookup | finance/services/cost_engine/persist.py:129-155 | After saving a dictionary entry, each of its four basis units can be looked up and finds its own row. |
| CostPersistProperties.SnapshotRowsScoped | finance/services/cost_engine/persist.py:103-201 | Every snapshot row created belongs to the company, the period and one of the company's cost centers. |
| CostPersistProperties.BreakdownRowsScoped | finance/services/cost_engine/persist.py:220-298 | Every breakdown row created belongs to the company, the period and one of the company's orders. |
| CostPersistProperties.SnapshotSaveIsolated | finance/services/cost_engine/persist.py:131-137 | Saving snapshots never touches the rows of another company or another period. |
| CostPersistProperties.BreakdownSaveIsolated | finance/services/cost_engine/persist.py:235-240 | Saving breakdowns never touches the rows of another company or another period. |
| CostPersistProperties.DictResaveReplaces | finance/services/cost_engine/persist.py:129-155 | Saving a cost center's entry again replaces all four of its earlier rows. |
| CostPersist.WriteEntry | finance/services/cost_engine/persist.py:103-201 | One pass of the snapshot loop, in the payload's format, creates that entry's reference rows, and the table ends up as the keyed save of them. |
| Dates.DaysInMonth | finance/services/analytics/kpis.py:53 | The calendar length of a month is 28 to 31 days. |
| Dates.Weekday | finance/services/analytics/kpis.py:215 | The weekday of a day ordinal is 0 (Monday) to 6 (Sunday). |
| Dates.LastOfMonth | finance/services/analytics/kpis.py:53-54 | A month's last day is its first day plus its length minus one. |
| Dates.ToOrdinal | finance/services/analytics/kpis.py:44-54 | Dates are day numbers as in `date.toordinal()`, on which `date - timedelta(days=1)` rests: 0001-01-01 is day 1, so day d of January of year 1 is day d. |
| Dates.OrdinalWithinYear | finance/services/analytics/kpis.py:53-54 | A valid date's ordinal lies after every day of the earlier years and within its own year's days. |
| Dates.NextMonth | finance/services/analytics/kpis.py:204-207 | The month after (y, m) is a valid month whose running index is one more; December rolls over to January of the next year. |
| Dates.PrevMonth | finance/services/analytics/kpis.py:45-47 | The month before is a valid month whose next month is (y, m). |
| Dates.DaysBeforeNextYear | finance/services/analytics/kpis.py:53 | One more year adds exactly that year's length (365, or 366 in a Gregorian leap year). |
| Dates.NextMonthFirst | finance/services/analytics/kpis.py:204-207 | The first day of the next month directly follows the last day of this one. |
| Dates.MonthAfter | finance/services/analytics/kpis.py:197-207 | The month k steps on is valid, and its running index is k more. |
| Dates.SameMonthIndex | finance/services/analytics/kpis.py:197-207 | A month is determined by its running index. |
| Dates.MonthAfterStep | finance/services/analytics/kpis.py:204-207 | Advancing one more month from the k-th month gives the (k+1)-th. |
| Dates.FirstOfMonthMonotone | finance/services/analytics/kpis.py:198 | Later months start later. |
| Dates.EarlierMonthEndsBefore | finance/services/analytics/kpis.py:198-200 | An earlier month ends before a later one starts. |
| Dates.OrdWithinMonth | finance/services/analytics/kpis.py:197-201 | A day lies between the first and the last day of its month. |
| Dates.FirstOfMonthAtMost | finance/services/analytics/kpis.py:198 | A month starts on or before a day exactly when it is that day's month or an earlier one. |
| Dates.PreviousFullMonth | finance/services/analytics/kpis.py:42-48 | The result runs from day 1 to the last day of one month, and that last day is the day before the first of today's month. There is none only for January of year 1, where the date arithmetic leaves the calendar. |
| Dates.MonthRange | finance/services/analytics/kpis.py:51-54 | For a year of 1-9999 and a month of 1-12, the range runs from the month's first day to its last, which directly precedes the next month. Otherwise there is none (Python raises). |
| Kpis.OverlapBasisMembers | finance/services/analytics/kpis.py:145-151 | A row is selected exactly when its period overlaps [start, end] and, if a basis is given, it has that basis. |
| Kpis.StatusCountsBounded | finance/services/analytics/kpis.py:88-89 | The counts of two different statuses together never exceed the number of rows. |
| Kpis.SummaryRowsMembers | finance/services/analytics/kpis.py:76-82 | A snapshot is summarised exactly when it belongs to the current company, its period overlaps the requested one, and its basis is the upper-cased basis asked for. |
| Kpis.AverageRate | finance/services/analytics/kpis.py:98-103 | With positive units the average rate times the units is the cost. Otherwise it is the mean of the rates, and 0 for no rows. |
| Kpis.GetCompanySummary | finance/services/analytics/kpis.py:61-122 | The summary echoes the upper-cased basis and gives the cost and unit sums and the snapshot count. The two status counts together are at most the snapshot count. The average rate follows the weighted-or-mean rule, is 0 with no snapshots, and `cost_per_unit` equals it. |
| Kpis.SummaryWithoutTenant | finance/services/analytics/kpis.py:61-122 | Outside any tenant context the summary counts no snapshots and no cost. |
| Kpis.GroupByCenterFacts | finance/services/analytics/kpis.py:155-157 | Grouping by cost center gives one group per center with rows, each holding that center's summed cost, and the groups' total equals the rows' total. |
| Kpis.SortByCostFacts | finance/services/analytics/kpis.py:158 | Sorting by cost, highest first, gives a descending permutation of the groups, with the same centers and the same total. |
| Kpis.GroupedCostsFacts | finance/services/analytics/kpis.py:155-161 | The grouped rows have exactly one entry per cost center with rows, holding that center's summed cost, costliest first. Together they hold the cost of all rows. |
| Kpis.SharePct | finance/services/analytics/kpis.py:166-171 | The share is 0 when the grand total is not positive; otherwise cost / grand × 100, rounded to within half a cent. It is a whole number of hundredths. |
| Kpis.CenterName | finance/services/analytics/kpis.py:169 | The name is that of a cost center with the id; it is "" when there is none. |
| Kpis.StructureItemsOfCenters | finance/services/analytics/kpis.py:163-172 | Each item is its cost center's summed cost, its name and its share of the grand total. |
| Kpis.StructureItemsCover | finance/services/analytics/kpis.py:155-172 | Every cost center with rows has exactly one item, and the items run from costliest to cheapest. |
| Kpis.StructureOfGroups | finance/services/analytics/kpis.py:155-187 | Items built from the grouped rows, with their grand total, describe the cost structure of the rows. |
| Kpis.GetCostStructure | finance/services/analytics/kpis.py:129-187 | The result echoes basis and grouping as passed. Its total is the cost of all selected snapshots, which the items add up to. There is exactly one item per cost center, with its summed cost, name and share, costliest first. |
| KpiTrend.MonthBuckets | finance/services/analytics/kpis.py:194-208 | The loop yields one bucket per calendar month from the start's month to the end's, each the reference bucket. |
| KpiTrend.MonthBucketShape | finance/services/analytics/kpis.py:197-202 | Each month bucket lies within its calendar month. It is cut to the period's start in the first month and to the period's end in the last month, and is the whole month otherwise. |
| KpiTrend.MonthBucketsTile | finance/services/analytics/kpis.py:194-208 | The month buckets are one per month in the period: the first starts on the period's start, the last ends on its end, and each starts the day after the previous one ends. |
| KpiTrend.WeekBuckets | finance/services/analytics/kpis.py:211-221 | The loop yields the reference week buckets, in order. |
| KpiTrend.WeekStartIsMonday | finance/services/analytics/kpis.py:215-220 | The walk starts on the Monday of the start's week and stays on Mondays. |
| KpiTrend.WeekBucketsTile | finance/services/analytics/kpis.py:211-221 | The week buckets tile the period. The first starts on the period's start and the last ends on its end; each is at most seven days, starts the day after the previous one ends and, after the first, starts on a Monday. |
| KpiTrend.TrendPointOf | finance/services/analytics/kpis.py:253-273 | A point carries its bucket and the sums of cost and units over the bucket's snapshots. Its average rate is cost / units when units are positive and 0 otherwise. |
| KpiTrend.TrendPointWithoutTenant | finance/services/analytics/kpis.py:253-265 | Outside any tenant context every point is zero. |
| KpiTrend.BucketRowsMembers | finance/services/analytics/kpis.py:254-258 | A snapshot counts for a bucket exactly when it is the current company's, overlaps the bucket and has the basis. |
| KpiTrend.SeriesOf | finance/services/analytics/kpis.py:252-273 | The loop gives one reference point per bucket, in order. |
| KpiTrend.GetTrend | finance/services/analytics/kpis.py:224-284 | The grain is lower-cased and the basis upper-cased. "month" gives one point per month bucket; any other grain gives one point per week bucket. |
| Kpis.StructureItems | finance/services/analytics/kpis.py:163-172 | The loop makes one item per grouped row, in order: that row's center id, center name, cost and share of the grand total. |
| KpiTrend.MonthStep | finance/services/analytics/kpis.py:198-207 | One pass of the month loop yields the reference bucket of that month and moves to the first day of the next month, which is later. |
| KpiTrend.MonthWalkEnd | finance/services/analytics/kpis.py:198 | The month loop stops only after every month of the period has its bucket. |
| History.EffectiveLimit | finance/services/analytics/history.py:66-69 | The limit used is always between 1 and 2000. A non-positive request gives the default 500, a request within the cap is kept, and anything above it is capped at 2000. |
| History.SelectSnapshots | finance/services/analytics/history.py:72-84 | A snapshot is selected exactly when it overlaps the period and passes the optional cost center, upper-cased basis and only-nonzero filters. Only-nonzero drops a snapshot only when both its cost and its rate are zero. No snapshot is selected more often than it is stored. |
| History.SelectBreakdowns | finance/services/analytics/history.py:105-107 | A breakdown is selected exactly when its period overlaps the requested one, and no more often than it is stored. |
| History.PositiveRates | finance/services/analytics/history.py:138 | Only positive rates are kept. |
| History.PositiveMean | finance/services/analytics/history.py:138-139 | The average of the strictly positive rates is their mean, and is positive; it is 0 when there are none. |
| History.OrderWithId | finance/services/analytics/history.py:115 | It finds an order with the id when one exists, and nothing otherwise. |
| History.SnapshotEntries | finance/services/analytics/history.py:88-100 | The loop gives one entry per returned snapshot, in order, with its cost center's name. |
| History.BreakdownEntries | finance/services/analytics/history.py:114-133 | The loop gives one entry per returned breakdown, in order, joined with its order. |
| History.GetCostEngineHistory | finance/services/analytics/history.py:37-170 | The filters echo the request with the effective limit. The snapshot entries are the selected rows, and the summary gives their cost and unit sums, the positive-rate mean and both counts. Breakdowns are listed only when requested, and then one per selected breakdown row. |
| History.HistorySnapshotsSelected | finance/services/analytics/history.py:72-86 | Every listed snapshot belongs to the current company, overlaps the period and passes each filter given. |
| History.HistorySnapshotsShape | finance/services/analytics/history.py:75-86 | Exactly min(count, effective limit) of the matching snapshots are listed, newest period first, none more often than it is stored. Every matching snapshot left out starts no later than any listed one. When no more match than the limit, all of them are listed. |
| History.HistoryBreakdownsShape | finance/services/analytics/history.py:110-112 | Exactly min(count, effective limit) of the overlapping breakdowns are listed, newest period first, none more often than it is stored. Every one left out starts no later than any listed one. When no more match than the limit, all of them are listed. |
| History.HistoryBreakdownsSelected | finance/services/analytics/history.py:105-112 | Every listed breakdown belongs to the current company and overlaps the period. |
| History.HistoryWithoutTenant | finance/services/analytics/history.py:72-112 | Outside any tenant context nothing is listed. |
| Ordering.TakeSorted | finance/services/analytics/history.py:86 | Cutting ordered rows to the limit keeps exactly min(count, limit) of them, still ordered, none more often than it occurs. Every row cut off has a key no larger than any row kept, and every row is kept when no more than the limit are there. |
| ApiViews.ResolveCompany | finance/api/v1/views.py:154-187 | The only errors are 403 and 404. It answers 403 exactly when a `company_id` is given by someone who is not a superuser. A superuser gets the company with that integer id, or 404. Without the parameter: the request's company, then the user's, then (only in DEBUG) the first company, else 404. A non-superuser never reaches any other company. |
| ApiViews.ParseMonthParam | finance/api/v1/views.py:240-250 | A month parameter that parses gives the first and the last day of a valid month. |
| ApiViews.MonthSeparatorIgnored | finance/api/v1/views.py:243 | The character between the year and the month is never looked at. |
| ApiViews.ParseDatePair | finance/api/v1/views.py:251-270 | The pair is accepted exactly when both halves are given, both parse as ISO dates and the start is not after the end; then it is those two dates. Every error is 400. |
| ApiViews.MonthRangeOrdered | finance/api/v1/views.py:244-245 | The first day of a month comes no later than its last. |
| ApiViews.ParsePeriod | finance/api/v1/views.py:236-273 | `month` wins when given (400 if it does not parse). Otherwise the pair is used if either half is given, and otherwise the previous full month. Any period returned is two valid dates, start first. |
| ApiViews.ValidateBasisUnit | finance/api/v1/kpi_views.py:76-84 | It answers 400 exactly when a basis unit is given whose upper-cased form is not KM, HOUR, TRIP or REVENUE. Otherwise the parameter is passed on as given, and any given value is valid once upper-cased. |
| ApiViews.OptionalIntParam | finance/api/v1/views.py:279-306 | An absent or empty parameter gives none. A given one is accepted exactly when it parses as an integer, and then gives that integer; otherwise 400. |
| ApiViews.NonzeroSnapshots | finance/api/v1/views.py:118-134 | Exactly the snapshots whose cost or rate is positive are kept, and no more than were given. |
| ApiViews.KeepNonzero | finance/api/v1/views.py:120-134 | The filtering loop keeps exactly the snapshots the reference filter keeps, in order. |
| ApiViews.CostEngineRun | finance/api/v1/views.py:43-151 | A date error answers first, then a company error. Otherwise the result is the run inside that company's tenant scope, with the same meta and summary. Only-nonzero (default off) filters the snapshots, and breakdowns are dropped unless include_breakdowns is on (default on). |
| ApiViews.HistoryRequest | finance/api/v1/views.py:227-306 | The checks run in order (company, period, cost center id, basis unit, limit), and the first failure is the answer. The request is accepted exactly when all pass. The flags default to off and the limit to 500. Any accepted period is ordered. |
| ApiViews.CostEngineHistoryView | finance/api/v1/views.py:227-321 | A validated request is answered with the history of that company's stored rows, under the validated filters and the effective limit. Otherwise it takes the request's error. |
| KpiViews.KpiRequest | finance/api/v1/kpi_views.py:106-119 | Company, then period, then basis unit: the first failure is the answer, and the request is accepted exactly when all three pass. An accepted period is ordered and an accepted basis is valid. |
| KpiViews.SummaryBasis | finance/api/v1/kpi_views.py:120 | The basis is the parameter upper-cased when given, and KM otherwise. |
| KpiViews.SummaryBasisValid | finance/api/v1/kpi_views.py:117-120 | A validated request always reaches the summary with one of the four basis units. |
| KpiViews.KpiSummaryView | finance/api/v1/kpi_views.py:106-127 | A valid request gets the company summary of that company's snapshots, in a valid basis unit; an invalid one gets its error. |
| KpiViews.KpiCostStructureView | finance/api/v1/kpi_views.py:149-178 | After the common checks, a `group_by` other than `cost_center` answers 400. Otherwise the reply describes the cost structure of the company's snapshots for the period, with the basis filter passed on as given. |
| KpiViews.ValidGrainLower | finance/api/v1/kpi_views.py:217-218 | The valid grains are already lower-case. |
| KpiViews.TrendOfGrain | finance/api/v1/kpi_views.py:224-229 | For a valid grain, the trend returned is the one the reference buckets define. |
| KpiViews.KpiTrendView | finance/api/v1/kpi_views.py:201-231 | After the common checks, the lower-cased grain (default month) must be month or week, or the answer is 400. A valid request gets one point per bucket of the period, in a valid basis unit. |
| IsoDates.Digits | finance/api/v1/views.py:56-57 | Formatting a number to a width gives that many digit characters. |
| IsoDates.DigitsValueOfDigits | finance/api/v1/views.py:56-57 | Reading back a number formatted to a width big enough to hold it gives the number. |
| IsoDates.DigitsOfDigitsValue | finance/api/v1/views.py:56-57 | Formatting back the value of a digit string gives the string. |
| IsoDates.IsoFormat | finance/services/analytics/kpis.py:34-39 | `isoformat` gives ten characters with dashes at positions 4 and 7. |
| IsoDates.ParseIsoDate | finance/api/v1/views.py:56-57 | `date.fromisoformat` accepts only valid dates. |
| IsoDates.ParsedDateFormatsBack | finance/api/v1/views.py:56-57 | Any text it accepts is exactly the ISO form of the date it yields. |
| IsoDates.FormattedDateParsesBack | finance/api/v1/views.py:56-57 | The ISO form of any valid date parses back to that date. |
| Values.TruncToward0 | finance/services/cost_engine/persist.py:47 | `int()` of a number truncates toward zero: the result is within one of the value, and never beyond it in either direction. |
| Values.IntOf | finance/services/cost_engine/persist.py:46-49 | `int()` of an integer is that integer; None and unconvertible values raise (no id). |
| Values.ToDecimal | finance/services/cost_engine/calculator.py:29-37 | None and anything `Decimal(str(v))` rejects give 0. Integers and decimals keep their value, and a string gives the decimal it spells (0 if it spells none). |
| Values.ToDecimalIdempotent | finance/services/cost_engine/calculator.py:29-37 | Converting an already converted value changes nothing. |
| Values.TextOr | finance/services/cost_engine/persist.py:139 | `value or default`: a non-empty string is kept, and anything else gives the default. |
| Values.Quantize2 | finance/services/analytics/kpis.py:171 | Rounding to cents gives a whole number of cents within half a cent of the value. |
| Values.QuantizeWholeCents | finance/services/analytics/kpis.py:171 | A value already in whole cents is left unchanged. |
| Values.QuantizeIdempotent | finance/services/analytics/kpis.py:171 | Rounding to cents twice is rounding once. |
| Values.MeanOfPositive | finance/services/analytics/history.py:139 | A positive total shared over a positive count gives a positive mean, which times the count is the total. |
| Values.Mean | finance/services/cost_engine/snapshots.py:89-91 | The mean times the count is the total. |
| Text.Upper | finance/services/cost_engine/calculator.py:41 | Upper-casing keeps the length and upper-cases each ASCII letter in place; other characters are kept (see Left out). |
| Text.UpperFixed | finance/services/cost_engine/calculator.py:41-42 | A string with no lower-case ASCII letter is its own upper-case form under the ASCII mapping. |
| Text.UpperIdempotent | finance/services/cost_engine/calculator.py:41-42 | Upper-casing twice is upper-casing once. |
| Text.Lower | finance/services/analytics/kpis.py:244 | Lower-casing keeps the length and lower-cases each ASCII letter in place; other characters are kept (see Left out). |
| Text.Strip | web/forms.py:296 | A stripped string neither starts nor ends with whitespace. |
| Text.StripPadded | web/forms.py:296 | Stripping a string padded with whitespace on both sides gives it back, when it has no whitespace at its own ends. |
| Text.StripIdempotent | web/forms.py:296-301 | Stripping twice is stripping once. |
| Text.ParseInt | finance/api/v1/views.py:243 | `int(s)` succeeds only on text that is not blank once stripped. |
| Text.ParseDecimal | finance/services/cost_engine/calculator.py:35 | `Decimal(s)` succeeds only on text that is not blank once stripped. |
| Text.ParseDecimalOfInteger | finance/services/cost_engine/calculator.py:35 | A numeral without a decimal point reads the same as an integer and as a decimal. |
| Text.Slice | finance/api/v1/views.py:243 | Python slicing clamps both bounds, so the slice is never longer than j − i, and is empty when i > j. |
| Text.ReplaceCons | scripts/normalize_text_files.py:57 | Replacing a single character works one character at a time. |
| Text.Replace | scripts/normalize_text_files.py:57-64 | `str.replace`, left to right and non-overlapping: replacing a pattern by itself changes nothing, and a replacement of the same length keeps the length. |
| Text.MapChar | scripts/normalize_text_files.py:60 | Mapping one character to another keeps the length and changes exactly the positions that held it. |
| Text.ReplaceDropsChar | scripts/normalize_text_files.py:56-57 | Dropping one more character with `replace(c, '')` extends the set of dropped characters. |
| Text.ReplaceEachIsWithout | scripts/normalize_text_files.py:56-57 | Removing each character in turn drops exactly those characters and keeps the rest in order. |
| Text.ReplaceIsMapChar | scripts/normalize_text_files.py:60 | `replace(c, d)` on single characters is the position-by-position map. |
| Text.LineEndingsAreToLf | scripts/normalize_text_files.py:63-64 | Replacing CR LF with LF and then CR with LF turns every line ending (CR LF or a lone CR) into one LF. |
| Text.WithoutFree | scripts/normalize_text_files.py:56-57 | After the drop none of the dropped characters is left, and characters absent before stay absent. |
| Text.MapCharFree | scripts/normalize_text_files.py:60 | After the map no mapped character is left, and no absent character except the replacement appears. |
| Text.MapCharAbsent | scripts/normalize_text_files.py:60 | The map changes nothing where the character does not occur. |
| Text.ToLfFree | scripts/normalize_text_files.py:63-64 | After the line-ending fix no CR is left, and no absent character except LF appears. |
| Text.ToLfAbsent | scripts/normalize_text_files.py:63-64 | Text without CR already has LF line endings. |
| Text.WithoutChars | scripts/normalize_text_files.py:55-57 | Dropping characters never makes the text longer. This is the reference that the chain of `replace(c, '')` calls is proved against. |
| Text.WithoutAbsent | scripts/normalize_text_files.py:55-57 | Text with none of the dropped characters is left exactly as it is. |
| Text.CrLfBetweenPlain | scripts/normalize_text_files.py:63-64 | A CR LF between text without CR becomes one LF, and nothing else moves. |
| Text.DropBetween | scripts/normalize_text_files.py:55-57 | A dropped character between two clean pieces disappears and joins them. |
| Text.LoneCrBetweenPlain | scripts/normalize_text_files.py:63-64 | A lone CR between text without CRs, not followed by LF, becomes one LF and nothing else changes. |
| CompanyForms.CleanTaxId | web/forms.py:294-307 | The value is stripped. It is accepted exactly when it is empty or nine digits and, on a saved company with a stored tax id, equal to the stored one; it is then returned stripped. A non-empty value that is not nine digits is refused for its format first, and a well-formed change to a locked tax id is refused as locked. |
| CompanyForms.CleanedIsFixedPoint | web/forms.py:294-307 | Submitting the cleaned value again gives the same answer. |
| CompanyForms.LockedTaxIdUnchanged | web/forms.py:300-306 | On a locked company the only value accepted is the stored one. |
| CompanyForms.LockedTaxIdResubmitted | tests/test_company_form_validation.py:119-130 | On a locked company, the stored nine-digit tax id passes again with any whitespace around it. |
| CompanyForms.MalformedLockedRefusesAll | web/forms.py:296-306 | A locked tax id that is not itself nine digits refuses every submission. |
| CompanyForms.NewCompanyAccepts | tests/test_company_form_validation.py:31-55 | On a new company any nine digits pass, with whitespace around them trimmed, and so does an empty value. |
| CompanyForms.MalformedRefused | web/forms.py:297-298 | A value without surrounding whitespace that is not nine digits is refused for its format, whatever the company. |
| CompanyForms.WrongFormatsRefused | tests/test_company_form_validation.py:35-49 | Letters, too few digits and too many digits are each refused for their format. |
| CompanyForms.ChangeOfLockedRefused | tests/test_company_form_validation.py:167-171 | A saved company with tax id 123456789 refuses 987654321 as a change. |
| NormalizeTextFiles.NormalizeContent | scripts/normalize_text_files.py:53-68 | The loops and replaces give the normalised text. The modified flag holds exactly when the text changed. |
| NormalizeTextFiles.NormalizedIsClean | scripts/normalize_text_files.py:55-64 | Normalised text has no hidden characters, no NBSP and no CR. |
| NormalizeTextFiles.CleanUnchanged | scripts/normalize_text_files.py:66-68 | Clean text is left exactly as it is, so the file is reported unmodified. |
| NormalizeTextFiles.NormalizedIdempotent | scripts/normalize_text_files.py:55-64 | Normalising twice is normalising once. |
| NormalizeTextFiles.OtherCharactersKept | scripts/normalize_text_files.py:55-64 | In text with no hidden characters and no CR, only NBSPs change (to spaces), and nothing moves. |
| NormalizeTextFiles.DropHiddenBetween | scripts/normalize_text_files.py:56-57 | A hidden character between CR and LF is dropped, leaving a CR LF pair. |
| NormalizeTextFiles.HiddenInsideCrLf | scripts/normalize_text_files.py:55-64 | Because hidden characters go before line endings are fixed, CR, hidden, LF becomes a single LF. |
| FixPr6Files.FixText | fix_pr6_files.py:13-22 | The chain of replaces gives the fixed text. |
| FixPr6Files.FixedIsClean | fix_pr6_files.py:16-22 | Fixed text has no CR, no BOM and no NBSP. |
| FixPr6Files.CleanUnchanged | fix_pr6_files.py:16-22 | Clean text is left exactly as it is. |
| FixPr6Files.FixedIdempotent | fix_pr6_files.py:16-22 | Fixing twice is fixing once. |
| FixPr6Files.OtherCharactersKept | fix_pr6_files.py:16-22 | In text with no CR and no BOM, only NBSPs change (to spaces), and nothing moves. |
| FixPr6Files.LineEndingsAroundBom | fix_pr6_files.py:16 | With the line endings fixed first, a BOM between CR and LF splits them into two line endings. |
| FixPr6Files.DropBomBetween | fix_pr6_files.py:19 | Dropping the BOM between two LFs leaves both. |
| FixPr6Files.BomInsideCrLf | fix_pr6_files.py:16-22 | Because line endings are fixed before the BOM goes, CR, BOM, LF becomes two LFs. This is where the order differs from the normalisation script. |
| Operations.AutoTotal | operations/models.py:102-106 | A provided total (present and non-zero) is kept; otherwise the computed one is used. |
| Operations.AutoTotalIdempotent | operations/models.py:102-106 | A second save keeps what the first left, when the first filled in a non-zero total. |
| Operations.ZeroTotalRecomputed | operations/models.py:102-106 | A computed total of zero counts as missing, so the next save computes it again. |
| Operations.NewOdometer | operations/signals.py:16-19 | The odometer after a reading is the larger of the two. |
| Operations.CreatedIrrelevant | operations/signals.py:16-17 | Whether the record is new never matters: the vehicle moves exactly when the reading is beyond its odometer. |
| Operations.OdometerAfterIsMax | operations/signals.py:10-34 | After any run of readings the odometer is the largest of the start and all the readings. |
| Operations.OdometerMonotone | operations/signals.py:10-34 | The odometer never goes back: more readings leave it at least where fewer did. |
| Operations.Vehicle.constructor | operations/signals.py:18-19 | A vehicle starts at its odometer, not yet saved. |
| Operations.RecordReading | operations/signals.py:16-19 | The odometer becomes the larger of it and the reading. The vehicle is saved once exactly when the reading was beyond the odometer. |
| Operations.FuelEntry.constructor | operations/models.py:11-106 | A new, unsaved fuel entry with the given fields. |
| Operations.FuelEntry.Save | operations/models.py:102-106 | A missing or zero total becomes liters × price per liter, and the entry is persisted. The post-save handler then moves the vehicle's odometer to the larger value, and no other field changes. |
| Operations.FuelEntry.UpdateOdometerFromFuelEntry | operations/signals.py:10-19 | The vehicle's odometer becomes the larger of it and the entry's reading, and the vehicle is saved exactly when it moved. |
| Operations.ServiceLog.constructor | operations/models.py:109-202 | A new, unsaved service log with the given fields. |
| Operations.ServiceLog.Save | operations/models.py:198-202 | A missing or zero total becomes parts + labour (a given total is kept even if it differs), and the log is persisted. The post-save handler then moves the odometer forward only. |
| Operations.ServiceLog.UpdateOdometerFromServiceLog | operations/signals.py:25-34 | The vehicle's odometer becomes the larger of it and the log's reading, and the vehicle is saved exactly when it moved. |
| EmployeeCost.TotalAnnualCost | core/models.py:171-183 | The yearly cost is zero for a zero salary, and 14 salaries when there are no contributions. |
| EmployeeCost.AnnualCostBounds | core/models.py:134-183 | Within the field limits (salary ≥ 0, rate from 0 to 1) the yearly cost lies between 14 and 28 monthly salaries. |
| Expenses.MonthlyImpact | finance/models.py:226-246 | A one-off weighs nothing per month. Monthly, quarterly, half-yearly and yearly expenses weigh the amount spread over 1, 3, 6 and 12 months; any other periodicity weighs nothing. |
| Expenses.AnnualImpact | finance/models.py:248-268 | A one-off weighs its whole amount per year. The periodic kinds weigh 12, 4, 2 and 1 times the amount, and an unknown periodicity weighs nothing. |
| Expenses.AnnualIsTwelveMonthly | finance/models.py:226-268 | For a recurring expense the yearly weight is twelve monthly weights; a one-off weighs its amount per year but nothing per month. |
| Expenses.DailyCost | finance/models.py:270-284 | The daily cost is 0 unless the expense is amortised with an end date and a positive day count. Then the daily cost times the days from start to end inclusive is the amount. |
| Expenses.OverlapDays | finance/models.py:300-308 | The overlapping days are never more than the days of the period. |
| Expenses.PeriodCost | finance/models.py:286-311 | An inactive expense or one that misses the period costs nothing. An amortised expense with an end date costs its daily share per overlapping day; any other expense costs its whole amount. |
| Expenses.OverlapWithinOwnDays | finance/models.py:300-308 | An amortised expense overlaps a period on at most its own days. |
| Expenses.AmortisedPeriodCostAtMostAmount | finance/models.py:286-311 | The part of a non-negative amortised expense in any period lies between 0 and its amount. |
| Expenses.OverlapDaysSplit | finance/models.py:300-308 | Splitting a period in two splits its overlap days in two. |
| Expenses.AmortisedPeriodCost | finance/models.py:297-309 | An active amortised expense costs its daily share on each overlapping day, and an inactive one nothing. |
| Expenses.AmortisedPeriodCostSplit | finance/models.py:286-311 | For an amortised expense, the cost of a period is the cost of its two halves. |
| Expenses.AmortisedPeriodsCost | finance/models.py:286-311 | Over consecutive periods, an amortised expense costs what it costs over their union. |
| Expenses.AmortisedOwnPeriodCost | finance/models.py:270-311 | Over its own days an active amortised expense costs exactly its amount. |
| Expenses.AmortisedPartitionSumsToAmount | finance/models.py:270-311 | Any split of an active amortised expense's days into consecutive periods shares out exactly its amount. |
| LegacyCosts.FixedCostPerHour | finance/legacy_services.py:74-98 | Per working hour, the fixed cost is the 12/hour wage plus the yearly depreciation (a fifth of the price), 3% insurance and 500 in taxes, spread over 252 × 8 = 2016 hours. |
| LegacyCosts.FixedCost | finance/legacy_services.py:74-100 | The trip's fixed cost is 12 per hour of the trip plus, for each hour, the yearly depreciation, insurance and taxes divided by the 2016 working hours. |
| LegacyCosts.ActiveExpenses | finance/legacy_services.py:111-114 | Exactly the company's active expenses are kept. |
| LegacyCosts.AnnualImpacts | finance/legacy_services.py:286 | Each active expense is weighed by its own annual impact, one figure per expense. |
| LegacyCosts.OverheadCostAsWritten | finance/legacy_services.py:102-134 | As written, the overhead fails (no value) exactly when the company has an active expense, since those lack `get_annual_cost`. With no active expense it is 0. |
| LegacyCosts.OverheadAsWrittenRaises | finance/legacy_services.py:116 | One active monthly expense of 100 makes the overhead fail as written. Read with annual impacts, it charges 1200 × 8 hours over 2016 fleet hours for an 8-hour trip. |
| LegacyCosts.OverheadCost | finance/legacy_services.py:118-134 | No overhead, or no active vehicle, costs nothing. Otherwise the trip is charged its hours' share of the yearly overhead over 2016 hours per active vehicle. |
| LegacyCosts.OverheadShare | finance/legacy_services.py:132-134 | The trip's hours at the hourly overhead rate: the share times the fleet hours is the total times the hours. |
| LegacyCosts.RecentFullTank | finance/legacy_services.py:161-165 | Exactly the full-tank entries dated on or after the cut-off are kept. |
| LegacyCosts.PerHundredKm | finance/legacy_services.py:181-182 | Litres per 100 km: the figure times the kilometres is 100 times the litres. |
| LegacyCosts.ConsumptionsEmpty | finance/legacy_services.py:172-188 | No consumption figure is recorded exactly when no pair of consecutive entries moves the odometer forward. |
| LegacyCosts.ConsumptionsNonNegative | finance/legacy_services.py:172-183 | With no negative litres, every consumption figure is non-negative. |
| LegacyCosts.AverageConsumption | finance/legacy_services.py:167-187 | Fewer than two entries, or none with positive kilometres, give the default 25 L/100 km. Otherwise the result is the mean of the per-fill consumptions. |
| LegacyCosts.AverageConsumptionNonNegative | finance/legacy_services.py:167-187 | With no negative litres the average consumption is never negative. |
| LegacyCosts.FuelConsumption | finance/legacy_services.py:167-187 | The loop over consecutive entries computes the average consumption. |
| LegacyCosts.LatestFuelPrice | finance/legacy_services.py:190-191 | The price of the most recent entry, else the default 1.75/L. |
| LegacyCosts.VariableCostPerKm | finance/legacy_services.py:136-215 | Tyres cost 800 / 50000 = 0.016 per km and maintenance 0.05 per km, so the variable cost is the fuel plus 0.066 per km. |
| LegacyCosts.FuelCost | finance/legacy_services.py:149-194 | The fuel cost times 100 is consumption per 100 km × price × distance, and it is never negative for non-negative figures. |
| LegacyCosts.TireCost | finance/legacy_services.py:196-206 | The tyre cost over a tyre lifespan's distance is one tyre set: cost × 50000 = 800 × distance. |
| LegacyCosts.MaintenanceCost | finance/legacy_services.py:208-215 | Maintenance accrues at the fixed 0.05 per km, never negative for a non-negative distance. |
| LegacyCosts.VariableCost | finance/legacy_services.py:136-147 | The variable cost is the fuel cost plus the per-km tyre and maintenance rates times the distance, and is never negative for non-negative figures. |
| LegacyCosts.ProfitMargin | finance/legacy_services.py:60 | For a positive price the margin times the price is 100 times the profit. Otherwise the margin is 0. |
| LegacyCosts.TripBreakdownOf | finance/legacy_services.py:54-60 | The total is the fixed, overhead and variable costs plus tolls and ferries. The profit is the price less the total, and the margin is its share of a positive price in percent. |
| LegacyCosts.RoundedProfitClose | finance/legacy_services.py:62-72 | The rounded profit is within half a cent of the unrounded one, and within a cent and a half of the rounded revenue less the rounded total. |
| LegacyCosts.CalculateTripProfitability | finance/legacy_services.py:44-72 | With the corrected overhead (see Findings; as written the method raises once an expense is active), the result is the breakdown, rounded to cents, of the trip at the agreed price. Its overhead comes from the annual overhead and the fleet size, and its consumption from the recent full-tank entries. |
| LegacyCosts.OrDefault | finance/legacy_services.py:327-331 | `x or default`: a present, non-zero figure is kept, and anything else gives the default. |
| LegacyCosts.OverheadPerVehicle | finance/legacy_services.py:286-295 | With no active vehicle the share is 0; otherwise the share times the fleet size is the annual overhead. |
| LegacyCosts.HourlyRate | finance/legacy_services.py:248-311 | With no effective hours the rate is 0. Otherwise it is a whole number of cents within half a cent of the vehicle's yearly cost (depreciation, driver and overhead share) divided by the effective hours. |
| LegacyCosts.EffectiveHoursPositive | finance/legacy_services.py:301-307 | Within the company field limits the effective hours are positive, so the zero-rate branch is never taken. |
| LegacyCosts.KmRate | finance/legacy_services.py:313-351 | The rate is a whole number of cents within half a cent of fuel, tyres and 0.08 maintenance per km. Fuel is the vehicle's consumption (else 25 L/100 km) at the given price, else the latest one; tyres are the vehicle's figure, else 0.05. |
| LegacyCosts.EstimateFromCentRates | finance/legacy_services.py:377-389 | Rates already in cents are reported unchanged, and the total is within half a cent of the unrounded sum of its parts. |
| LegacyCosts.EstimateFromRates | finance/legacy_services.py:370-389 | Every reported figure is in whole cents and within half a cent of its unrounded value: the rates, the time cost hours × hourly rate, the distance cost km × km rate, tolls, ferries, and the total of the four. |
| LegacyCosts.EstimateTripCost | finance/legacy_services.py:353-389 | The estimate reports the engine's own hourly and km rates exactly, and its total is in whole cents; EstimateOfEngineRates adds that the total is within half a cent of hours × hourly rate + km × km rate + tolls + ferries. |
| LegacyCosts.HourlyRateInCents | finance/legacy_services.py:311 | The hourly rate is already in cents, so rounding it again changes nothing. |
| LegacyCosts.KmRateInCents | finance/legacy_services.py:351 | The km rate is already in cents, so rounding it again changes nothing. |
| LegacyCosts.EstimateOfEngineRates | finance/legacy_services.py:353-389 | The estimate reports the engine's own rates. Its total is within half a cent of hours × hourly rate + distance × km rate + tolls + ferries. |
| LegacyCosts.EstimateTotalInCents | finance/legacy_services.py:388 | The estimate's total is a whole number of cents. |
| LegacyCosts.SuggestedOfCentEstimate | finance/legacy_services.py:409-432 | For an estimate in cents the base cost is its total. The adjusted cost and the suggested price are each within half a cent of the exact figures (the distance cost scaled by the empty-return factor; then marked up by the margin). |
| LegacyCosts.SuggestedFromEstimate | finance/legacy_services.py:409-432 | The result carries the estimate, the margin and the factor as given. Base cost, adjusted cost and price are whole cents within half a cent of the total, of time + distance × factor + tolls + ferries, and of that cost × (1 + margin/100). |
| LegacyCosts.CalculateSuggestedPrice | finance/legacy_services.py:391-432 | Built on the engine's estimate for the trip, the base cost is exactly the estimate's total. The adjusted cost and the price are within half a cent of the adjusted total and of its mark-up by the margin. |
| LegacyCosts.SuggestedPriceOfEstimate | finance/legacy_services.py:391-432 | The suggested price is built from the engine's own estimate, whose total is in cents, so its base cost is that total exactly. |
| LegacyCosts.SuggestedPriceWithoutMarkup | finance/legacy_services.py:413-423 | With no margin and an empty-return factor of 1, the suggested price is the adjusted cost, which is the estimate's own parts added up. |
| Ordering.Reverse | finance/services/analytics/history.py:75 | Reversal keeps the length and mirrors the positions. |
| Ordering.ReverseMultiset | finance/services/analytics/history.py:75 | Reversal keeps every element, and keeps how many times each one occurs. |
| Ordering.SortDescFacts | finance/services/analytics/history.py:75 | Sorting by a key gives a descending order of the same elements. |
| Ordering.InsertDescMultiset | finance/services/analytics/history.py:75 | Insertion adds exactly the new element. |
| Ordering.InsertDescSorted | finance/services/analytics/history.py:75 | Insertion into a descending list keeps it descending. |
| Ordering.InsertDescAtMost | finance/services/analytics/history.py:75 | Insertion keeps every key within a common bound. |
| LegacyCosts.AverageOf | finance/legacy_services.py:184-187 | With no consumptions it is the default 25 L/100 km; otherwise, multiplied by their count, it gives their sum, so it is their mean. |

## Left out

- The thread-local storage itself is one slot object. Concurrency between threads is not modelled.
- `order_by` ties are not modelled. Rows with equal sort keys (for the history report, equal `period_start` values ordered by `-created_at`) keep their selection order reversed, standing in for the newest-first creation order.
- Decimal precision and context rounding are not modelled: amounts are exact reals. `quantize(Decimal('0.01'))` is modelled as rounding to the nearest cent. Identities such as "annual impact is twelve monthly impacts" hold exactly in reals, not in 28-digit decimals.
- JSON serialisation (`_d`, `_date_str` and the DRF `Response`) is not modelled. Views return the model's values.
- The clock, the environment and the engine version (`date.today()`, `timezone.now()`, `datetime.now()`, `ENGINE_VERSION`, settings) are parameters.
- Truthiness is modelled for strings, None, booleans and numbers where a figure is read (`_to_decimal`, the id fields). A truthy value of another type goes to the default.
- Values.TextOr: any value that is not a non-empty string goes to the default, truthy numbers and booleans included. The source's `rates.get("status") or "OK"` and `snap.get("basis_unit") or "KM"` keep a truthy int, Decimal or `True`, which the text column stores as its `str()` (a status of `5` is stored as "5", where the model stores "OK"). `str()` of numbers is not modelled.
- Month and week bucket arithmetic is not modelled beyond year 9999, where Python's `date` raises.
- The history breakdown fields for customer, origin and destination are not modelled. They are copied through unchanged and carry no rule.
- A snapshot whose cost center is missing in the history report is not modelled separately: the model's cost-center name is the empty string.
- `date.fromisoformat` is modelled on the strict `YYYY-MM-DD` form only. The extended forms it accepts from Python 3.11 on are not modelled.
- `int()` and `Decimal()` of strings are modelled on plain ASCII numerals with an optional sign and surrounding whitespace. Underscores, exponents, NaN, Infinity and non-ASCII digits are not modelled. In the same way, `\d` in the tax-id rule matches ASCII digits only.
- The tenant context that the calculator, the persistence and the readers receive is the slot value, passed in as `Some(company)`.
- `Company.objects.first()` in the middleware fallback is the first company of the table in the model.
- `VehicleAsset` is not part of this model. The pricing engine receives the vehicle figures it reads (depreciation, average consumption, tyre cost) as values.
- The fuel history is assumed to be in date order. Ties on the date, and which of them `first()` picks, are not modelled.
- The assigned-employee lookup of the pricing engine is an `Option` parameter, and the active fleet size is a number.
- The 180-day cut-off for recent fuel entries is a parameter (a day ordinal).
- Both text scripts' file I/O is not modelled: reading, writing, decode errors, `try`/`except` and the loop over the file list. Only the transformation of one file's content is modelled.
- Primary keys and Django's signal dispatch are not modelled: `Save` calls the record's post-save handler directly, with `created` meaning "not persisted before".
- The database rounding of `total_cost` to two decimal places on save is not modelled.
- SuggestedPriceOfEstimate: states only the base cost and the agreement with the estimate. The half-cent bounds on the adjusted cost and the suggested price are stated by CalculateSuggestedPrice and come from SuggestedOfCentEstimate, which applies because the estimate's total is in cents.
- Text.Upper, Text.Lower: ASCII letters only. Unicode case mappings (ß→SS, ı→I, é→É, the Kelvin sign→k) are not modelled. So a basis unit such as `trıp`, which Python upper-cases to `TRIP`, is refused by the model, and a grain written with the Kelvin sign is not read as `week`.
- The filtered readers (OverlapFilter, DateFilter, SelectSnapshots, SelectBreakdowns, RowsOfPeriod) state which rows they keep and that none is repeated. That they keep the table order is proved for the tenant filter only (ScopedKeepsOrder).
- The `order_ref` field (`str(order)`) of the breakdown dict built by `build_order_breakdown` is not modelled, since an order's `__str__` is not part of this model.
- CostEnginePersistence.SaveOrderCostBreakdowns: a payload that is neither a dictionary nor a list gives no rows (BreakdownRowsOf's `OtherPayload`). The source instead iterates any truthy value (`or_list or []`): a generator, set or dict view of dictionaries creates rows as a list would, and a truthy value that cannot be iterated (an int, say) raises `TypeError` inside the atomic block, so the save rolls back and the exception reaches the caller. Neither case is modelled.
- The admin modules and the form's read-only widget setup in `CompanyForm.__init__` are not modelled, since they carry no rule.

## Findings

| source | as written | input that shows it | evidently intended | confidence | as-written member | corrected member |
|---|---|---|---|---|---|---|
| finance/legacy_services.py:117 | The trip overhead sums `exp.get_annual_cost()` over the company's active expenses, but `CompanyExpense` (aliased as `RecurringExpense`) has no such method, only the `annual_impact` property. The sum raises `AttributeError` once any expense is active (the same line is finance/services.py:114). | One active monthly expense of 100 for a fleet of one and an 8-hour trip | Weigh each active expense by its `annual_impact`, as `calculate_hourly_rate` does at line 286, giving 1200 × 8 / 2016 for this trip | not executed | LegacyCosts.OverheadAsWrittenRaises | LegacyCosts.OverheadCost |
