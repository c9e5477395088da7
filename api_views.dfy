/**
 * The request-parameter rules of the finance API: company resolution, the
 * period parameters, and the run and history views. Query parameters are a
 * map from name to text; a parameter counts as given when it is present and
 * not empty, as Python's truthiness of the string decides. Errors are the
 * HTTP status codes the views answer with; 500 stands for an exception the
 * view does not catch.
 */
module ApiViews {
  import opened Wrappers
  import opened Text
  import opened Dates
  import opened IsoDates
  import opened Tenant
  import opened CostEntities
  import opened CostPersist
  import opened CostSnapshots
  import opened CostCalculator
  import opened History
  import opened Kpis

  const BAD_REQUEST := 400
  const FORBIDDEN := 403
  const NOT_FOUND := 404
  const SERVER_ERROR := 500

  type Params = map<string, string>

  /** `params.get(name)`. */
  function Param(params: Params, name: string): Option<string> {
    if name in params then Some(params[name]) else None
  }

  /** `params.get(name, default)`. */
  function ParamOr(params: Params, name: string, default: string): string {
    if name in params then params[name] else default
  }

  /** A query value is truthy when present and not empty. */
  predicate Given(v: Option<string>) {
    v.Some? && v.value != []
  }

  /** A `0/1` flag: set exactly when the value (or the default) is "1". */
  function Flag(params: Params, name: string, default: string): bool {
    ParamOr(params, name, default) == "1"
  }

  // ---- Company resolution ----

  /** What company resolution reads from the request. */
  datatype Caller = Caller(isSuperuser: bool, requestCompany: Option<CompanyId>, userCompany: Option<CompanyId>)

  /**
   * `_resolve_company`. With a `company_id`: 403 for anyone but a
   * superuser, before any lookup; otherwise the company with that integer
   * id, or 404. Without one: `request.company`, then the user's company,
   * then, only under DEBUG, the first company; 404 when none applies.
   */
  function ResolveCompany(companyIdParam: Option<string>, caller: Caller, debug: bool, companies: seq<CompanyId>): (r: Result<CompanyId, int>)
    ensures r.Err? ==> r.error == FORBIDDEN || r.error == NOT_FOUND
    ensures r.Err? && r.error == FORBIDDEN <==> Given(companyIdParam) && !caller.isSuperuser
    ensures Given(companyIdParam) && caller.isSuperuser ==>
              (r.Ok? <==> ParseInt(companyIdParam.value).Some? && ParseInt(companyIdParam.value).value in companies)
              && (r.Ok? ==> r.value == ParseInt(companyIdParam.value).value)
    ensures !Given(companyIdParam) && caller.requestCompany.Some? ==> r == Ok(caller.requestCompany.value)
    ensures !Given(companyIdParam) && caller.requestCompany.None? && caller.userCompany.Some? ==> r == Ok(caller.userCompany.value)
    ensures !Given(companyIdParam) && caller.requestCompany.None? && caller.userCompany.None? ==>
              (r.Ok? <==> debug && companies != []) && (r.Ok? ==> r.value == companies[0])
    // a non-superuser only ever reaches the request's company, the user's own, or the DEBUG fallback
    ensures !caller.isSuperuser && r.Ok? ==>
              caller.requestCompany == Some(r.value)
              || (caller.requestCompany.None? && caller.userCompany == Some(r.value))
              || (caller.requestCompany.None? && caller.userCompany.None? && debug && r.value == companies[0])
  {
    if Given(companyIdParam) then
      if !caller.isSuperuser then Err(FORBIDDEN)
      else
        match ParseInt(companyIdParam.value)
        case Some(n) => if n in companies then Ok(n) else Err(NOT_FOUND)
        case None => Err(NOT_FOUND)
    else if caller.requestCompany.Some? then Ok(caller.requestCompany.value)
    else if caller.userCompany.Some? then Ok(caller.userCompany.value)
    else if debug && companies != [] then Ok(companies[0])
    else Err(NOT_FOUND)
  }

  // ---- Period parameters ----

  /**
   * The `month` shortcut: the year from characters 0-3 and the month from
   * characters 5-6 (the separator is never looked at), then the first
   * through the last day of that month; nothing when either is not an
   * integer or they name no month.
   */
  function ParseMonthParam(s: string): (r: Option<(Date, Date)>)
    ensures r.Some? ==> ValidDate(r.value.0) && ValidDate(r.value.1) && r.value.0.day == 1
                        && r.value.1 == Date(r.value.0.year, r.value.0.month, DaysInMonth(r.value.0.year, r.value.0.month))
  {
    var y := ParseInt(Slice(s, 0, 4));
    var m := ParseInt(Slice(s, 5, 7));
    if y.Some? && m.Some? then MonthRange(y.value, m.value) else None
  }

  /** Any character may stand between the year and the month. */
  lemma MonthSeparatorIgnored(year: string, sep1: char, sep2: char, rest: string)
    requires |year| == 4
    ensures ParseMonthParam(year + [sep1] + rest) == ParseMonthParam(year + [sep2] + rest)
  {
    var a := year + [sep1] + rest;
    var b := year + [sep2] + rest;
    assert Slice(a, 0, 4) == year == Slice(b, 0, 4);
    assert Slice(a, 5, 7) == Slice(b, 5, 7);
  }

  /**
   * The start/end pair: 400 unless both are given, both are ISO dates and
   * the start is not after the end.
   */
  function ParseDatePair(startParam: Option<string>, endParam: Option<string>): (r: Result<(Date, Date), int>)
    ensures r.Err? ==> r.error == BAD_REQUEST
    ensures r.Ok? <==> Given(startParam) && Given(endParam)
                       && ParseIsoDate(startParam.value).Some? && ParseIsoDate(endParam.value).Some?
                       && Ord(ParseIsoDate(startParam.value).value) <= Ord(ParseIsoDate(endParam.value).value)
    ensures r.Ok? ==> r.value == (ParseIsoDate(startParam.value).value, ParseIsoDate(endParam.value).value)
  {
    if !Given(startParam) || !Given(endParam) then Err(BAD_REQUEST)
    else
      match (ParseIsoDate(startParam.value), ParseIsoDate(endParam.value))
      case (Some(ps), Some(pe)) => if Ord(ps) > Ord(pe) then Err(BAD_REQUEST) else Ok((ps, pe))
      case _ => Err(BAD_REQUEST)
  }

  /** The first day of a month comes no later than its last. */
  lemma MonthRangeOrdered(a: Date, b: Date)
    requires ValidDate(a) && a.day == 1 && b == Date(a.year, a.month, DaysInMonth(a.year, a.month))
    ensures Ord(a) <= Ord(b)
  {
  }

  /**
   * The period of the history and KPI views: `month` when given, which
   * wins over the pair; else the pair when either half is given; else the
   * previous full month before `today` (an uncaught overflow in January of
   * year 1). A period that is returned is two valid dates, start first.
   */
  function ParsePeriod(params: Params, today: Date): (r: Result<(Date, Date), int>)
    requires ValidDate(today)
    ensures Given(Param(params, "month")) ==>
              (r.Ok? <==> ParseMonthParam(Param(params, "month").value).Some?)
              && (r.Ok? ==> r.value == ParseMonthParam(Param(params, "month").value).value)
              && (r.Err? ==> r.error == BAD_REQUEST)
    ensures !Given(Param(params, "month")) && (Given(Param(params, "period_start")) || Given(Param(params, "period_end"))) ==>
              r == ParseDatePair(Param(params, "period_start"), Param(params, "period_end"))
    ensures !Given(Param(params, "month")) && !Given(Param(params, "period_start")) && !Given(Param(params, "period_end")) ==>
              (r.Ok? <==> PreviousFullMonth(today).Some?) && (r.Ok? ==> r.value == PreviousFullMonth(today).value)
    ensures r.Ok? ==> ValidDate(r.value.0) && ValidDate(r.value.1) && Ord(r.value.0) <= Ord(r.value.1)
  {
    var month := Param(params, "month");
    var ps := Param(params, "period_start");
    var pe := Param(params, "period_end");
    if Given(month) then
      match ParseMonthParam(month.value)
      case Some(range) => MonthRangeOrdered(range.0, range.1); Ok(range)
      case None => Err(BAD_REQUEST)
    else if Given(ps) || Given(pe) then ParseDatePair(ps, pe)
    else
      match PreviousFullMonth(today)
      case Some(range) => MonthRangeOrdered(range.0, range.1); Ok(range)
      case None => Err(SERVER_ERROR)
  }

  /**
   * The basis filter: 400 when given and its upper-cased form is no basis
   * unit; otherwise the parameter exactly as given (not upper-cased).
   */
  function ValidateBasisUnit(params: Params): (r: Result<Option<string>, int>)
    ensures r.Err? <==> Given(Param(params, "basis_unit")) && !ValidBasisUnit(Upper(Param(params, "basis_unit").value))
    ensures r.Err? ==> r.error == BAD_REQUEST
    ensures r.Ok? ==> r.value == Param(params, "basis_unit")
    ensures r.Ok? && Given(r.value) ==> ValidBasisUnit(Upper(r.value.value))
  {
    var bu := Param(params, "basis_unit");
    if Given(bu) && !ValidBasisUnit(Upper(bu.value)) then Err(BAD_REQUEST) else Ok(bu)
  }

  /** An optional integer parameter: none when not given, 400 when given but not an integer. */
  function OptionalIntParam(raw: Option<string>): (r: Result<Option<int>, int>)
    ensures !Given(raw) ==> r == Ok(None)
    ensures Given(raw) ==> (r.Ok? <==> ParseInt(raw.value).Some?) && (r.Ok? ==> r.value == ParseInt(raw.value))
    ensures r.Err? ==> r.error == BAD_REQUEST
  {
    if Given(raw) then
      match ParseInt(raw.value)
      case Some(n) => Ok(Some(n))
      case None => Err(BAD_REQUEST)
    else Ok(None)
  }

  // ---- Run view ----

  /** The run view keeps a snapshot when its cost or its rate is positive. */
  predicate Nonzero(s: Snapshot) {
    s.totalCost > 0.0 || s.rate > 0.0
  }

  function NonzeroSnapshots(snaps: seq<Snapshot>): (r: seq<Snapshot>)
    ensures forall x :: x in r <==> x in snaps && Nonzero(x)
    ensures |r| <= |snaps|
  {
    if snaps == [] then []
    else
      var x := snaps[|snaps| - 1];
      NonzeroSnapshots(snaps[..|snaps| - 1]) + (if Nonzero(x) then [x] else [])
  }

  /** The `only_nonzero` loop of the run view. */
  method KeepNonzero(snaps: seq<Snapshot>) returns (kept: seq<Snapshot>)
    ensures kept == NonzeroSnapshots(snaps)
  {
    kept := [];
    for i := 0 to |snaps|
      invariant kept == NonzeroSnapshots(snaps[..i])
    {
      assert snaps[..i + 1][..i] == snaps[..i];
      if snaps[i].totalCost > 0.0 || snaps[i].rate > 0.0 {
        kept := kept + [snaps[i]];
      }
    }
    assert snaps[..|snaps|] == snaps;
  }

  /**
   * `CostEngineRunView.get`: the dates first (both required, ISO, ordered),
   * then the company; the run under that company's tenant scope; then the
   * `only_nonzero` filter (default off) and `include_breakdowns` (default
   * on). The summary is the run's own, computed before the filters.
   */
  method CostEngineRun(params: Params, caller: Caller, debug: bool, companies: seq<CompanyId>,
                       centerTable: seq<CostCenter>, postingTable: seq<CostPosting>, orderTable: seq<TransportOrder>,
                       env: Option<string>, now: int)
    returns (r: Result<CostResult, int>)
    ensures var dates := ParseDatePair(Param(params, "period_start"), Param(params, "period_end"));
            var company := ResolveCompany(Param(params, "company_id"), caller, debug, companies);
            && (dates.Err? ==> r == Err(dates.error))
            && (dates.Ok? && company.Err? ==> r == Err(company.error))
            && (dates.Ok? && company.Ok? ==>
                  var full := CompanyCosts(Some(company.value), centerTable, postingTable, orderTable, company.value,
                                           Ord(dates.value.0), Ord(dates.value.1), env, now);
                  && r.Ok?
                  && r.value.meta == full.meta && r.value.summary == full.summary
                  && r.value.snapshots == (if Flag(params, "only_nonzero", "0") then NonzeroSnapshots(full.snapshots) else full.snapshots)
                  && r.value.breakdowns == (if Flag(params, "include_breakdowns", "1") then full.breakdowns else []))
  {
    var dates := ParseDatePair(Param(params, "period_start"), Param(params, "period_end"));
    if dates.Err? {
      return Err(dates.error);
    }
    var company := ResolveCompany(Param(params, "company_id"), caller, debug, companies);
    if company.Err? {
      return Err(company.error);
    }
    var onlyNonzero := Flag(params, "only_nonzero", "0");
    var includeBreakdowns := Flag(params, "include_breakdowns", "1");
    var result := CalculateCompanyCosts(Some(company.value), centerTable, postingTable, orderTable, company.value,
                                        Ord(dates.value.0), Ord(dates.value.1), env, now);
    if onlyNonzero {
      var kept := KeepNonzero(result.snapshots);
      result := result.(snapshots := kept);
    }
    if !includeBreakdowns {
      result := result.(breakdowns := []);
    }
    r := Ok(result);
  }

  // ---- History view ----

  /** A validated history request. */
  datatype HistoryQuery = HistoryQuery(
    company: CompanyId, periodStart: Date, periodEnd: Date, includeBreakdowns: bool, onlyNonzero: bool,
    costCenterId: Option<int>, basisUnit: Option<string>, limit: int)

  /**
   * The history view's checks, in order: company, period, cost center id,
   * basis unit, limit (500 when not given). The flags default to off.
   */
  function HistoryRequest(params: Params, caller: Caller, debug: bool, companies: seq<CompanyId>, today: Date): (r: Result<HistoryQuery, int>)
    requires ValidDate(today)
    ensures var company := ResolveCompany(Param(params, "company_id"), caller, debug, companies);
            var period := ParsePeriod(params, today);
            var cc := OptionalIntParam(Param(params, "cost_center_id"));
            var basis := ValidateBasisUnit(params);
            var limit := OptionalIntParam(Param(params, "limit"));
            && (company.Err? ==> r == Err(company.error))
            && (company.Ok? && period.Err? ==> r == Err(period.error))
            && (company.Ok? && period.Ok? && cc.Err? ==> r == Err(BAD_REQUEST))
            && (company.Ok? && period.Ok? && cc.Ok? && basis.Err? ==> r == Err(BAD_REQUEST))
            && (company.Ok? && period.Ok? && cc.Ok? && basis.Ok? && limit.Err? ==> r == Err(BAD_REQUEST))
            && (r.Ok? <==> company.Ok? && period.Ok? && cc.Ok? && basis.Ok? && limit.Ok?)
            && (r.Ok? ==> r.value == HistoryQuery(company.value, period.value.0, period.value.1,
                                                  Flag(params, "include_breakdowns", "0"), Flag(params, "only_nonzero", "0"),
                                                  cc.value, basis.value, limit.value.GetOr(LIMIT_DEFAULT)))
            && (r.Ok? ==> ValidDate(r.value.periodStart) && ValidDate(r.value.periodEnd)
                          && Ord(r.value.periodStart) <= Ord(r.value.periodEnd))
  {
    match ResolveCompany(Param(params, "company_id"), caller, debug, companies)
    case Err(e) => Err(e)
    case Ok(company) =>
      match ParsePeriod(params, today)
      case Err(e) => Err(e)
      case Ok(period) =>
        match OptionalIntParam(Param(params, "cost_center_id"))
        case Err(e) => Err(e)
        case Ok(cc) =>
          match ValidateBasisUnit(params)
          case Err(e) => Err(e)
          case Ok(basis) =>
            match OptionalIntParam(Param(params, "limit"))
            case Err(e) => Err(e)
            case Ok(limit) =>
              Ok(HistoryQuery(company, period.0, period.1, Flag(params, "include_breakdowns", "0"),
                              Flag(params, "only_nonzero", "0"), cc, basis, limit.GetOr(LIMIT_DEFAULT)))
  }

  /** `CostEngineHistoryView.get`: a validated request answered from the stored rows of that company. */
  method CostEngineHistoryView(params: Params, caller: Caller, debug: bool, companies: seq<CompanyId>, today: Date,
                               t: seq<SnapshotRow>, bt: seq<BreakdownRow>, centers: seq<CostCenter>, orders: seq<TransportOrder>)
    returns (r: Result<HistoryReport, int>)
    requires ValidDate(today)
    ensures var q := HistoryRequest(params, caller, debug, companies, today);
            && (q.Err? ==> r == Err(q.error))
            && (q.Ok? ==>
                  var rows := HistorySnapshotRows(t, Some(q.value.company), Ord(q.value.periodStart), Ord(q.value.periodEnd),
                                                  q.value.costCenterId, q.value.basisUnit, q.value.onlyNonzero, q.value.limit);
                  && r.Ok?
                  && r.value.filters == HistoryFilters(q.value.costCenterId, q.value.basisUnit, q.value.includeBreakdowns,
                                                       q.value.onlyNonzero, EffectiveLimit(q.value.limit))
                  && |r.value.snapshots| == |rows|
                  && (forall k :: 0 <= k < |rows| ==>
                        r.value.snapshots[k] == HistorySnapshot(rows[k], CenterName(centers, rows[k].costCenterId)))
                  && r.value.summary == HistorySummary(CostSum(rows), UnitSum(rows), PositiveMeanRate(rows), |rows|, |r.value.breakdowns|)
                  && (!q.value.includeBreakdowns ==> r.value.breakdowns == [])
                  && (q.value.includeBreakdowns ==>
                        var brows := HistoryBreakdownRows(bt, Some(q.value.company), Ord(q.value.periodStart), Ord(q.value.periodEnd), q.value.limit);
                        && |r.value.breakdowns| == |brows|
                        && forall k :: 0 <= k < |brows| ==> r.value.breakdowns[k] == BreakdownEntry(orders, brows[k])))
  {
    var q := HistoryRequest(params, caller, debug, companies, today);
    if q.Err? {
      return Err(q.error);
    }
    var h := GetCostEngineHistory(t, bt, centers, orders, Some(q.value.company), Ord(q.value.periodStart), Ord(q.value.periodEnd),
                                  q.value.costCenterId, q.value.basisUnit, q.value.includeBreakdowns, q.value.onlyNonzero, q.value.limit);
    r := Ok(h);
  }
}
