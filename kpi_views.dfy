/**
 * The three KPI endpoints. Each resolves the company first, then the
 * period (month, else the start/end pair, else the previous full month),
 * then the optional basis unit, and answers from the stored snapshots of
 * that company only.
 */
module KpiViews {
  import opened Wrappers
  import opened Text
  import opened Dates
  import opened Tenant
  import opened CostEntities
  import opened CostPersist
  import opened Kpis
  import opened KpiTrend
  import opened ApiViews

  /** What the three views have in common once validated. */
  datatype KpiQuery = KpiQuery(company: CompanyId, periodStart: Date, periodEnd: Date, basisRaw: Option<string>)

  /** Company, then period, then basis unit; the first failure is the answer. */
  function KpiRequest(params: Params, caller: Caller, debug: bool, companies: seq<CompanyId>, today: Date): (r: Result<KpiQuery, int>)
    requires ValidDate(today)
    ensures var company := ResolveCompany(Param(params, "company_id"), caller, debug, companies);
            var period := ParsePeriod(params, today);
            var basis := ValidateBasisUnit(params);
            && (company.Err? ==> r == Err(company.error))
            && (company.Ok? && period.Err? ==> r == Err(period.error))
            && (company.Ok? && period.Ok? && basis.Err? ==> r == Err(BAD_REQUEST))
            && (r.Ok? <==> company.Ok? && period.Ok? && basis.Ok?)
            && (r.Ok? ==> r.value == KpiQuery(company.value, period.value.0, period.value.1, basis.value))
    ensures r.Ok? ==> ValidDate(r.value.periodStart) && ValidDate(r.value.periodEnd)
                      && Ord(r.value.periodStart) <= Ord(r.value.periodEnd)
    ensures r.Ok? && Given(r.value.basisRaw) ==> ValidBasisUnit(Upper(r.value.basisRaw.value))
  {
    match ResolveCompany(Param(params, "company_id"), caller, debug, companies)
    case Err(e) => Err(e)
    case Ok(company) =>
      match ParsePeriod(params, today)
      case Err(e) => Err(e)
      case Ok(period) =>
        match ValidateBasisUnit(params)
        case Err(e) => Err(e)
        case Ok(basis) => Ok(KpiQuery(company, period.0, period.1, basis))
  }

  /** The summary and trend views' basis: the parameter, or KM when not given, upper-cased. */
  function SummaryBasis(raw: Option<string>): (b: string)
    ensures Given(raw) ==> b == Upper(raw.value)
    ensures !Given(raw) ==> b == KM
    ensures Upper(b) == b
  {
    var s := if Given(raw) then raw.value else "KM";
    UpperIdempotent(s);
    assert Upper("KM") == "KM";
    Upper(s)
  }

  /** A validated request always reaches the summary with one of the four basis units. */
  lemma SummaryBasisValid(q: KpiQuery)
    requires Given(q.basisRaw) ==> ValidBasisUnit(Upper(q.basisRaw.value))
    ensures ValidBasisUnit(SummaryBasis(q.basisRaw))
  {
  }

  /** `KPISummaryView.get`: the company summary over the period in the basis unit, KM by default. */
  function KpiSummaryView(params: Params, caller: Caller, debug: bool, companies: seq<CompanyId>, today: Date,
                          t: seq<SnapshotRow>): (r: Result<CompanySummary, int>)
    requires ValidDate(today)
    ensures var q := KpiRequest(params, caller, debug, companies, today);
            && (q.Err? ==> r == Err(q.error))
            && (q.Ok? ==> r == Ok(GetCompanySummary(t, Some(q.value.company), Ord(q.value.periodStart), Ord(q.value.periodEnd),
                                                     SummaryBasis(q.value.basisRaw))))
    ensures r.Ok? ==> ValidBasisUnit(r.value.basisUnit)
  {
    match KpiRequest(params, caller, debug, companies, today)
    case Err(e) => Err(e)
    case Ok(q) =>
      SummaryBasisValid(q);
      Ok(GetCompanySummary(t, Some(q.company), Ord(q.periodStart), Ord(q.periodEnd), SummaryBasis(q.basisRaw)))
  }

  const GROUP_BY_COST_CENTER := "cost_center"

  /**
   * `KPICostStructureView.get`: `group_by` must be exactly `cost_center`
   * (its default) or the answer is 400; the basis filter is passed on as
   * given, not upper-cased.
   */
  method KpiCostStructureView(params: Params, caller: Caller, debug: bool, companies: seq<CompanyId>, today: Date,
                              t: seq<SnapshotRow>, centers: seq<CostCenter>)
    returns (r: Result<CostStructure, int>)
    requires ValidDate(today)
    ensures var q := KpiRequest(params, caller, debug, companies, today);
            && (q.Err? ==> r == Err(q.error))
            && (q.Ok? && ParamOr(params, "group_by", GROUP_BY_COST_CENTER) != GROUP_BY_COST_CENTER ==> r == Err(BAD_REQUEST))
            && (q.Ok? && ParamOr(params, "group_by", GROUP_BY_COST_CENTER) == GROUP_BY_COST_CENTER ==>
                  && r.Ok?
                  && r.value.basisUnit == q.value.basisRaw && r.value.groupBy == GROUP_BY_COST_CENTER
                  && DescribesStructure(r.value, StructureRows(t, Some(q.value.company), Ord(q.value.periodStart),
                                                               Ord(q.value.periodEnd), q.value.basisRaw), centers))
  {
    var q := KpiRequest(params, caller, debug, companies, today);
    if q.Err? {
      return Err(q.error);
    }
    var groupBy := ParamOr(params, "group_by", GROUP_BY_COST_CENTER);
    if groupBy != GROUP_BY_COST_CENTER {
      return Err(BAD_REQUEST);
    }
    var cs := GetCostStructure(t, centers, Some(q.value.company), Ord(q.value.periodStart), Ord(q.value.periodEnd),
                               q.value.basisRaw, groupBy);
    r := Ok(cs);
  }

  /** `VALID_GRAINS`. */
  predicate ValidGrain(g: string) {
    g == "month" || g == "week"
  }

  /** The valid grains are already lower-case. */
  lemma ValidGrainLower(g: string)
    requires ValidGrain(g)
    ensures Lower(g) == g
  {
    assert Lower("month") == "month";
    assert Lower("week") == "week";
  }

  /**
   * One point per month, or per week, of the period, in order, each the
   * total of the snapshots in that bucket.
   */
  predicate TrendAnswers(tr: Trend, t: seq<SnapshotRow>, current: Option<CompanyId>, ps: Date, pe: Date, grain: string, bu: string)
    requires ValidDate(ps) && ValidDate(pe)
  {
    && tr.grain == grain && tr.basisUnit == bu
    && (grain == "month" ==>
          && |tr.series| == MonthCount(ps, pe)
          && forall i :: 0 <= i < |tr.series| ==> tr.series[i] == TrendPointOf(t, current, MonthBucket(ps, pe, i), bu))
    && (grain != "month" ==>
          && |tr.series| == WeekCount(Ord(ps), Ord(pe))
          && forall i :: 0 <= i < |tr.series| ==> tr.series[i] == TrendPointOf(t, current, WeekBucket(Ord(ps), Ord(pe), i), bu))
  }

  /** `get_trend` called with a grain that is already valid. */
  method TrendOfGrain(t: seq<SnapshotRow>, current: Option<CompanyId>, ps: Date, pe: Date, grain: string, bu: string)
    returns (tr: Trend)
    requires ValidDate(ps) && ValidDate(pe) && ValidGrain(grain) && Upper(bu) == bu
    ensures TrendAnswers(tr, t, current, ps, pe, grain, bu)
  {
    ValidGrainLower(grain);
    tr := GetTrend(t, current, ps, pe, grain, bu);
  }

  /**
   * `KPITrendView.get`: the grain, `month` by default, is lower-cased and
   * must be `month` or `week` (else 400); the basis is as in the summary.
   */
  method KpiTrendView(params: Params, caller: Caller, debug: bool, companies: seq<CompanyId>, today: Date, t: seq<SnapshotRow>)
    returns (r: Result<Trend, int>)
    requires ValidDate(today)
    ensures var q := KpiRequest(params, caller, debug, companies, today);
            var grain := Lower(ParamOr(params, "grain", "month"));
            && (q.Err? ==> r == Err(q.error))
            && (q.Ok? && !ValidGrain(grain) ==> r == Err(BAD_REQUEST))
            && (q.Ok? && ValidGrain(grain) ==>
                  && r.Ok? && ValidBasisUnit(r.value.basisUnit)
                  && TrendAnswers(r.value, t, Some(q.value.company), q.value.periodStart, q.value.periodEnd,
                                  grain, SummaryBasis(q.value.basisRaw)))
  {
    var q := KpiRequest(params, caller, debug, companies, today);
    if q.Err? {
      return Err(q.error);
    }
    var grain := Lower(ParamOr(params, "grain", "month"));
    if !ValidGrain(grain) {
      return Err(BAD_REQUEST);
    }
    var bu := SummaryBasis(q.value.basisRaw);
    SummaryBasisValid(q.value);
    var tr := TrendOfGrain(t, Some(q.value.company), q.value.periodStart, q.value.periodEnd, grain, bu);
    r := Ok(tr);
  }
}
