/**
 * The cost rules of a company expense: its monthly and yearly weight by
 * periodicity, its daily share when amortised between two dates, and the
 * part of it that falls in a reporting period. Dates are day ordinals.
 */
module Expenses {
  import opened Wrappers

  const ONE_OFF := "ONE_OFF"
  const RECURRING := "RECURRING"
  const MONTHLY := "MONTHLY"
  const QUARTERLY := "QUARTERLY"
  const BIANNUAL := "BIANNUAL"
  const YEARLY := "YEARLY"

  datatype Expense = Expense(
    expenseType: string, periodicity: string, amount: real,
    startDate: int, endDate: Option<int>, isAmortized: bool, isActive: bool)

  /** One of the four periodicities that carry a recurring weight. */
  predicate Periodic(p: string) {
    p == MONTHLY || p == QUARTERLY || p == BIANNUAL || p == YEARLY
  }

  /** `monthly_impact`: nothing for a one-off; the amount spread over the months of its period. */
  function MonthlyImpact(e: Expense): (r: real)
    ensures e.expenseType == ONE_OFF ==> r == 0.0
    ensures e.expenseType != ONE_OFF && e.periodicity == MONTHLY ==> r == e.amount
    ensures e.expenseType != ONE_OFF && e.periodicity == QUARTERLY ==> r * 3.0 == e.amount
    ensures e.expenseType != ONE_OFF && e.periodicity == BIANNUAL ==> r * 6.0 == e.amount
    ensures e.expenseType != ONE_OFF && e.periodicity == YEARLY ==> r * 12.0 == e.amount
    ensures !Periodic(e.periodicity) ==> r == 0.0
  {
    if e.expenseType == ONE_OFF then 0.0
    else if e.periodicity == MONTHLY then e.amount
    else if e.periodicity == QUARTERLY then e.amount / 3.0
    else if e.periodicity == BIANNUAL then e.amount / 6.0
    else if e.periodicity == YEARLY then e.amount / 12.0
    else 0.0
  }

  /** `annual_impact`: the whole amount for a one-off; the amount times its periods per year otherwise. */
  function AnnualImpact(e: Expense): (r: real)
    ensures e.expenseType == ONE_OFF ==> r == e.amount
    ensures e.expenseType != ONE_OFF && e.periodicity == MONTHLY ==> r == e.amount * 12.0
    ensures e.expenseType != ONE_OFF && e.periodicity == QUARTERLY ==> r == e.amount * 4.0
    ensures e.expenseType != ONE_OFF && e.periodicity == BIANNUAL ==> r == e.amount * 2.0
    ensures e.expenseType != ONE_OFF && e.periodicity == YEARLY ==> r == e.amount
    ensures e.expenseType != ONE_OFF && !Periodic(e.periodicity) ==> r == 0.0
  {
    if e.expenseType == ONE_OFF then e.amount
    else if e.periodicity == MONTHLY then e.amount * 12.0
    else if e.periodicity == QUARTERLY then e.amount * 4.0
    else if e.periodicity == BIANNUAL then e.amount * 2.0
    else if e.periodicity == YEARLY then e.amount
    else 0.0
  }

  /** A recurring expense weighs twelve monthly impacts a year; a one-off weighs its amount but nothing per month. */
  lemma AnnualIsTwelveMonthly(e: Expense)
    ensures e.expenseType != ONE_OFF ==> AnnualImpact(e) == 12.0 * MonthlyImpact(e)
    ensures e.expenseType == ONE_OFF ==> AnnualImpact(e) == e.amount && MonthlyImpact(e) == 0.0
  {
  }

  /** Days from `a` to `b`, both included; zero or less when `b` is before `a`. */
  function InclusiveDays(a: int, b: int): int {
    b - a + 1
  }

  /** `get_daily_cost`: the amount spread evenly over the amortisation days, else nothing. */
  function DailyCost(e: Expense): (r: real)
    ensures !e.isAmortized || e.endDate.None? || InclusiveDays(e.startDate, e.endDate.value) <= 0 ==> r == 0.0
    ensures e.isAmortized && e.endDate.Some? && InclusiveDays(e.startDate, e.endDate.value) > 0 ==>
              r * (InclusiveDays(e.startDate, e.endDate.value) as real) == e.amount
  {
    if !e.isAmortized || e.endDate.None? then 0.0
    else
      var days := InclusiveDays(e.startDate, e.endDate.value);
      if days <= 0 then 0.0 else e.amount / (days as real)
  }

  function Max(a: int, b: int): int { if a >= b then a else b }
  function Min(a: int, b: int): int { if a <= b then a else b }

  /** Days of [ps, pe] on which the expense runs (an open end runs to `pe`), or 0. */
  function OverlapDays(e: Expense, ps: int, pe: int): (n: nat)
    ensures n as int <= Max(0, InclusiveDays(ps, pe))
  {
    var s := Max(e.startDate, ps);
    var t := Min(e.endDate.GetOr(pe), pe);
    if s > t then 0 else t - s + 1
  }

  /**
   * `get_period_cost`: nothing when inactive or outside the period; the
   * daily share times the overlapping days when amortised with an end
   * date; otherwise the whole amount.
   */
  function PeriodCost(e: Expense, ps: int, pe: int): (r: real)
    ensures !e.isActive || OverlapDays(e, ps, pe) == 0 ==> r == 0.0
    ensures e.isActive && OverlapDays(e, ps, pe) > 0 && e.isAmortized && e.endDate.Some? ==>
              r == DailyCost(e) * (OverlapDays(e, ps, pe) as real)
    ensures e.isActive && OverlapDays(e, ps, pe) > 0 && !(e.isAmortized && e.endDate.Some?) ==> r == e.amount
  {
    if !e.isActive then 0.0
    else
      var s := Max(e.startDate, ps);
      var t := Min(e.endDate.GetOr(pe), pe);
      if s > t then 0.0
      else if e.isAmortized && e.endDate.Some? then DailyCost(e) * ((t - s + 1) as real)
      else e.amount
  }

  /** An amortised expense's own days are the days of its period it overlaps at most. */
  lemma OverlapWithinOwnDays(e: Expense, ps: int, pe: int)
    requires e.endDate.Some?
    ensures OverlapDays(e, ps, pe) as int <= Max(0, InclusiveDays(e.startDate, e.endDate.value))
  {
  }

  /** The part of an amortised expense in any period is at most its amount. */
  lemma AmortisedPeriodCostAtMostAmount(e: Expense, ps: int, pe: int)
    requires e.isAmortized && e.endDate.Some? && e.amount >= 0.0
    ensures 0.0 <= PeriodCost(e, ps, pe) <= e.amount
  {
    OverlapWithinOwnDays(e, ps, pe);
    var days := InclusiveDays(e.startDate, e.endDate.value);
    var n := OverlapDays(e, ps, pe);
    if e.isActive && n > 0 {
      var d := DailyCost(e);
      assert d * (days as real) == e.amount;
      assert d >= 0.0;
      MulMonotone(d, n as real, days as real);
    }
  }

  lemma MulMonotone(d: real, a: real, b: real)
    requires d >= 0.0 && 0.0 <= a <= b
    ensures 0.0 <= d * a <= d * b
  {
  }

  /** Splitting a period after day `m` splits its overlap in two. */
  lemma OverlapDaysSplit(e: Expense, ps: int, m: int, pe: int)
    requires e.endDate.Some? && ps <= m < pe
    ensures OverlapDays(e, ps, m) + OverlapDays(e, m + 1, pe) == OverlapDays(e, ps, pe)
  {
  }

  /** An active amortised expense costs its daily share on each overlapping day, an inactive one nothing. */
  lemma AmortisedPeriodCost(e: Expense, ps: int, pe: int)
    requires e.isAmortized && e.endDate.Some?
    ensures PeriodCost(e, ps, pe) == if e.isActive then DailyCost(e) * (OverlapDays(e, ps, pe) as real) else 0.0
  {
  }

  /** For an amortised expense, the cost of a period is the cost of its two halves. */
  lemma AmortisedPeriodCostSplit(e: Expense, ps: int, m: int, pe: int)
    requires e.isAmortized && e.endDate.Some? && ps <= m < pe
    ensures PeriodCost(e, ps, m) + PeriodCost(e, m + 1, pe) == PeriodCost(e, ps, pe)
  {
    OverlapDaysSplit(e, ps, m, pe);
    AmortisedPeriodCost(e, ps, m);
    AmortisedPeriodCost(e, m + 1, pe);
    AmortisedPeriodCost(e, ps, pe);
    if e.isActive {
      Distribute(DailyCost(e), OverlapDays(e, ps, m) as real, OverlapDays(e, m + 1, pe) as real);
    }
  }

  lemma Distribute(d: real, a: real, b: real)
    ensures d * a + d * b == d * (a + b)
  {
  }

  /** Consecutive periods: each starts the day after the previous one ends. */
  predicate Consecutive(periods: seq<(int, int)>) {
    forall k :: 0 <= k < |periods| - 1 ==> periods[k + 1].0 == periods[k].1 + 1
  }

  predicate NonEmptyPeriods(periods: seq<(int, int)>) {
    forall k :: 0 <= k < |periods| ==> periods[k].0 <= periods[k].1
  }

  function PeriodsCost(e: Expense, periods: seq<(int, int)>): real {
    if periods == [] then 0.0 else PeriodsCost(e, periods[..|periods| - 1]) + PeriodCost(e, periods[|periods| - 1].0, periods[|periods| - 1].1)
  }

  /** Over consecutive periods an amortised expense costs what it costs over their union. */
  lemma {:induction false} AmortisedPeriodsCost(e: Expense, periods: seq<(int, int)>)
    requires e.isAmortized && e.endDate.Some?
    requires periods != [] && Consecutive(periods) && NonEmptyPeriods(periods)
    ensures PeriodsCost(e, periods) == PeriodCost(e, periods[0].0, periods[|periods| - 1].1)
  {
    var n := |periods|;
    if n > 1 {
      var front := periods[..n - 1];
      assert Consecutive(front) && NonEmptyPeriods(front);
      AmortisedPeriodsCost(e, front);
      StartBeforeEnd(front);
      assert periods[n - 1].0 == front[n - 2].1 + 1;
      AmortisedPeriodCostSplit(e, periods[0].0, front[n - 2].1, periods[n - 1].1);
    }
  }

  /** Over its own days an active amortised expense costs exactly its amount. */
  lemma AmortisedOwnPeriodCost(e: Expense)
    requires e.isActive && e.isAmortized && e.endDate.Some? && e.startDate <= e.endDate.value
    ensures PeriodCost(e, e.startDate, e.endDate.value) == e.amount
  {
    assert OverlapDays(e, e.startDate, e.endDate.value) == InclusiveDays(e.startDate, e.endDate.value);
  }

  /** Any partition of an active amortised expense's own days into consecutive periods shares out exactly its amount. */
  lemma AmortisedPartitionSumsToAmount(e: Expense, periods: seq<(int, int)>)
    requires e.isActive && e.isAmortized && e.endDate.Some?
    requires periods != [] && Consecutive(periods) && NonEmptyPeriods(periods)
    requires periods[0].0 == e.startDate && periods[|periods| - 1].1 == e.endDate.value
    ensures PeriodsCost(e, periods) == e.amount
  {
    AmortisedPeriodsCost(e, periods);
    StartBeforeEnd(periods);
    AmortisedOwnPeriodCost(e);
  }

  /** Non-empty consecutive periods run forwards. */
  lemma {:induction false} StartBeforeEnd(periods: seq<(int, int)>)
    requires periods != [] && Consecutive(periods) && NonEmptyPeriods(periods)
    ensures periods[0].0 <= periods[|periods| - 1].1
  {
    var n := |periods|;
    if n > 1 {
      var front := periods[..n - 1];
      assert Consecutive(front) && NonEmptyPeriods(front);
      StartBeforeEnd(front);
      assert periods[n - 1].0 == front[n - 2].1 + 1;
    }
  }
}
