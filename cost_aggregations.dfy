/**
 * Cost sums per cost center, the zero-safe rate and the profit/margin rule
 * of the cost engine.
 */
module CostAggregations {
  import opened Wrappers
  import opened Tenant
  import opened CostEntities

  /** Sum of the amounts of the postings booked against cost center `c`. */
  function CenterCost(s: seq<CostPosting>, c: Id): real {
    if s == [] then 0.0
    else CenterCost(s[..|s| - 1], c) + (if s[|s| - 1].costCenterId == c then s[|s| - 1].amount else 0.0)
  }

  /** The cost centers that have at least one posting. */
  function PostingCenters(s: seq<CostPosting>): set<Id> {
    if s == [] then {} else PostingCenters(s[..|s| - 1]) + {s[|s| - 1].costCenterId}
  }

  /** Sum of all posting amounts. */
  function TotalAmount(s: seq<CostPosting>): real {
    if s == [] then 0.0 else TotalAmount(s[..|s| - 1]) + s[|s| - 1].amount
  }

  /** A cost center without postings has cost 0. */
  lemma {:induction false} CenterCostOutside(s: seq<CostPosting>, c: Id)
    requires c !in PostingCenters(s)
    ensures CenterCost(s, c) == 0.0
  {
    if s != [] {
      CenterCostOutside(s[..|s| - 1], c);
    }
  }

  /**
   * `aggregate_postings_by_cost_center`: a map from each cost center that
   * has postings to the sum of their amounts.
   */
  method AggregatePostingsByCostCenter(postings: seq<CostPosting>) returns (totals: map<Id, real>)
    ensures totals.Keys == PostingCenters(postings)
    ensures forall c :: c in totals ==> totals[c] == CenterCost(postings, c)
  {
    totals := map[];
    var i := 0;
    while i < |postings|
      invariant 0 <= i <= |postings|
      invariant totals.Keys == PostingCenters(postings[..i])
      invariant forall c :: c in totals ==> totals[c] == CenterCost(postings[..i], c)
    {
      var p := postings[i];
      assert postings[..i + 1][..i] == postings[..i];
      if p.costCenterId !in totals {
        CenterCostOutside(postings[..i], p.costCenterId);
      }
      totals := totals[p.costCenterId := (if p.costCenterId in totals then totals[p.costCenterId] else 0.0) + p.amount];
      i := i + 1;
    }
    assert postings[..i] == postings;
  }

  /** `m.get(id, 0)` on a map of amounts. */
  function GetOrZero(totals: map<Id, real>, id: Id): real {
    if id in totals then totals[id] else 0.0
  }

  /** The lookup agrees with the specification sum for every cost center, with postings or not. */
  lemma AggregateLookupIsCenterCost(postings: seq<CostPosting>, totals: map<Id, real>, id: Id)
    requires totals.Keys == PostingCenters(postings)
    requires forall c :: c in totals ==> totals[c] == CenterCost(postings, c)
    ensures GetOrZero(totals, id) == CenterCost(postings, id)
  {
    if id !in totals {
      CenterCostOutside(postings, id);
    }
  }

  /** Sum of the per-center costs over a list of cost centers. */
  function SumOverCenters(s: seq<CostPosting>, cs: seq<Id>): real {
    if cs == [] then 0.0 else SumOverCenters(s, cs[..|cs| - 1]) + CenterCost(s, cs[|cs| - 1])
  }

  lemma {:induction false} SumOverCentersStep(s: seq<CostPosting>, p: CostPosting, cs: seq<Id>)
    requires Distinct(cs)
    ensures SumOverCenters(s + [p], cs) == SumOverCenters(s, cs) + (if p.costCenterId in cs then p.amount else 0.0)
  {
    if cs != [] {
      var front, c := cs[..|cs| - 1], cs[|cs| - 1];
      assert cs == front + [c];
      assert (s + [p])[..|s + [p]| - 1] == s;
      assert Distinct(front);
      SumOverCentersStep(s, p, front);
      if p.costCenterId == c {
        assert c !in front;
      }
    }
  }

  lemma {:induction false} SumOverCentersEmpty(cs: seq<Id>)
    ensures SumOverCenters([], cs) == 0.0
  {
    if cs != [] {
      SumOverCentersEmpty(cs[..|cs| - 1]);
    }
  }

  /**
   * The per-center sums partition the postings: over any list of distinct
   * cost centers that includes every center with postings they add up to
   * the sum of all amounts.
   */
  lemma {:induction false} CenterCostsPartitionTotal(s: seq<CostPosting>, cs: seq<Id>)
    requires Distinct(cs)
    requires forall c :: c in PostingCenters(s) ==> c in cs
    ensures SumOverCenters(s, cs) == TotalAmount(s)
  {
    if s == [] {
      SumOverCentersEmpty(cs);
    } else {
      var p, x := s[..|s| - 1], s[|s| - 1];
      assert s == p + [x];
      assert forall c :: c in PostingCenters(p) ==> c in cs;
      CenterCostsPartitionTotal(p, cs);
      SumOverCentersStep(p, x, cs);
    }
  }

  /** `calculate_rate`: zero or missing units give (0, MISSING_ACTIVITY); otherwise cost per unit and OK. */
  function CalculateRate(totalCost: real, totalUnits: Option<real>): (r: (real, string))
    ensures (totalUnits == None || totalUnits == Some(0.0)) ==> r == (0.0, MISSING_ACTIVITY)
    ensures totalUnits.Some? && totalUnits.value != 0.0 ==> r.1 == OK && r.0 * totalUnits.value == totalCost
    ensures r.1 == OK <==> totalUnits.Some? && totalUnits.value != 0.0
  {
    if totalUnits == None || totalUnits.value == 0.0 then (0.0, MISSING_ACTIVITY)
    else (totalCost / totalUnits.value, OK)
  }

  /** `calculate_profit_margin`: profit and margin percentage, margin 0 unless revenue is positive. */
  function CalculateProfitMargin(revenue: real, totalCost: real): (r: (real, real))
    ensures r.0 + totalCost == revenue
    ensures revenue > 0.0 ==> r.1 * revenue == r.0 * 100.0
    ensures revenue <= 0.0 ==> r.1 == 0.0
  {
    var profit := revenue - totalCost;
    var margin := if revenue > 0.0 then (profit / revenue) * 100.0 else 0.0;
    (profit, margin)
  }
}
