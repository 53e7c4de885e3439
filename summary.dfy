/** `generate_simulation_summary`: the parts of the summary in the order the tool
    appends them, the average risk increase and the recommendation tier chosen
    from it. The parts stand for the markdown lines; their text and the
    one-decimal formatting are not modelled. */
module SimulationSummary {
  import opened SupplierRanking

  /** One entry of the `risk_changes` dictionary, in insertion order. */
  datatype RiskChange = RiskChange(routeId: string, change: real)

  datatype Direction = Increased | Decreased

  datatype Recommendation = ImmediateAction | MonitorAndPrepare | MaintainMonitoring

  /** One appended line of the summary. */
  datatype SummaryPart =
    | Title(query: string)
    | RoutesHeader(routeCount: nat)
    | RouteLine(routeId: string, direction: Direction, amount: real)
    | AlternativesHeader
    | AlternativeLine(rank: nat, name: string, region: string, riskScore: int, costDelta: int)
    | OverallImpact(averageIncrease: real)
    | Advice(recommendation: Recommendation)

  /** How many routes and how many alternatives the summary lists at most. */
  const ListedCount: nat := 3

  function Min(a: nat, b: nat): nat
  {
    if a <= b then a else b
  }

  /** Item `k` is the first one recorded for the route. */
  predicate FirstRecorded(riskChanges: seq<RiskChange>, routeId: string, k: int)
  {
    0 <= k < |riskChanges| && riskChanges[k].routeId == routeId
    && forall j :: 0 <= j < k ==> riskChanges[j].routeId != routeId
  }

  /** `risk_changes.get(route_id, 0)`. */
  function ChangeFor(riskChanges: seq<RiskChange>, routeId: string): (c: real)
    ensures (forall k :: 0 <= k < |riskChanges| ==> riskChanges[k].routeId != routeId) ==> c == 0.0
    ensures forall k :: FirstRecorded(riskChanges, routeId, k) ==> c == riskChanges[k].change
  {
    if riskChanges == [] then 0.0
    else if riskChanges[0].routeId == routeId then riskChanges[0].change
    else
      var c := ChangeFor(riskChanges[1..], routeId);
      assert forall k :: 1 <= k < |riskChanges| ==> riskChanges[k] == riskChanges[1..][k - 1];
      c
  }

  /** `sum(risk_changes.values())`. */
  function Sum(riskChanges: seq<RiskChange>): real
  {
    if riskChanges == [] then 0.0
    else Sum(riskChanges[..|riskChanges| - 1]) + riskChanges[|riskChanges| - 1].change
  }

  /** The average risk change, 0 when there are no changes. */
  function AverageIncrease(riskChanges: seq<RiskChange>): (avg: real)
    ensures riskChanges == [] ==> avg == 0.0
    ensures riskChanges != [] ==> avg * |riskChanges| as real == Sum(riskChanges)
  {
    if riskChanges == [] then 0.0 else Sum(riskChanges) / |riskChanges| as real
  }

  /** The three recommendation tiers, split at averages above 20 and above 10. */
  function RecommendationFor(avg: real): (rec: Recommendation)
    ensures rec == ImmediateAction <==> avg > 20.0
    ensures rec == MonitorAndPrepare <==> 10.0 < avg <= 20.0
    ensures rec == MaintainMonitoring <==> avg <= 10.0
  {
    if avg > 20.0 then ImmediateAction
    else if avg > 10.0 then MonitorAndPrepare
    else MaintainMonitoring
  }

  /** The line for one affected route: "increased" only for a positive change, and the size of the change. */
  function RouteLineFor(riskChanges: seq<RiskChange>, routeId: string): (p: SummaryPart)
    ensures p.RouteLine? && p.routeId == routeId
    ensures p.direction == Increased <==> ChangeFor(riskChanges, routeId) > 0.0
    ensures p.amount >= 0.0
    ensures p.amount == ChangeFor(riskChanges, routeId) || p.amount == -ChangeFor(riskChanges, routeId)
  {
    var change := ChangeFor(riskChanges, routeId);
    RouteLine(routeId, if change > 0.0 then Increased else Decreased, if change < 0.0 then -change else change)
  }

  function AlternativeLineFor(alt: Candidate): SummaryPart
  {
    AlternativeLine(alt.rank, alt.supplier.name, alt.supplier.region, alt.supplier.riskScore, alt.supplier.costDelta)
  }

  /** The lines of the first `n` affected routes. */
  function RouteLines(affectedRoutes: seq<string>, riskChanges: seq<RiskChange>, n: nat): (r: seq<SummaryPart>)
    requires n <= |affectedRoutes|
  {
    seq(n, i requires 0 <= i < n => RouteLineFor(riskChanges, affectedRoutes[i]))
  }

  /** The lines of the first `n` alternatives. */
  function AlternativeLines(alternatives: seq<Candidate>, n: nat): (r: seq<SummaryPart>)
    requires n <= |alternatives|
  {
    seq(n, i requires 0 <= i < n => AlternativeLineFor(alternatives[i]))
  }

  /** The affected-routes block: nothing when no route is affected, otherwise a header
      with the full number of routes and one line for each of the first three. */
  function RouteSection(affectedRoutes: seq<string>, riskChanges: seq<RiskChange>): (r: seq<SummaryPart>)
    ensures affectedRoutes == [] <==> r == []
    ensures affectedRoutes != [] ==>
              |r| == 1 + Min(ListedCount, |affectedRoutes|) && r[0] == RoutesHeader(|affectedRoutes|)
              && forall i :: 1 <= i < |r| ==> r[i] == RouteLineFor(riskChanges, affectedRoutes[i - 1])
  {
    if affectedRoutes == [] then []
    else
      [RoutesHeader(|affectedRoutes|)] + RouteLines(affectedRoutes, riskChanges, Min(ListedCount, |affectedRoutes|))
  }

  /** The alternatives block: nothing when there are none, otherwise a header and one
      line for each of the first three. */
  function AlternativeSection(alternatives: seq<Candidate>): (r: seq<SummaryPart>)
    ensures alternatives == [] <==> r == []
    ensures alternatives != [] ==>
              |r| == 1 + Min(ListedCount, |alternatives|) && r[0] == AlternativesHeader
              && forall i :: 1 <= i < |r| ==> r[i] == AlternativeLineFor(alternatives[i - 1])
  {
    if alternatives == [] then []
    else
      [AlternativesHeader] + AlternativeLines(alternatives, Min(ListedCount, |alternatives|))
  }

  /** Appends the affected-routes block to `parts`. */
  method AppendRouteBlock(parts: seq<SummaryPart>, affectedRoutes: seq<string>, riskChanges: seq<RiskChange>)
    returns (out: seq<SummaryPart>)
    ensures out == parts + RouteSection(affectedRoutes, riskChanges)
  {
    out := parts;
    if affectedRoutes != [] {
      out := out + [RoutesHeader(|affectedRoutes|)];
      var listed := affectedRoutes[..Min(ListedCount, |affectedRoutes|)];
      for i := 0 to |listed|
        invariant out == parts + [RoutesHeader(|affectedRoutes|)] + RouteLines(affectedRoutes, riskChanges, i)
      {
        var change := ChangeFor(riskChanges, listed[i]);
        var direction := if change > 0.0 then Increased else Decreased;
        out := out + [RouteLine(listed[i], direction, if change < 0.0 then -change else change)];
        assert RouteLines(affectedRoutes, riskChanges, i + 1)
               == RouteLines(affectedRoutes, riskChanges, i) + [RouteLineFor(riskChanges, affectedRoutes[i])];
      }
    }
  }

  /** Appends the alternatives block to `parts`. */
  method AppendAlternativeBlock(parts: seq<SummaryPart>, alternatives: seq<Candidate>)
    returns (out: seq<SummaryPart>)
    ensures out == parts + AlternativeSection(alternatives)
  {
    out := parts;
    if alternatives != [] {
      out := out + [AlternativesHeader];
      var listed := alternatives[..Min(ListedCount, |alternatives|)];
      for i := 0 to |listed|
        invariant out == parts + [AlternativesHeader] + AlternativeLines(alternatives, i)
      {
        var alt := listed[i];
        out := out + [AlternativeLine(alt.rank, alt.supplier.name, alt.supplier.region,
                                      alt.supplier.riskScore, alt.supplier.costDelta)];
        assert AlternativeLines(alternatives, i + 1)
               == AlternativeLines(alternatives, i) + [AlternativeLineFor(alternatives[i])];
      }
    }
  }

  /** The tool itself: the title, the two optional blocks, the average and the recommendation,
      appended in that order. */
  method GenerateSimulationSummary(query: string, affectedRoutes: seq<string>,
                                   riskChanges: seq<RiskChange>, alternatives: seq<Candidate>)
    returns (parts: seq<SummaryPart>)
    ensures parts == [Title(query)] + RouteSection(affectedRoutes, riskChanges) + AlternativeSection(alternatives)
                     + [OverallImpact(AverageIncrease(riskChanges)),
                        Advice(RecommendationFor(AverageIncrease(riskChanges)))]
    ensures |parts| <= 3 + 2 * (1 + ListedCount)
  {
    parts := [Title(query)];
    parts := AppendRouteBlock(parts, affectedRoutes, riskChanges);
    parts := AppendAlternativeBlock(parts, alternatives);
    var avgIncrease := if riskChanges != [] then Sum(riskChanges) / |riskChanges| as real else 0.0;
    parts := parts + [OverallImpact(avgIncrease)];
    if avgIncrease > 20.0 {
      parts := parts + [Advice(ImmediateAction)];
    } else if avgIncrease > 10.0 {
      parts := parts + [Advice(MonitorAndPrepare)];
    } else {
      parts := parts + [Advice(MaintainMonitoring)];
    }
  }

  /** Bounds on every change bound their sum. */
  lemma {:induction false} SumBounds(riskChanges: seq<RiskChange>, lo: real, hi: real)
    requires forall k :: 0 <= k < |riskChanges| ==> lo <= riskChanges[k].change <= hi
    ensures |riskChanges| as real * lo <= Sum(riskChanges) <= |riskChanges| as real * hi
  {
    if riskChanges != [] {
      SumBounds(riskChanges[..|riskChanges| - 1], lo, hi);
    }
  }

  /** The average lies between the smallest and the largest change. */
  lemma AverageBounds(riskChanges: seq<RiskChange>, lo: real, hi: real)
    requires riskChanges != []
    requires forall k :: 0 <= k < |riskChanges| ==> lo <= riskChanges[k].change <= hi
    ensures lo <= AverageIncrease(riskChanges) <= hi
  {
    SumBounds(riskChanges, lo, hi);
    var n := |riskChanges| as real;
    var avg := AverageIncrease(riskChanges);
    assert avg * n == Sum(riskChanges);
  }

  /** When every route's risk rose by more than 20, immediate action is recommended. */
  lemma UniformRiseMeansImmediateAction(riskChanges: seq<RiskChange>)
    requires riskChanges != []
    requires forall k :: 0 <= k < |riskChanges| ==> riskChanges[k].change > 20.0
    ensures RecommendationFor(AverageIncrease(riskChanges)) == ImmediateAction
  {
    var lo := MinChange(riskChanges);
    AverageBounds(riskChanges, lo, MaxChange(riskChanges));
  }

  /** When no route's risk rose by more than 10, current monitoring is kept; with no
      changes at all the average is 0, so the same holds. */
  lemma SmallChangesMeanMaintain(riskChanges: seq<RiskChange>)
    requires forall k :: 0 <= k < |riskChanges| ==> riskChanges[k].change <= 10.0
    ensures RecommendationFor(AverageIncrease(riskChanges)) == MaintainMonitoring
  {
    if riskChanges != [] {
      AverageBounds(riskChanges, MinChange(riskChanges), 10.0);
    }
  }

  /** The smallest change. */
  function MinChange(riskChanges: seq<RiskChange>): (m: real)
    requires riskChanges != []
    ensures forall k :: 0 <= k < |riskChanges| ==> m <= riskChanges[k].change
    ensures exists k :: 0 <= k < |riskChanges| && m == riskChanges[k].change
  {
    if |riskChanges| == 1 then riskChanges[0].change
    else
      var m := MinChange(riskChanges[1..]);
      assert forall k :: 1 <= k < |riskChanges| ==> riskChanges[k] == riskChanges[1..][k - 1];
      if riskChanges[0].change <= m then riskChanges[0].change else m
  }

  /** The largest change. */
  function MaxChange(riskChanges: seq<RiskChange>): (m: real)
    requires riskChanges != []
    ensures forall k :: 0 <= k < |riskChanges| ==> riskChanges[k].change <= m
    ensures exists k :: 0 <= k < |riskChanges| && m == riskChanges[k].change
  {
    if |riskChanges| == 1 then riskChanges[0].change
    else
      var m := MaxChange(riskChanges[1..]);
      assert forall k :: 1 <= k < |riskChanges| ==> riskChanges[k] == riskChanges[1..][k - 1];
      if riskChanges[0].change >= m then riskChanges[0].change else m
  }
}
