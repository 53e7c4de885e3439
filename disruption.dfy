/** `calculate_disruption_score`: a route's base score, raised by a tariff term and
    a disaster term, capped at 100, and classified into four risk levels.
    Values are exact reals; the one-decimal rounding of the reported fields is
    a display step and is not part of the model. */
module DisruptionScore {

  /** One row of the base-score table. Only `base` enters the computation. */
  datatype BaseScore = BaseScore(base: int, sentiment: int, tariff: real)

  datatype RiskLevel = Low | Medium | High | Critical

  /** The tool's result, without the rounding applied for display. */
  datatype Disruption = Disruption(
    routeId: string,
    originalScore: int,
    newScore: real,
    change: real,
    tariffImpact: real,
    disasterImpact: real,
    riskLevel: RiskLevel)

  /** The row used for a route that is not in the table. */
  const DefaultBaseScore := BaseScore(30, 0, 0.2)

  /** The base-score table the tool hard-codes. */
  const SimulatedBaseScores: map<string, BaseScore> := map[
    "tsmc-shenzhen" := BaseScore(72, -40, 0.3),
    "shanghai-la" := BaseScore(25, 20, 0.2),
    "shanghai-rotterdam" := BaseScore(65, -20, 0.4),
    "taiwan-japan" := BaseScore(55, -30, 0.1)
  ]

  /** Position of a level in the order low < medium < high < critical. */
  function Severity(l: RiskLevel): nat
  {
    match l
    case Low => 0
    case Medium => 1
    case High => 2
    case Critical => 3
  }

  /** The risk-level chain on the unrounded new score. */
  function RiskLevelOf(score: real): (l: RiskLevel)
    ensures l == Critical <==> score >= 70.0
    ensures l == High <==> 50.0 <= score < 70.0
    ensures l == Medium <==> 30.0 <= score < 50.0
    ensures l == Low <==> score < 30.0
  {
    if score >= 70.0 then Critical
    else if score >= 50.0 then High
    else if score >= 30.0 then Medium
    else Low
  }

  /** A higher score never gets a lower risk level. */
  lemma RiskLevelMonotone(s1: real, s2: real)
    requires s1 <= s2
    ensures Severity(RiskLevelOf(s1)) <= Severity(RiskLevelOf(s2))
  {
  }

  /** The base score looked up for a route, or the default for an unknown route. */
  function BaseFor(baseScores: map<string, BaseScore>, routeId: string): int
  {
    (if routeId in baseScores then baseScores[routeId] else DefaultBaseScore).base
  }

  /** Every base in the table is at most the cap of 100. */
  predicate BasesWithinCap(baseScores: map<string, BaseScore>)
  {
    forall id :: id in baseScores ==> baseScores[id].base <= 100
  }

  function CalculateDisruptionScore(baseScores: map<string, BaseScore>, routeId: string,
                                    tariffChange: real := 0.0, disasterSeverity: real := 0.0): (d: Disruption)
    ensures d.routeId == routeId
    ensures d.originalScore == (if routeId in baseScores then baseScores[routeId].base else 30)
    ensures d.tariffImpact == tariffChange * 25.0 / 100.0 && d.disasterImpact == disasterSeverity * 30.0
    // the cap: never above 100, and below 100 only when the uncapped sum is
    ensures d.newScore <= 100.0
    ensures d.newScore <= d.originalScore as real + d.tariffImpact + d.disasterImpact
    ensures d.newScore == 100.0 || d.newScore == d.originalScore as real + d.tariffImpact + d.disasterImpact
    ensures d.change == d.newScore - d.originalScore as real
    ensures d.riskLevel == RiskLevelOf(d.newScore)
    // a non-negative scenario never lowers a base that is within the cap
    ensures tariffChange >= 0.0 && disasterSeverity >= 0.0 && BasesWithinCap(baseScores) ==>
              d.newScore >= d.originalScore as real && d.change >= 0.0
  {
    var base := BaseFor(baseScores, routeId);
    var tariffImpact := (tariffChange / 100.0) * 25.0;
    var disasterImpact := disasterSeverity * 30.0;
    var raw := base as real + tariffImpact + disasterImpact;
    var newScore := if 100.0 <= raw then 100.0 else raw;
    Disruption(routeId, base, newScore, newScore - base as real, tariffImpact, disasterImpact,
               RiskLevelOf(newScore))
  }

  /** A stronger scenario never lowers the new score or the risk level of a route. */
  lemma ScenarioMonotone(baseScores: map<string, BaseScore>, routeId: string,
                         t1: real, s1: real, t2: real, s2: real)
    requires t1 <= t2 && s1 <= s2
    ensures CalculateDisruptionScore(baseScores, routeId, t1, s1).newScore
            <= CalculateDisruptionScore(baseScores, routeId, t2, s2).newScore
    ensures Severity(CalculateDisruptionScore(baseScores, routeId, t1, s1).riskLevel)
            <= Severity(CalculateDisruptionScore(baseScores, routeId, t2, s2).riskLevel)
  {
    var d1 := CalculateDisruptionScore(baseScores, routeId, t1, s1);
    var d2 := CalculateDisruptionScore(baseScores, routeId, t2, s2);
    RiskLevelMonotone(d1.newScore, d2.newScore);
  }

  /** The hard-coded table keeps every base within the cap, so its routes are never lowered. */
  lemma SimulatedBasesWithinCap()
    ensures BasesWithinCap(SimulatedBaseScores)
  {
  }

  /** Scores of the hard-coded table: with no scenario change the TSMC route (base 72)
      stays critical and an unknown route (base 30) is medium; a large scenario caps
      the Shanghai-LA route at 100. */
  lemma SimulatedScoreExamples()
    ensures CalculateDisruptionScore(SimulatedBaseScores, "tsmc-shenzhen", 0.0, 0.0).riskLevel == Critical
    ensures CalculateDisruptionScore(SimulatedBaseScores, "unknown-route").riskLevel == Medium
    ensures CalculateDisruptionScore(SimulatedBaseScores, "shanghai-la", 200.0, 1.0).newScore == 100.0
  {
    assert "unknown-route" !in SimulatedBaseScores;
  }
}
