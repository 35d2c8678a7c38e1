/** Flood risk classification of the flood client
    (api/pkg/clients/flood/client.go): the river discharge reported for the
    first day is mapped to one of three risk labels. */
module Flood {

  /** The client's result: discharge in m³/s and its risk level. */
  datatype FloodResult = FloodResult(discharge: real, riskLevel: string)

  const HighAbove: real := 500.0
  const ModerateAbove: real := 100.0

  /** The three labels the classifier can produce. */
  predicate IsRiskLabel(level: string) {
    level == "low" || level == "moderate" || level == "high"
  }

  /** The ordering of the labels: low < moderate < high. */
  function Severity(level: string): (n: nat)
    ensures n <= 2
    ensures level == "low" ==> n == 0
    ensures level == "moderate" ==> n == 1
    ensures level == "high" ==> n == 2
  {
    if level == "high" then 2 else if level == "moderate" then 1 else 0
  }

  function ClassifyRisk(discharge: real): (risk: string)
    ensures IsRiskLabel(risk)
    ensures risk == "high" <==> discharge > HighAbove
    ensures risk == "moderate" <==> ModerateAbove < discharge <= HighAbove
    ensures risk == "low" <==> discharge <= ModerateAbove
  {
    if discharge > HighAbove then "high"
    else if discharge > ModerateAbove then "moderate"
    else "low"
  }

  /** More water never lowers the risk. */
  lemma RiskMonotone(lower: real, higher: real)
    requires lower <= higher
    ensures Severity(ClassifyRisk(lower)) <= Severity(ClassifyRisk(higher))
  {
  }

  /** The result built from the decoded daily discharge series: the first
      day's value, or 0 when the series is empty. */
  function FromSeries(riverDischarge: seq<real>): (r: FloodResult)
    ensures |riverDischarge| == 0 ==> r == FloodResult(0.0, "low")
    ensures |riverDischarge| > 0 ==> r.discharge == riverDischarge[0]
    ensures IsRiskLabel(r.riskLevel)
    ensures r.riskLevel == ClassifyRisk(r.discharge)
  {
    var discharge := if |riverDischarge| > 0 then riverDischarge[0] else 0.0;
    FloodResult(discharge, ClassifyRisk(discharge))
  }

  /** Only the first day counts: later days never change the result. */
  lemma LaterDaysIgnored(first: real, rest1: seq<real>, rest2: seq<real>)
    ensures FromSeries([first] + rest1) == FromSeries([first] + rest2)
  {
  }
}
