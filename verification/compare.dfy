/** The lenient temperature comparator.  The engine's condition handler
    (api/pkg/engine/handlers/condition.go) and the legacy package
    (api/services/workflow/handlers.go and workflow.go) each carry a
    textually identical copy; it is defined once here. */
module Compare {

  /** The operator tags the lenient comparator recognises. */
  predicate IsLenientOperator(operator: string) {
    operator in {"greater_than", "less_than", "equals", "greater_than_or_equal", "less_than_or_equal"}
  }

  function EvaluateCondition(temperature: real, operator: string, threshold: real): (met: bool)
    ensures operator == "greater_than" ==> (met <==> temperature > threshold)
    ensures operator == "less_than" ==> (met <==> temperature < threshold)
    ensures operator == "equals" ==> (met <==> temperature == threshold)
    ensures operator == "greater_than_or_equal" ==> (met <==> temperature >= threshold)
    ensures operator == "less_than_or_equal" ==> (met <==> temperature <= threshold)
    ensures !IsLenientOperator(operator) ==> !met
  {
    match operator
    case "greater_than" => temperature > threshold
    case "less_than" => temperature < threshold
    case "equals" => temperature == threshold
    case "greater_than_or_equal" => temperature >= threshold
    case "less_than_or_equal" => temperature <= threshold
    case _ => false
  }

  /** The two strict comparators negate the two non-strict ones, so a
      condition and its complement route a temperature to opposite branches. */
  lemma ComplementaryOperators(temperature: real, threshold: real)
    ensures EvaluateCondition(temperature, "greater_than", threshold)
            == !EvaluateCondition(temperature, "less_than_or_equal", threshold)
    ensures EvaluateCondition(temperature, "less_than", threshold)
            == !EvaluateCondition(temperature, "greater_than_or_equal", threshold)
  {
  }

  /** A condition is met for some temperature only when its operator is
      recognised: an unknown operator can never select the "true" branch. */
  lemma MetOnlyForKnownOperators(temperature: real, operator: string, threshold: real)
    requires EvaluateCondition(temperature, operator, threshold)
    ensures IsLenientOperator(operator)
  {
  }
}
