/** Execution steps of the engine (api/pkg/engine/handler.go): the record a
    handler produces for each visited node.  Timestamps are not modelled;
    durations are either a fixed constant or a wall-clock measurement. */
module Steps {
  import opened Wrappers
  import opened Values

  datatype Duration = Fixed(ms: int) | Measured

  /** `error` is None for Go's empty Error string. */
  datatype Step = Step(
    stepNumber: int,
    nodeType: string,
    nodeId: string,
    status: string,
    duration: Duration,
    output: map<string, Out>,
    error: Option<Text>)

  /** The zero ExecutionStep{} that every concrete handler returns with an error. */
  const ZeroStep: Step := Step(0, "", "", "", Fixed(0), map[], None)

  /** `output[outer][inner]` when `output[outer]` is a `map[string]interface{}`.
      Such a map can sit in an output either as a nested output object or as
      a decoded JSON object value; Go's type assertion accepts both. */
  function Nested(output: map<string, Out>, outer: string, inner: string): (r: Option<Out>)
    ensures r.Some? <==>
              && outer in output
              && ((output[outer].Obj? && inner in output[outer].fields) ||
                  (output[outer].Val? && output[outer].v.Object? && inner in output[outer].v.fields))
    ensures r.Some? && output[outer].Obj? ==> r.value == output[outer].fields[inner]
    ensures r.Some? && output[outer].Val? ==> r.value == Val(output[outer].v.fields[inner])
  {
    if outer !in output then None
    else match output[outer]
      case Obj(fields) => if inner in fields then Some(fields[inner]) else None
      case Val(Object(fields)) => if inner in fields then Some(Val(fields[inner])) else None
      case _ => None
  }

  /** The boolean at `conditionResult.result` in a step output, if there is one:
      the only part of a step the executor looks at to choose a branch. */
  function ConditionFlag(output: map<string, Out>): (flag: Option<bool>)
    ensures flag.Some? <==> Nested(output, "conditionResult", "result").Some?
                            && Nested(output, "conditionResult", "result").value.Val?
                            && Nested(output, "conditionResult", "result").value.v.Bool?
    ensures flag.Some? ==> Nested(output, "conditionResult", "result") == Some(Val(Bool(flag.value)))
  {
    match Nested(output, "conditionResult", "result")
    case Some(Val(Bool(b))) => Some(b)
    case _ => None
  }

  /** Both encodings of the condition result branch the same way. */
  lemma ConditionFlagEitherEncoding(b: bool, extra: map<string, Out>, extraValues: map<string, Value>)
    ensures ConditionFlag(map["conditionResult" := Obj(extra["result" := Val(Bool(b))])]) == Some(b)
    ensures ConditionFlag(map["conditionResult" := Val(Object(extraValues["result" := Bool(b)]))]) == Some(b)
  {
  }
}
