/** The legacy node handlers and their registry (api/services/workflow/
    handlers.go and handler.go).  They read the user's form data from the
    context, share a string-keyed state map, and are lenient: the weather
    handler falls back to 25.0 and the email handler has no sender. */
module LegacyHandlers {
  import opened Wrappers
  import opened Values
  import opened LegacyModels
  import opened Compare
  import Registries

  const DefaultTemperature: real := 25.0
  const DefaultSubject := "Weather Alert"
  const WeatherEndpoint := "https://api.open-meteo.com/v1/forecast"
  const AlertPattern := "Hi %s, weather alert for %s! Temperature is %.1f°C!"

  /** Weather lookup by city: a temperature or an error message. */
  type WeatherFunc = string -> Result<real, string>

  /** The execution context: the submitted form, the state map shared by
      the handlers, and the step counter. */
  datatype Context = Context(formData: FormData, state: map<string, Value>, stepNumber: int)

  datatype HandlerResult = HandlerResult(ec: Context, step: Step, err: Option<Text>)

  /** A NodeHandler: the node type it serves and its Execute method. */
  datatype Handler = Handler(kind: string, run: (Context, Node) -> HandlerResult) {
    function NodeType(): string {
      kind
    }
  }

  /** A completed step of the given type, numbered with the context's counter. */
  predicate CompletedAs(step: Step, nodeType: string, ec: Context, duration: int) {
    && step.status == "completed"
    && step.nodeType == nodeType
    && step.stepNumber == ec.stepNumber
    && step.duration == duration
    && step.error.None?
  }

  /** A failure: the zero step, the context untouched, and a message. */
  predicate FailedWith(r: HandlerResult, ec: Context, message: Text) {
    r.err == Some(message) && r.step == ZeroStep && r.ec == ec
  }

  function StartExecute(ec: Context, node: Node): (r: HandlerResult)
    ensures r.err.None? && r.ec == ec
    ensures CompletedAs(r.step, "start", ec, 10)
    ensures r.step.output == MessageOnly("Workflow started")
  {
    HandlerResult(ec, Step(ec.stepNumber, "start", "completed", 10, MessageOnly("Workflow started"), None), None)
  }

  function EndExecute(ec: Context, node: Node): (r: HandlerResult)
    ensures r.err.None? && r.ec == ec
    ensures CompletedAs(r.step, "end", ec, 5)
    ensures r.step.output == MessageOnly("Workflow completed")
  {
    HandlerResult(ec, Step(ec.stepNumber, "end", "completed", 5, MessageOnly("Workflow completed"), None), None)
  }

  /** The form handler copies name, email and city into the state. */
  function FormExecute(ec: Context, node: Node): (r: HandlerResult)
    ensures r.err.None?
    ensures r.ec.formData == ec.formData && r.ec.stepNumber == ec.stepNumber
    ensures Lookup(r.ec.state, "name") == Str(ec.formData.name)
    ensures Lookup(r.ec.state, "email") == Str(ec.formData.email)
    ensures Lookup(r.ec.state, "city") == Str(ec.formData.city)
    ensures forall key :: key !in {"name", "email", "city"} ==> Lookup(r.ec.state, key) == Lookup(ec.state, key)
    ensures r.ec.state.Keys == ec.state.Keys + {"name", "email", "city"}
    ensures CompletedAs(r.step, "form", ec, 15)
    ensures r.step.output.formData == Some(ec.formData)
    ensures r.step.output.conditionResult.None?
  {
    var state := ec.state["name" := Str(ec.formData.name)]["email" := Str(ec.formData.email)]["city" := Str(ec.formData.city)];
    HandlerResult(ec.(state := state),
                  Step(ec.stepNumber, "form", "completed", 15,
                       StepOutput(Lit("User input collected"), Some(ec.formData), None, None, None), None), None)
  }

  /** The temperature the weather handler records: the function's result,
      or the default when there is no function or it fails. */
  function FetchedTemperature(weatherFn: Option<WeatherFunc>, city: string): (t: real)
    ensures weatherFn.Some? && weatherFn.value(city).Success? ==> t == weatherFn.value(city).value
    ensures weatherFn.None? || weatherFn.value(city).Failure? ==> t == DefaultTemperature
  {
    match weatherFn
    case Some(fetch) => (match fetch(city) case Success(t) => t case Failure(_) => DefaultTemperature)
    case None => DefaultTemperature
  }

  function WeatherExecute(weatherFn: Option<WeatherFunc>, ec: Context, node: Node): (r: HandlerResult)
    ensures r.err.Some? <==> ec.formData.city == ""
    ensures r.err.Some? ==> FailedWith(r, ec, Lit("city not provided in form data"))
    ensures r.err.None? ==>
      var temperature := FetchedTemperature(weatherFn, ec.formData.city);
      && r.ec == ec.(state := ec.state["temperature" := F64(temperature)])
      && CompletedAs(r.step, "integration", ec, 150)
      && r.step.output.apiResponse
         == Some(ApiResponse(WeatherEndpoint, "GET", 200,
                             map["temperature" := F64(temperature), "city" := Str(ec.formData.city)]))
      && r.step.output.conditionResult.None?
  {
    var city := ec.formData.city;
    if city == "" then HandlerResult(ec, ZeroStep, Some(Lit("city not provided in form data")))
    else
      var temperature := FetchedTemperature(weatherFn, city);
      var apiResponse := ApiResponse(WeatherEndpoint, "GET", 200, map["temperature" := F64(temperature), "city" := Str(city)]);
      HandlerResult(ec.(state := ec.state["temperature" := F64(temperature)]),
                    Step(ec.stepNumber, "integration", "completed", 150,
                         StepOutput(Fmt("Fetched weather data for %s", [Str(city)]), None, Some(apiResponse), None, None), None),
                    None)
  }

  const MetadataError := Fmt("failed to unmarshal node metadata: %w", [])

  /** Node metadata decoded into a generic map; empty metadata leaves the
      map nil, where every key reads as absent. */
  function MetadataMap(metadata: Metadata): (r: Result<map<string, Value>, Text>)
    ensures r.Failure? <==> metadata.Malformed?
    ensures r.Failure? ==> r.error == MetadataError
    ensures metadata.NoBytes? ==> r == Success(map[])
    ensures metadata.Json? ==> r == Success(metadata.fields)
  {
    match metadata
    case NoBytes => Success(map[])
    case Malformed => Failure(MetadataError)
    case Json(fields) => Success(fields)
  }

  /** The condition inputs: a float temperature from the state and a string
      operator and float threshold from the metadata, checked in that order. */
  function ConditionInputs(ec: Context, metadata: Metadata): (r: Result<(real, string, real), Text>)
    ensures metadata.Malformed? ==> r == Failure(MetadataError)
    ensures !metadata.Malformed? && !Lookup(ec.state, "temperature").F64? ==>
      r == Failure(Lit("temperature not found in execution context state"))
    ensures r.Success? <==>
      && MetadataMap(metadata).Success?
      && Lookup(ec.state, "temperature").F64?
      && Lookup(MetadataMap(metadata).value, "operator").Str?
      && Lookup(MetadataMap(metadata).value, "threshold").F64?
    ensures r.Success? ==>
      var fields := MetadataMap(metadata).value;
      r.value == (Lookup(ec.state, "temperature").r, Lookup(fields, "operator").s, Lookup(fields, "threshold").r)
  {
    match MetadataMap(metadata)
    case Failure(e) => Failure(e)
    case Success(fields) =>
      match Lookup(ec.state, "temperature")
      case F64(temperature) =>
        (match Lookup(fields, "operator")
         case Str(operator) =>
           (match Lookup(fields, "threshold")
            case F64(threshold) => Success((temperature, operator, threshold))
            case _ => Failure(Lit("threshold not found or is not a float64 in node metadata")))
         case _ => Failure(Lit("operator not found or is not a string in node metadata")))
      case _ => Failure(Lit("temperature not found in execution context state"))
  }

  function ConditionExecute(ec: Context, node: Node): (r: HandlerResult)
    ensures r.ec == ec
    ensures r.err.None? <==> ConditionInputs(ec, node.metadata).Success?
    ensures r.err.Some? ==> FailedWith(r, ec, ConditionInputs(ec, node.metadata).error)
    ensures r.err.None? ==>
      var (temperature, operator, threshold) := ConditionInputs(ec, node.metadata).value;
      && CompletedAs(r.step, "condition", ec, 5)
      && r.step.output.conditionResult.Some?
      && r.step.output.conditionResult.value.result == EvaluateCondition(temperature, operator, threshold)
      && r.step.output.conditionResult.value.temperature == temperature
      && r.step.output.conditionResult.value.operator == operator
      && r.step.output.conditionResult.value.threshold == threshold
  {
    match ConditionInputs(ec, node.metadata)
    case Failure(e) => HandlerResult(ec, ZeroStep, Some(e))
    case Success((temperature, operator, threshold)) =>
      var result := ConditionResult(Fmt("temperature %s %.1f", [Str(operator), F64(threshold)]),
                                    EvaluateCondition(temperature, operator, threshold), temperature, operator, threshold);
      var message := Fmt("Condition evaluated: temperature %.1f°C %s %.1f°C", [F64(temperature), Str(operator), F64(threshold)]);
      HandlerResult(ec, Step(ec.stepNumber, "condition", "completed", 5,
                             StepOutput(message, None, None, Some(result), None), None), None)
  }

  /** The subject: the metadata subject when it is a string (even ""),
      otherwise the default. */
  function Subject(fields: map<string, Value>): (s: string)
    ensures Lookup(fields, "subject").Str? ==> s == Lookup(fields, "subject").s
    ensures !Lookup(fields, "subject").Str? ==> s == DefaultSubject
  {
    match Lookup(fields, "subject")
    case Str(subject) => subject
    case _ => DefaultSubject
  }

  /** The temperature the email reports: the state's float, else 0. */
  function StateTemperature(ec: Context): (t: real)
    ensures Lookup(ec.state, "temperature").F64? ==> t == Lookup(ec.state, "temperature").r
    ensures !Lookup(ec.state, "temperature").F64? ==> t == 0.0
  {
    match Lookup(ec.state, "temperature")
    case F64(t) => t
    case _ => 0.0
  }

  function EmailExecute(ec: Context, node: Node): (r: HandlerResult)
    ensures r.ec == ec
    ensures ec.formData.email == "" ==> FailedWith(r, ec, Lit("recipient email not provided in form data"))
    ensures ec.formData.email != "" && node.metadata.Malformed? ==> FailedWith(r, ec, MetadataError)
    ensures r.err.None? <==> ec.formData.email != "" && !node.metadata.Malformed?
    ensures r.err.None? ==>
      && CompletedAs(r.step, "email", ec, 50)
      && r.step.output.emailContent
         == Some(EmailContent(ec.formData.email, Subject(MetadataMap(node.metadata).value),
                              Fmt(AlertPattern, [Str(ec.formData.name), Str(ec.formData.city), F64(StateTemperature(ec))])))
      && r.step.output.conditionResult.None?
  {
    var to := ec.formData.email;
    if to == "" then HandlerResult(ec, ZeroStep, Some(Lit("recipient email not provided in form data")))
    else match MetadataMap(node.metadata)
      case Failure(e) => HandlerResult(ec, ZeroStep, Some(e))
      case Success(fields) =>
        var body := Fmt(AlertPattern, [Str(ec.formData.name), Str(ec.formData.city), F64(StateTemperature(ec))]);
        HandlerResult(ec, Step(ec.stepNumber, "email", "completed", 50,
                               StepOutput(Lit("Alert email sent"), None, None, None, Some(EmailContent(to, Subject(fields), body))),
                               None), None)
  }

  function NewStartHandler(): Handler { Handler("start", (ec, node) => StartExecute(ec, node)) }
  function NewEndHandler(): Handler { Handler("end", (ec, node) => EndExecute(ec, node)) }
  function NewFormHandler(): Handler { Handler("form", (ec, node) => FormExecute(ec, node)) }
  function NewWeatherHandler(weatherFn: Option<WeatherFunc>): Handler {
    Handler("integration", (ec, node) => WeatherExecute(weatherFn, ec, node))
  }
  function NewConditionHandler(): Handler { Handler("condition", (ec, node) => ConditionExecute(ec, node)) }
  function NewEmailHandler(): Handler { Handler("email", (ec, node) => EmailExecute(ec, node)) }

  /** Register keys the handler by its NodeType(), replacing an earlier one. */
  function Register(r: Registries.Registry<Handler>, h: Handler): (r': Registries.Registry<Handler>)
    ensures Registries.Get(r', h.NodeType()) == Some(h)
    ensures forall kind :: kind != h.NodeType() ==> Registries.Get(r', kind) == Registries.Get(r, kind)
    ensures Keyed(r) ==> Keyed(r')
  {
    Registries.Register(r, h.NodeType(), h)
  }

  /** Every handler is stored under its own NodeType(). */
  ghost predicate Keyed(r: Registries.Registry<Handler>) {
    forall kind :: kind in r.handlers ==> r.handlers[kind].NodeType() == kind
  }

  /** DefaultRegistry registers the six standard handlers. */
  function DefaultRegistry(weatherFn: Option<WeatherFunc>): (r: Registries.Registry<Handler>)
    ensures r.handlers.Keys == {"start", "end", "form", "integration", "condition", "email"}
    ensures Keyed(r)
  {
    var r0: Registries.Registry<Handler> := Registries.NewRegistry();
    var r1 := Register(r0, NewStartHandler());
    var r2 := Register(r1, NewEndHandler());
    var r3 := Register(r2, NewFormHandler());
    var r4 := Register(r3, NewWeatherHandler(weatherFn));
    var r5 := Register(r4, NewConditionHandler());
    var r6 := Register(r5, NewEmailHandler());
    assert Keyed(r0) && r0.handlers.Keys == {};
    assert Keyed(r3) && r3.handlers.Keys == {"start", "end", "form"};
    assert Keyed(r6) && r6.handlers.Keys == {"start", "end", "form"} + {"integration", "condition", "email"};
    r6
  }

  /** Each type of the default registry is served by its standard handler,
      the integration handler with the given weather function. */
  lemma DefaultRegistryHandlers(weatherFn: Option<WeatherFunc>)
    ensures Registries.Get(DefaultRegistry(weatherFn), "start") == Some(NewStartHandler())
    ensures Registries.Get(DefaultRegistry(weatherFn), "end") == Some(NewEndHandler())
    ensures Registries.Get(DefaultRegistry(weatherFn), "form") == Some(NewFormHandler())
    ensures Registries.Get(DefaultRegistry(weatherFn), "integration") == Some(NewWeatherHandler(weatherFn))
    ensures Registries.Get(DefaultRegistry(weatherFn), "condition") == Some(NewConditionHandler())
    ensures Registries.Get(DefaultRegistry(weatherFn), "email") == Some(NewEmailHandler())
  {
    var r := DefaultRegistry(weatherFn);
    assert r.handlers == map["start" := NewStartHandler(), "end" := NewEndHandler(), "form" := NewFormHandler(),
                             "integration" := NewWeatherHandler(weatherFn), "condition" := NewConditionHandler(),
                             "email" := NewEmailHandler()];
  }

  /** The contract every legacy handler keeps: the form data and step
      counter are left alone, a successful step is completed under the
      handler's type with the context's step number, and a failure returns
      the zero step. */
  ghost predicate WellBehaved(h: Handler) {
    forall ec: Context, node: Node :: WellBehavedOn(h.run(ec, node), h.kind, ec)
  }

  ghost predicate WellBehavedOn(r: HandlerResult, kind: string, ec: Context) {
    && r.ec.formData == ec.formData
    && r.ec.stepNumber == ec.stepNumber
    && (r.err.None? ==> r.step.status == "completed" && r.step.nodeType == kind
                        && r.step.stepNumber == ec.stepNumber && r.step.error.None?)
    && (r.err.Some? ==> r.step == ZeroStep)
  }

  lemma BuiltinsWellBehaved(weatherFn: Option<WeatherFunc>)
    ensures WellBehaved(NewStartHandler()) && WellBehaved(NewEndHandler()) && WellBehaved(NewFormHandler())
    ensures WellBehaved(NewWeatherHandler(weatherFn)) && WellBehaved(NewConditionHandler()) && WellBehaved(NewEmailHandler())
  {
  }

  /** Every handler of the default registry keeps the handler contract. */
  lemma DefaultHandlersWellBehaved(weatherFn: Option<WeatherFunc>)
    ensures forall kind :: kind in DefaultRegistry(weatherFn).handlers ==> WellBehaved(DefaultRegistry(weatherFn).handlers[kind])
  {
    var r := DefaultRegistry(weatherFn);
    BuiltinsWellBehaved(weatherFn);
    DefaultRegistryHandlers(weatherFn);
    forall kind | kind in r.handlers ensures WellBehaved(r.handlers[kind]) {
      if kind == "start" {
        assert r.handlers[kind] == NewStartHandler();
      } else if kind == "end" {
        assert r.handlers[kind] == NewEndHandler();
      } else if kind == "form" {
        assert r.handlers[kind] == NewFormHandler();
      } else if kind == "integration" {
        assert r.handlers[kind] == NewWeatherHandler(weatherFn);
      } else if kind == "condition" {
        assert r.handlers[kind] == NewConditionHandler();
      } else {
        assert r.handlers[kind] == NewEmailHandler();
      }
    }
  }
}
