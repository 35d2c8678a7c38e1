/** The engine's node handlers (api/pkg/engine/handlers) and the handler
    contract (api/pkg/engine/handler.go).  A handler reads the execution
    context and the node, and returns the possibly updated context, a step
    and an optional error.  The injected weather, email and SMS functions are
    function values; None is a nil function. */
module Handlers {
  import opened Wrappers
  import opened Values
  import opened ExecutionContext
  import opened Graph
  import opened Steps
  import opened Compare
  import Registries

  const StartNodeDuration := 10
  const EndNodeDuration := 5
  const WeatherNodeDuration := 150
  const DefaultEmailSubject := "Weather Alert"
  const AlertPattern := "Hi %s, weather alert for %s! Temperature is %.1f°C!"
  const WeatherEndpoint := "https://api.open-meteo.com/v1/forecast"

  /** Weather lookup by city: a temperature or an error message. */
  type WeatherFunc = string -> Result<real, string>
  /** Email send (to, subject, body). */
  type EmailFunc = (string, string, Text) -> Outcome<string>
  /** SMS send (phone, message). */
  type SmsFunc = (string, Text) -> Outcome<string>

  datatype HandlerResult = HandlerResult(ec: Context, step: Step, err: Option<Text>)

  /** A NodeHandler: the node type it serves and its Execute method. */
  datatype Handler = Handler(kind: string, run: (Context, Node) -> HandlerResult) {
    function NodeType(): string {
      kind
    }
  }

  function Execute(h: Handler, ec: Context, node: Node): HandlerResult {
    h.run(ec, node)
  }

  function NewStartHandler(): (h: Handler)
    ensures h.NodeType() == "start"
  {
    Handler("start", (ec, node) => StartExecute(ec, node))
  }

  function NewEndHandler(): (h: Handler)
    ensures h.NodeType() == "end"
  {
    Handler("end", (ec, node) => EndExecute(ec, node))
  }

  function NewFormHandler(): (h: Handler)
    ensures h.NodeType() == "form"
  {
    Handler("form", (ec, node) => FormExecute(ec, node))
  }

  function NewWeatherHandler(weatherFn: Option<WeatherFunc>): (h: Handler)
    ensures h.NodeType() == "integration"
  {
    Handler("integration", (ec, node) => WeatherExecute(weatherFn, ec, node))
  }

  function NewConditionHandler(): (h: Handler)
    ensures h.NodeType() == "condition"
  {
    Handler("condition", (ec, node) => ConditionExecute(ec, node))
  }

  function NewEmailHandler(emailFn: Option<EmailFunc>): (h: Handler)
    ensures h.NodeType() == "email"
  {
    Handler("email", (ec, node) => EmailExecute(emailFn, ec, node))
  }

  function NewSmsHandler(smsFn: Option<SmsFunc>): (h: Handler)
    ensures h.NodeType() == "sms"
  {
    Handler("sms", (ec, node) => SmsExecute(smsFn, ec, node))
  }

  /** A completed step of this handler's type for this node, numbered with
      the context's step counter. */
  predicate CompletedFor(step: Step, nodeType: string, ec: Context, node: Node) {
    && step.status == "completed"
    && step.nodeType == nodeType
    && step.nodeId == node.id
    && step.stepNumber == ec.stepNumber
    && step.error.None?
  }

  /** A failure: the zero step, the context untouched, and a message. */
  predicate FailedWith(r: HandlerResult, ec: Context) {
    r.err.Some? && r.step == ZeroStep && r.ec == ec
  }

  function StartExecute(ec: Context, node: Node): (r: HandlerResult)
    ensures r.err.None? && r.ec == ec
    ensures CompletedFor(r.step, "start", ec, node)
    ensures r.step.duration == Fixed(StartNodeDuration)
    ensures r.step.output == map["message" := Val(Str("Workflow started"))]
  {
    HandlerResult(ec, Step(ec.stepNumber, "start", node.id, "completed", Fixed(10),
                           map["message" := Val(Str("Workflow started"))], None), None)
  }

  function EndExecute(ec: Context, node: Node): (r: HandlerResult)
    ensures r.err.None? && r.ec == ec
    ensures CompletedFor(r.step, "end", ec, node)
    ensures r.step.duration == Fixed(5)
    ensures r.step.output == map["message" := Val(Str("Workflow completed"))]
  {
    HandlerResult(ec, Step(ec.stepNumber, "end", node.id, "completed", Fixed(EndNodeDuration),
                           map["message" := Val(Str("Workflow completed"))], None), None)
  }

  function FormExecute(ec: Context, node: Node): (r: HandlerResult)
    ensures r.err.None? && r.ec == ec
    ensures CompletedFor(r.step, "form", ec, node)
    ensures Nested(r.step.output, "formData", "name") == Some(Val(Str(GetString(ec, "form.name"))))
    ensures Nested(r.step.output, "formData", "email") == Some(Val(Str(GetString(ec, "form.email"))))
    ensures Nested(r.step.output, "formData", "city") == Some(Val(Str(GetString(ec, "form.city"))))
    ensures ConditionFlag(r.step.output).None?
  {
    var formData := map[
      "name" := Val(Str(GetString(ec, "form.name"))),
      "email" := Val(Str(GetString(ec, "form.email"))),
      "city" := Val(Str(GetString(ec, "form.city")))];
    HandlerResult(ec, Step(ec.stepNumber, "form", node.id, "completed", Measured,
                           map["message" := Val(Str("User input collected")), "formData" := Obj(formData)], None), None)
  }

  function WeatherExecute(weatherFn: Option<WeatherFunc>, ec: Context, node: Node): (r: HandlerResult)
    ensures GetString(ec, "form.city") == "" ==> FailedWith(r, ec) && r.err == Some(Lit("city not provided in form data"))
    ensures GetString(ec, "form.city") != "" && weatherFn.None? ==> FailedWith(r, ec) && r.err == Some(Lit("weather client not configured"))
    ensures r.err.None? <==> GetString(ec, "form.city") != "" && weatherFn.Some? && weatherFn.value(GetString(ec, "form.city")).Success?
    ensures r.err.Some? ==> FailedWith(r, ec)
    ensures ConditionFlag(r.step.output).None?
    ensures r.err.None? ==>
      var temperature := weatherFn.value(GetString(ec, "form.city")).value;
      && r.ec == Set(ec, "weather.temperature", F64(temperature))
      && GetFloat(r.ec, "weather.temperature") == temperature
      && CompletedFor(r.step, "integration", ec, node)
      && r.step.duration == Fixed(WeatherNodeDuration)
      && Nested(r.step.output, "apiResponse", "data")
         == Some(Obj(map["temperature" := Val(F64(temperature)), "city" := Val(Str(GetString(ec, "form.city")))]))
  {
    var city := GetString(ec, "form.city");
    if city == "" then HandlerResult(ec, ZeroStep, Some(Lit("city not provided in form data")))
    else match weatherFn
      case None => HandlerResult(ec, ZeroStep, Some(Lit("weather client not configured")))
      case Some(fetch) =>
        match fetch(city)
        case Failure(e) => HandlerResult(ec, ZeroStep, Some(Fmt("failed to fetch weather for %s: %w", [Str(city), Str(e)])))
        case Success(temperature) =>
          var apiResponse := map[
            "endpoint" := Val(Str(WeatherEndpoint)),
            "method" := Val(Str("GET")),
            "statusCode" := Val(Int(200)),
            "data" := Obj(map["temperature" := Val(F64(temperature)), "city" := Val(Str(city))])];
          HandlerResult(Set(ec, "weather.temperature", F64(temperature)),
                        Step(ec.stepNumber, "integration", node.id, "completed", Fixed(WeatherNodeDuration),
                             map["message" := Txt(Fmt("Fetched weather data for %s", [Str(city)])),
                                 "apiResponse" := Obj(apiResponse)], None), None)
  }

  /** The condition metadata decoded into `{operator string; threshold float64}`.
      Empty metadata leaves both at their zero values. */
  function ConditionMetadata(metadata: Metadata): (r: Result<(string, real), Text>)
    ensures metadata.NoBytes? ==> r == Success(("", 0.0))
    ensures metadata.Malformed? ==> r.Failure?
    ensures metadata.Json? ==>
      (r.Success? <==> StringField(metadata.fields, "operator").Success? && FloatField(metadata.fields, "threshold").Success?)
    ensures metadata.Json? && r.Success? ==>
      r.value == (StringField(metadata.fields, "operator").value, FloatField(metadata.fields, "threshold").value)
  {
    match metadata
    case NoBytes => Success(("", 0.0))
    case Malformed => Failure(Fmt("failed to parse condition metadata: %w", []))
    case Json(fields) =>
      match (StringField(fields, "operator"), FloatField(fields, "threshold"))
      case (Success(operator), Success(threshold)) => Success((operator, threshold))
      case _ => Failure(Fmt("failed to parse condition metadata: %w", []))
  }

  function ConditionExecute(ec: Context, node: Node): (r: HandlerResult)
    ensures r.ec == ec
    ensures r.err.None? <==> ConditionMetadata(node.metadata).Success? && ConditionMetadata(node.metadata).value.0 != ""
    ensures r.err.Some? ==> FailedWith(r, ec)
    ensures ConditionMetadata(node.metadata).Success? && ConditionMetadata(node.metadata).value.0 == "" ==>
      r.err == Some(Lit("operator not specified in condition node metadata"))
    ensures r.err.None? ==>
      var (operator, threshold) := ConditionMetadata(node.metadata).value;
      var temperature := GetFloat(ec, "weather.temperature");
      && CompletedFor(r.step, "condition", ec, node)
      && ConditionFlag(r.step.output) == Some(EvaluateCondition(temperature, operator, threshold))
      && Nested(r.step.output, "conditionResult", "operator") == Some(Val(Str(operator)))
      && Nested(r.step.output, "conditionResult", "threshold") == Some(Val(F64(threshold)))
      && Nested(r.step.output, "conditionResult", "temperature") == Some(Val(F64(temperature)))
  {
    match ConditionMetadata(node.metadata)
    case Failure(e) => HandlerResult(ec, ZeroStep, Some(e))
    case Success((operator, threshold)) =>
      if operator == "" then HandlerResult(ec, ZeroStep, Some(Lit("operator not specified in condition node metadata")))
      else
        var temperature := GetFloat(ec, "weather.temperature");
        var result := EvaluateCondition(temperature, operator, threshold);
        var conditionResult := map[
          "expression" := Txt(Fmt("temperature %s %.1f", [Str(operator), F64(threshold)])),
          "result" := Val(Bool(result)),
          "temperature" := Val(F64(temperature)),
          "operator" := Val(Str(operator)),
          "threshold" := Val(F64(threshold))];
        var message := Fmt("Condition evaluated: temperature %.1f°C %s %.1f°C", [F64(temperature), Str(operator), F64(threshold)]);
        HandlerResult(ec, Step(ec.stepNumber, "condition", node.id, "completed", Measured,
                               map["message" := Txt(message), "conditionResult" := Obj(conditionResult)], None), None)
  }

  /** A single string field of node metadata; empty metadata gives "". */
  function MetadataString(metadata: Metadata, key: string, failure: Text): (r: Result<string, Text>)
    ensures metadata.NoBytes? ==> r == Success("")
    ensures metadata.Malformed? ==> r == Failure(failure)
    ensures metadata.Json? ==> (r.Success? <==> StringField(metadata.fields, key).Success?)
    ensures metadata.Json? && r.Success? ==> r.value == StringField(metadata.fields, key).value
    ensures r.Failure? ==> r.error == failure
  {
    match metadata
    case NoBytes => Success("")
    case Malformed => Failure(failure)
    case Json(fields) =>
      match StringField(fields, key)
      case Success(s) => Success(s)
      case Failure(_) => Failure(failure)
  }

  /** The alert sentence built from the user's name and city and the temperature. */
  function AlertText(ec: Context): (t: Text)
    ensures t.Fmt? && t.pattern == AlertPattern && |t.args| == 3
    ensures t.args[0] == Str(GetString(ec, "form.name")) && t.args[1] == Str(GetString(ec, "form.city"))
    ensures t.args[2] == F64(GetFloat(ec, "weather.temperature"))
  {
    Fmt(AlertPattern, [Str(GetString(ec, "form.name")), Str(GetString(ec, "form.city")),
                       F64(GetFloat(ec, "weather.temperature"))])
  }

  /** The alert depends on the state only through the three values it
      reports: contexts that agree on them give the same sentence. */
  lemma AlertTextReads(ec1: Context, ec2: Context)
    requires GetString(ec1, "form.name") == GetString(ec2, "form.name")
    requires GetString(ec1, "form.city") == GetString(ec2, "form.city")
    requires GetFloat(ec1, "weather.temperature") == GetFloat(ec2, "weather.temperature")
    ensures AlertText(ec1) == AlertText(ec2)
  {
  }

  const EmailMetadataError := Fmt("failed to parse email node metadata: %w", [])

  /** The email subject: the metadata subject, or the default when empty. */
  function EmailSubject(metadata: Metadata): (r: Result<string, Text>)
    ensures r.Failure? <==> MetadataString(metadata, "subject", EmailMetadataError).Failure?
    ensures r.Success? ==> r.value != ""
    ensures r.Success? && MetadataString(metadata, "subject", EmailMetadataError).value != "" ==>
      r.value == MetadataString(metadata, "subject", EmailMetadataError).value
    ensures r.Success? && MetadataString(metadata, "subject", EmailMetadataError).value == "" ==>
      r.value == DefaultEmailSubject
  {
    match MetadataString(metadata, "subject", EmailMetadataError)
    case Failure(e) => Failure(e)
    case Success(subject) => Success(if subject == "" then DefaultEmailSubject else subject)
  }

  function EmailExecute(emailFn: Option<EmailFunc>, ec: Context, node: Node): (r: HandlerResult)
    ensures r.ec == ec
    ensures GetString(ec, "form.email") == "" ==> FailedWith(r, ec) && r.err == Some(Lit("recipient email not provided in form data"))
    ensures GetString(ec, "form.email") != "" && EmailSubject(node.metadata).Failure? ==> FailedWith(r, ec) && r.err == Some(EmailMetadataError)
    ensures r.err.None? <==>
      && GetString(ec, "form.email") != ""
      && EmailSubject(node.metadata).Success?
      && (emailFn.None? || emailFn.value(GetString(ec, "form.email"), EmailSubject(node.metadata).value, AlertText(ec)).Pass?)
    ensures r.err.Some? ==> FailedWith(r, ec)
    ensures r.err.None? ==>
      && CompletedFor(r.step, "email", ec, node)
      && Nested(r.step.output, "emailContent", "to") == Some(Val(Str(GetString(ec, "form.email"))))
      && Nested(r.step.output, "emailContent", "subject") == Some(Val(Str(EmailSubject(node.metadata).value)))
      && Nested(r.step.output, "emailContent", "body") == Some(Txt(AlertText(ec)))
  {
    var to := GetString(ec, "form.email");
    if to == "" then HandlerResult(ec, ZeroStep, Some(Lit("recipient email not provided in form data")))
    else match EmailSubject(node.metadata)
      case Failure(e) => HandlerResult(ec, ZeroStep, Some(e))
      case Success(subject) =>
        var body := AlertText(ec);
        var sent := match emailFn case None => Pass case Some(send) => send(to, subject, body);
        match sent
        case Fail(e) => HandlerResult(ec, ZeroStep, Some(Fmt("failed to send email: %w", [Str(e)])))
        case Pass =>
          var content := map["to" := Val(Str(to)), "subject" := Val(Str(subject)), "body" := Txt(body)];
          HandlerResult(ec, Step(ec.stepNumber, "email", node.id, "completed", Measured,
                                 map["message" := Val(Str("Alert email sent")), "emailContent" := Obj(content)], None), None)
  }

  const SmsMetadataError := Fmt("failed to parse SMS node metadata: %w", [])

  /** The SMS text: the metadata template verbatim when non-empty, else the alert sentence. */
  function SmsMessage(ec: Context, metadata: Metadata): (r: Result<Text, Text>)
    ensures r.Failure? <==> MetadataString(metadata, "template", SmsMetadataError).Failure?
    ensures r.Success? && MetadataString(metadata, "template", SmsMetadataError).value != "" ==>
      r.value == Lit(MetadataString(metadata, "template", SmsMetadataError).value)
    ensures r.Success? && MetadataString(metadata, "template", SmsMetadataError).value == "" ==>
      r.value == AlertText(ec)
  {
    match MetadataString(metadata, "template", SmsMetadataError)
    case Failure(e) => Failure(e)
    case Success(template) => Success(if template == "" then AlertText(ec) else Lit(template))
  }

  function SmsExecute(smsFn: Option<SmsFunc>, ec: Context, node: Node): (r: HandlerResult)
    ensures r.ec == ec
    ensures GetString(ec, "form.phone") == "" ==> FailedWith(r, ec) && r.err == Some(Lit("recipient phone not provided in form data"))
    ensures GetString(ec, "form.phone") != "" && SmsMessage(ec, node.metadata).Failure? ==> FailedWith(r, ec) && r.err == Some(SmsMetadataError)
    ensures GetString(ec, "form.phone") != "" && SmsMessage(ec, node.metadata).Success? && smsFn.None? ==>
      FailedWith(r, ec) && r.err == Some(Lit("SMS client not configured"))
    ensures r.err.None? <==>
      && GetString(ec, "form.phone") != ""
      && SmsMessage(ec, node.metadata).Success?
      && smsFn.Some?
      && smsFn.value(GetString(ec, "form.phone"), SmsMessage(ec, node.metadata).value).Pass?
    ensures r.err.Some? ==> FailedWith(r, ec)
    ensures r.err.None? ==>
      && CompletedFor(r.step, "sms", ec, node)
      && Nested(r.step.output, "smsContent", "to") == Some(Val(Str(GetString(ec, "form.phone"))))
      && Nested(r.step.output, "smsContent", "message") == Some(Txt(SmsMessage(ec, node.metadata).value))
  {
    var phone := GetString(ec, "form.phone");
    if phone == "" then HandlerResult(ec, ZeroStep, Some(Lit("recipient phone not provided in form data")))
    else match SmsMessage(ec, node.metadata)
      case Failure(e) => HandlerResult(ec, ZeroStep, Some(e))
      case Success(message) =>
        match smsFn
        case None => HandlerResult(ec, ZeroStep, Some(Lit("SMS client not configured")))
        case Some(send) =>
          match send(phone, message)
          case Fail(e) => HandlerResult(ec, ZeroStep, Some(Fmt("failed to send SMS: %w", [Str(e)])))
          case Pass =>
            var content := map["to" := Val(Str(phone)), "message" := Txt(message)];
            HandlerResult(ec, Step(ec.stepNumber, "sms", node.id, "completed", Measured,
                                   map["message" := Val(Str("SMS sent")), "smsContent" := Obj(content)], None), None)
  }

  // The engine registry: Register keys each handler by its NodeType().

  function Register(r: Registries.Registry<Handler>, h: Handler): (r': Registries.Registry<Handler>)
    ensures Registries.Get(r', h.NodeType()) == Some(h)
    ensures forall kind :: kind != h.NodeType() ==> Registries.Get(r', kind) == Registries.Get(r, kind)
    ensures Keyed(r) ==> Keyed(r')
  {
    Registries.Register(r, h.NodeType(), h)
  }

  /** Every handler is stored under its own NodeType(), as Register keeps it. */
  ghost predicate Keyed(r: Registries.Registry<Handler>) {
    forall kind :: kind in r.handlers ==> r.handlers[kind].NodeType() == kind
  }

  /** The contract every handler of this package keeps, whatever its
      inputs: it leaves the step counter alone, a successful step is
      completed and carries the context's step number, the node's id and the
      handler's own type, and a failure returns the zero step. */
  ghost predicate WellBehaved(h: Handler) {
    forall ec: Context, node: Node :: WellBehavedOn(h.run(ec, node), h.kind, ec, node)
  }

  ghost predicate WellBehavedOn(r: HandlerResult, kind: string, ec: Context, node: Node) {
    && r.ec.stepNumber == ec.stepNumber
    && (r.err.None? ==> CompletedFor(r.step, kind, ec, node))
    && (r.err.Some? ==> r.step == ZeroStep)
  }

  /** Only the condition handler produces a branch flag: every other
      handler's output sends the executor down the first edge. */
  ghost predicate NeverBranches(h: Handler) {
    forall ec: Context, node: Node :: ConditionFlag(h.run(ec, node).step.output).None?
  }

  lemma BuiltinsWellBehaved(weatherFn: Option<WeatherFunc>, emailFn: Option<EmailFunc>, smsFn: Option<SmsFunc>)
    ensures WellBehaved(NewStartHandler()) && WellBehaved(NewEndHandler()) && WellBehaved(NewFormHandler())
    ensures WellBehaved(NewWeatherHandler(weatherFn)) && WellBehaved(NewConditionHandler())
    ensures WellBehaved(NewEmailHandler(emailFn)) && WellBehaved(NewSmsHandler(smsFn))
  {
  }

  lemma StartNeverBranches()
    ensures NeverBranches(NewStartHandler())
  {
    forall ec: Context, node: Node ensures ConditionFlag(StartExecute(ec, node).step.output).None? {
      assert "conditionResult" !in StartExecute(ec, node).step.output;
    }
  }

  lemma EndNeverBranches()
    ensures NeverBranches(NewEndHandler())
  {
    forall ec: Context, node: Node ensures ConditionFlag(EndExecute(ec, node).step.output).None? {
      assert "conditionResult" !in EndExecute(ec, node).step.output;
    }
  }

  lemma WeatherNeverBranches(weatherFn: Option<WeatherFunc>)
    ensures NeverBranches(NewWeatherHandler(weatherFn))
  {
    forall ec: Context, node: Node ensures ConditionFlag(WeatherExecute(weatherFn, ec, node).step.output).None? {
    }
  }

  lemma EmailNeverBranches(emailFn: Option<EmailFunc>)
    ensures NeverBranches(NewEmailHandler(emailFn))
  {
    forall ec: Context, node: Node ensures ConditionFlag(EmailExecute(emailFn, ec, node).step.output).None? {
      assert "conditionResult" !in EmailExecute(emailFn, ec, node).step.output.Keys;
    }
  }

  lemma SmsNeverBranches(smsFn: Option<SmsFunc>)
    ensures NeverBranches(NewSmsHandler(smsFn))
  {
    forall ec: Context, node: Node ensures ConditionFlag(SmsExecute(smsFn, ec, node).step.output).None? {
      assert "conditionResult" !in SmsExecute(smsFn, ec, node).step.output.Keys;
    }
  }

  lemma OnlyConditionBranches(weatherFn: Option<WeatherFunc>, emailFn: Option<EmailFunc>, smsFn: Option<SmsFunc>)
    ensures NeverBranches(NewStartHandler()) && NeverBranches(NewEndHandler()) && NeverBranches(NewFormHandler())
    ensures NeverBranches(NewWeatherHandler(weatherFn))
    ensures NeverBranches(NewEmailHandler(emailFn)) && NeverBranches(NewSmsHandler(smsFn))
  {
    StartNeverBranches();
    EndNeverBranches();
    WeatherNeverBranches(weatherFn);
    EmailNeverBranches(emailFn);
    SmsNeverBranches(smsFn);
  }
}
