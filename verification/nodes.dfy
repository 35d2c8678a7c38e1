/** The node variants of api/services/nodes: a strict condition node, a form
    node that copies declared fields, an email node that fills `{{key}}`
    templates, and the no-op sentinel and passthrough nodes.  Each node keeps
    the database row it was built from (its base fields) and echoes it back
    as JSON unchanged. */
module Nodes {
  import opened Wrappers
  import opened Values
  import Compare
  import Templates

  datatype Position = Position(x: real, y: real)

  /** The columns of a stored node.  The declaration of this struct lives in
      node.go, which is not part of this model; the field shapes follow
      their uses in the node files. */
  datatype BaseFields = BaseFields(
    id: string,
    nodeType: string,
    position: Position,
    labelText: string,
    description: string,
    metadata: Metadata)

  datatype NodeData = NodeData(labelText: string, description: string, metadata: Metadata)

  /** The JSON shape of a node in API responses. */
  datatype NodeJson = NodeJson(id: string, nodeType: string, position: Position, data: NodeData)

  /** What a node's Execute returns when it succeeds.  `branch` is "" unless
      the node chose an outgoing branch. */
  datatype ExecutionResult = ExecutionResult(status: string, branch: string, output: map<string, Out>)

  /** The runtime variables a node reads. */
  datatype NodeContext = NodeContext(variables: map<string, Value>)

  // ---------------------------------------------------------------- ToJSON

  /** ToJSON, the same for every variant: the base row, field for field. */
  function ToJson(base: BaseFields): (j: NodeJson)
    ensures FromJson(j) == base
  {
    NodeJson(base.id, base.nodeType, base.position,
             NodeData(base.labelText, base.description, base.metadata))
  }

  /** Reading the base row back out of its JSON form. */
  function FromJson(j: NodeJson): (base: BaseFields)
  {
    BaseFields(j.id, j.nodeType, j.position, j.data.labelText, j.data.description, j.data.metadata)
  }

  /** Every node JSON is the image of exactly one base row: ToJSON loses
      nothing and invents nothing. */
  lemma ToJsonBijective(base: BaseFields, j: NodeJson)
    ensures ToJson(base) == j <==> base == FromJson(j)
  {
  }

  // ------------------------------------------------------------ toFloat64

  /** toFloat64: the numeric Go types convert; a json.Number converts when
      it parses; anything else (strings, booleans, nil) does not. */
  function ToFloat64(v: Value): (r: Option<real>)
    ensures r.Some? <==> (v.F64? || v.F32? || v.Int? || (v.Number? && v.parsed.Some?))
    ensures v.F64? || v.F32? ==> r == Some(v.r)
    ensures v.Int? ==> r == Some(v.i as real)
    ensures v.Number? ==> r == v.parsed
  {
    match v
    case F64(x) => Some(x)
    case F32(x) => Some(x)
    case Int(i) => Some(i as real)
    case Number(p) => p
    case _ => None
  }

  // ------------------------------------------------------------- Condition

  /** The operators the strict evaluator accepts. */
  predicate IsStrictOperator(operator: string) {
    operator in {"greater_than", "less_than", "equal_to", "greater_than_or_equal", "less_than_or_equal"}
  }

  function UnsupportedOperator(operator: string): Text {
    Fmt("unsupported operator: %s", [Str(operator)])
  }

  /** evaluate: like the lenient comparator, but "equal_to" in place of
      "equals", and an unknown operator is an error rather than "not met". */
  function Evaluate(value: real, operator: string, threshold: real): (r: Result<bool, Text>)
    ensures r.Failure? <==> !IsStrictOperator(operator)
    ensures r.Failure? ==> r.error == UnsupportedOperator(operator)
    ensures operator == "greater_than" ==> r == Success(value > threshold)
    ensures operator == "less_than" ==> r == Success(value < threshold)
    ensures operator == "equal_to" ==> r == Success(value == threshold)
    ensures operator == "greater_than_or_equal" ==> r == Success(value >= threshold)
    ensures operator == "less_than_or_equal" ==> r == Success(value <= threshold)
  {
    match operator
    case "greater_than" => Success(value > threshold)
    case "less_than" => Success(value < threshold)
    case "equal_to" => Success(value == threshold)
    case "greater_than_or_equal" => Success(value >= threshold)
    case "less_than_or_equal" => Success(value <= threshold)
    case _ => Failure(UnsupportedOperator(operator))
  }

  /** The strict and the lenient comparators agree on the four ordering
      operators; they disagree on the equality tag, each rejecting the
      other's spelling. */
  lemma StrictAgreesWithLenient(value: real, operator: string, threshold: real)
    ensures IsStrictOperator(operator) && Compare.IsLenientOperator(operator)
            ==> Evaluate(value, operator, threshold) == Success(Compare.EvaluateCondition(value, operator, threshold))
    ensures Evaluate(value, "equals", threshold).Failure?
    ensures !Compare.EvaluateCondition(value, "equal_to", threshold)
    ensures Evaluate(value, "equal_to", threshold) == Success(Compare.EvaluateCondition(value, "equals", threshold))
  {
  }

  /** The condition node: metadata fields decoded from its row. */
  datatype ConditionNode = ConditionNode(base: BaseFields, conditionExpression: string, outputVariables: seq<string>)

  const DefaultOperator := "greater_than"
  const DefaultThreshold: real := 25.0
  const MissingTemperature := Lit("missing or invalid variable: temperature")

  /** NewConditionNode: json.Unmarshal of the metadata into the node.  An
      empty or malformed blob, or a field of the wrong JSON type, is an
      error; absent fields keep their zero values. */
  function NewConditionNode(base: BaseFields): (r: Result<ConditionNode, Text>)
    ensures r.Failure? ==> r.error == Fmt("invalid condition metadata: %w", [])
    ensures r.Success? ==> r.value.base == base
    ensures !base.metadata.Json? ==> r.Failure?
    ensures base.metadata.Json? ==>
              (r.Success? <==> StringField(base.metadata.fields, "conditionExpression").Success?
                               && StringListField(base.metadata.fields, "outputVariables").Success?)
    ensures base.metadata.Json? && r.Success? ==>
              && r.value.conditionExpression == StringField(base.metadata.fields, "conditionExpression").value
              && r.value.outputVariables == StringListField(base.metadata.fields, "outputVariables").value
  {
    var err := Fmt("invalid condition metadata: %w", []);
    match base.metadata
    case NoBytes => Failure(err)
    case Malformed => Failure(err)
    case Json(fields) =>
      match (StringField(fields, "conditionExpression"), StringListField(fields, "outputVariables"))
      case (Success(expr), Success(outs)) => Success(ConditionNode(base, expr, outs))
      case _ => Failure(err)
  }

  /** Metadata written from a condition expression and output variables
      decodes back to exactly those values. */
  lemma ConditionMetadataRoundTrip(base: BaseFields, expression: string, outputs: seq<string>)
    requires base.metadata.Json?
    requires Lookup(base.metadata.fields, "conditionExpression") == Str(expression)
    requires Lookup(base.metadata.fields, "outputVariables") == List(StrList(outputs))
    ensures NewConditionNode(base) == Success(ConditionNode(base, expression, outputs))
  {
    StringItemsRoundTrip(outputs);
  }

  /** The label the node reports for its outcome; the two are distinct. */
  function BranchLabel(met: bool): (text: string)
    ensures text == "met" <==> met
    ensures text == "not met" <==> !met
  {
    if met then "met" else "not met"
  }

  /** The operator the node uses: a non-empty string variable, or the default. */
  function OperatorOf(vars: map<string, Value>): (op: string)
    ensures op != ""
    ensures Lookup(vars, "operator").Str? && Lookup(vars, "operator").s != "" ==> op == vars["operator"].s
  {
    match Lookup(vars, "operator")
    case Str(s) => if s == "" then DefaultOperator else s
    case _ => DefaultOperator
  }

  /** The threshold the node uses: a numeric variable, or the default. */
  function ThresholdOf(vars: map<string, Value>): (t: real)
    ensures ToFloat64(Lookup(vars, "threshold")).Some? ==> t == ToFloat64(Lookup(vars, "threshold")).value
    ensures ToFloat64(Lookup(vars, "threshold")).None? ==> t == DefaultThreshold
  {
    ToFloat64(Lookup(vars, "threshold")).GetOr(DefaultThreshold)
  }

  /** ConditionNode.Execute.  The expression stored in the metadata is not
      consulted: the temperature is always the variable "temperature". */
  function ConditionExecute(node: ConditionNode, ctx: NodeContext): (r: Result<ExecutionResult, Text>)
    ensures ToFloat64(Lookup(ctx.variables, "temperature")).None? ==> r == Failure(MissingTemperature)
    ensures ToFloat64(Lookup(ctx.variables, "temperature")).Some? ==>
              (r.Failure? <==> !IsStrictOperator(OperatorOf(ctx.variables)))
    ensures r.Failure? ==> r.error == MissingTemperature || r.error == UnsupportedOperator(OperatorOf(ctx.variables))
    ensures r.Success? ==>
              var temperature := ToFloat64(Lookup(ctx.variables, "temperature")).value;
              var met := Evaluate(temperature, OperatorOf(ctx.variables), ThresholdOf(ctx.variables)).value;
              && r.value.status == "completed"
              && (r.value.branch == "true" <==> met)
              && (r.value.branch == "false" <==> !met)
              && r.value.output.Keys == {"conditionMet", "threshold", "operator", "actualValue", "message"}
              && r.value.output["conditionMet"] == Val(Bool(met))
              && r.value.output["actualValue"] == Val(F64(temperature))
              && r.value.output["threshold"] == Val(F64(ThresholdOf(ctx.variables)))
              && r.value.output["operator"] == Val(Str(OperatorOf(ctx.variables)))
  {
    var vars := ctx.variables;
    match ToFloat64(Lookup(vars, "temperature"))
    case None => Failure(MissingTemperature)
    case Some(temperature) =>
      var operator := OperatorOf(vars);
      var threshold := ThresholdOf(vars);
      match Evaluate(temperature, operator, threshold)
      case Failure(e) => Failure(e)
      case Success(met) =>
        Success(ExecutionResult(
          "completed",
          if met then "true" else "false",
          map[
            "conditionMet" := Val(Bool(met)),
            "threshold" := Val(F64(threshold)),
            "operator" := Val(Str(operator)),
            "actualValue" := Val(F64(temperature)),
            "message" := Txt(Fmt("Temperature %.1f°C is %s %.1f°C - condition %s",
                                 [F64(temperature), Str(operator), F64(threshold), Str(BranchLabel(met))]))]))
  }

  /** With neither operator nor threshold set, the node asks whether the
      temperature exceeds 25. */
  lemma ConditionDefaults(node: ConditionNode, temperature: real)
    ensures var r := ConditionExecute(node, NodeContext(map["temperature" := F64(temperature)]));
            r.Success? && (r.value.branch == "true" <==> temperature > 25.0)
  {
  }

  // ------------------------------------------------------------------ Form

  datatype FormNode = FormNode(base: BaseFields, inputFields: seq<string>, outputVariables: seq<string>)

  /** NewFormNode: as for the condition node, with the two list fields. */
  function NewFormNode(base: BaseFields): (r: Result<FormNode, Text>)
    ensures r.Failure? ==> r.error == Fmt("invalid form metadata: %w", [])
    ensures r.Success? ==> r.value.base == base
    ensures !base.metadata.Json? ==> r.Failure?
    ensures base.metadata.Json? ==>
              (r.Success? <==> StringListField(base.metadata.fields, "inputFields").Success?
                               && StringListField(base.metadata.fields, "outputVariables").Success?)
    ensures base.metadata.Json? && r.Success? ==>
              && r.value.inputFields == StringListField(base.metadata.fields, "inputFields").value
              && r.value.outputVariables == StringListField(base.metadata.fields, "outputVariables").value
  {
    var err := Fmt("invalid form metadata: %w", []);
    match base.metadata
    case NoBytes => Failure(err)
    case Malformed => Failure(err)
    case Json(fields) =>
      match (StringListField(fields, "inputFields"), StringListField(fields, "outputVariables"))
      case (Success(ins), Success(outs)) => Success(FormNode(base, ins, outs))
      case _ => Failure(err)
  }

  /** Metadata written from two field lists decodes back to exactly those
      lists, in their order. */
  lemma FormMetadataRoundTrip(base: BaseFields, inputs: seq<string>, outputs: seq<string>)
    requires base.metadata.Json?
    requires Lookup(base.metadata.fields, "inputFields") == List(StrList(inputs))
    requires Lookup(base.metadata.fields, "outputVariables") == List(StrList(outputs))
    ensures NewFormNode(base) == Success(FormNode(base, inputs, outputs))
  {
    StringItemsRoundTrip(inputs);
    StringItemsRoundTrip(outputs);
  }

  function MissingField(field: string): Text {
    Fmt("missing required form field: %s", [Str(field)])
  }

  /** FormNode.Execute: copy every declared input field from the variables,
      failing on the first one that is absent. */
  method FormExecute(node: FormNode, ctx: NodeContext) returns (r: Result<ExecutionResult, Text>)
    ensures r.Failure? <==> exists i :: 0 <= i < |node.inputFields| && node.inputFields[i] !in ctx.variables
    ensures r.Failure? ==>
              exists i :: 0 <= i < |node.inputFields|
                       && node.inputFields[i] !in ctx.variables
                       && (forall j :: 0 <= j < i ==> node.inputFields[j] in ctx.variables)
                       && r.error == MissingField(node.inputFields[i])
    ensures r.Success? ==>
              && r.value.status == "completed"
              && r.value.branch == ""
              && r.value.output.Keys == set f | f in node.inputFields
              && forall k :: k in r.value.output ==> k in ctx.variables && r.value.output[k] == Val(ctx.variables[k])
  {
    var fields := node.inputFields;
    var vars := ctx.variables;
    var output: map<string, Out> := map[];
    var i := 0;
    while i < |fields|
      invariant 0 <= i <= |fields|
      invariant forall j :: 0 <= j < i ==> fields[j] in vars
      invariant output.Keys == set f | f in fields[..i]
      invariant forall k :: k in output ==> k in vars && output[k] == Val(vars[k])
    {
      var field := fields[i];
      if field !in vars {
        return Failure(MissingField(field));
      }
      output := output[field := Val(vars[field])];
      assert fields[..i + 1] == fields[..i] + [field];
      i := i + 1;
    }
    assert fields[..i] == fields;
    return Success(ExecutionResult("completed", "", output));
  }

  // ----------------------------------------------------------------- Email

  datatype EmailTemplate = EmailTemplate(subject: string, body: string)

  datatype EmailNode = EmailNode(
    base: BaseFields,
    inputVariables: seq<string>,
    outputVariables: seq<string>,
    emailTemplate: EmailTemplate)

  /** Decoding the nested emailTemplate object: null or absent gives the
      zero template. */
  function TemplateField(fields: map<string, Value>): (r: Result<EmailTemplate, ()>)
    ensures Lookup(fields, "emailTemplate").Nil? ==> r == Success(EmailTemplate("", ""))
    ensures !(Lookup(fields, "emailTemplate").Nil? || Lookup(fields, "emailTemplate").Object?) ==> r.Failure?
    ensures Lookup(fields, "emailTemplate").Object? ==>
              var t := Lookup(fields, "emailTemplate").fields;
              (r.Success? <==> StringField(t, "subject").Success? && StringField(t, "body").Success?)
              && (r.Success? ==> r.value == EmailTemplate(StringField(t, "subject").value, StringField(t, "body").value))
  {
    match Lookup(fields, "emailTemplate")
    case Nil => Success(EmailTemplate("", ""))
    case Object(t) =>
      (match (StringField(t, "subject"), StringField(t, "body"))
       case (Success(s), Success(b)) => Success(EmailTemplate(s, b))
       case _ => Failure(()))
    case _ => Failure(())
  }

  /** NewEmailNode. */
  function NewEmailNode(base: BaseFields): (r: Result<EmailNode, Text>)
    ensures r.Failure? ==> r.error == Fmt("invalid email metadata: %w", [])
    ensures r.Success? ==> r.value.base == base
    ensures !base.metadata.Json? ==> r.Failure?
    ensures base.metadata.Json? ==>
              (r.Success? <==> StringListField(base.metadata.fields, "inputVariables").Success?
                               && StringListField(base.metadata.fields, "outputVariables").Success?
                               && TemplateField(base.metadata.fields).Success?)
    ensures base.metadata.Json? && r.Success? ==>
              && r.value.inputVariables == StringListField(base.metadata.fields, "inputVariables").value
              && r.value.outputVariables == StringListField(base.metadata.fields, "outputVariables").value
              && r.value.emailTemplate == TemplateField(base.metadata.fields).value
  {
    var err := Fmt("invalid email metadata: %w", []);
    match base.metadata
    case NoBytes => Failure(err)
    case Malformed => Failure(err)
    case Json(fields) =>
      match (StringListField(fields, "inputVariables"), StringListField(fields, "outputVariables"), TemplateField(fields))
      case (Success(ins), Success(outs), Success(t)) => Success(EmailNode(base, ins, outs, t))
      case _ => Failure(err)
  }

  /** Metadata written from two variable lists and a template decodes back
      to exactly those values. */
  lemma EmailMetadataRoundTrip(base: BaseFields, inputs: seq<string>, outputs: seq<string>, t: EmailTemplate)
    requires base.metadata.Json?
    requires Lookup(base.metadata.fields, "inputVariables") == List(StrList(inputs))
    requires Lookup(base.metadata.fields, "outputVariables") == List(StrList(outputs))
    requires Lookup(base.metadata.fields, "emailTemplate") == Object(map["subject" := Str(t.subject), "body" := Str(t.body)])
    ensures NewEmailNode(base) == Success(EmailNode(base, inputs, outputs, t))
  {
    StringItemsRoundTrip(inputs);
    StringItemsRoundTrip(outputs);
  }

  /** `order` lists every variable exactly once: one possible iteration
      order of Go's map range. */
  predicate EnumeratesKeys(vars: map<string, Value>, order: seq<string>) {
    && (forall i :: 0 <= i < |order| ==> order[i] in vars)
    && (forall k :: k in vars ==> k in order)
    && (forall i, j :: 0 <= i < j < |order| ==> order[i] != order[j])
  }

  /** The (key, value) pairs in the given order. */
  function PairsIn(vars: map<string, Value>, order: seq<string>): (pairs: seq<(string, Value)>)
    requires forall i :: 0 <= i < |order| ==> order[i] in vars
    ensures |pairs| == |order|
    ensures forall i :: 0 <= i < |order| ==> pairs[i] == (order[i], vars[order[i]])
  {
    seq(|order|, i requires 0 <= i < |order| => (order[i], vars[order[i]]))
  }

  /** resolveTemplate over the variables visited in `order`; `render` is
      fmt.Sprintf("%v", value). */
  function Resolve(tmpl: string, vars: map<string, Value>, order: seq<string>, render: Value -> string): (s: string)
    requires EnumeratesKeys(vars, order)
    ensures |vars| == 0 ==> s == tmpl
    ensures (forall k :: k in vars ==> !Templates.Contains(tmpl, Templates.Placeholder(k))) ==> s == tmpl
    ensures |order| == 1 ==>
              s == Templates.Join(Templates.Split(tmpl, Templates.Placeholder(order[0])), render(vars[order[0]]))
  {
    var pairs := PairsIn(vars, order);
    var s := Templates.ResolveTemplate(tmpl, pairs, render);
    assert |vars| == 0 ==> |order| == 0 by {
      if |order| > 0 { assert order[0] in vars; }
    }
    assert (forall k :: k in vars ==> !Templates.Contains(tmpl, Templates.Placeholder(k))) ==> s == tmpl by {
      if forall k :: k in vars ==> !Templates.Contains(tmpl, Templates.Placeholder(k)) {
        Templates.NoPlaceholderUnchanged(tmpl, pairs, render);
      }
    }
    assert |order| == 1 ==>
             s == Templates.Join(Templates.Split(tmpl, Templates.Placeholder(order[0])), render(vars[order[0]])) by {
      if |order| == 1 {
        assert pairs == [(order[0], vars[order[0]])];
        Templates.SingleVariable(tmpl, order[0], vars[order[0]], render);
      }
    }
    s
  }

  const Sender := "weather-alerts@example.com"

  /** EmailNode.Execute: never fails; fills both templates and reports the
      draft as sent to the "email" variable when that is a string. */
  function EmailExecute(node: EmailNode, ctx: NodeContext, subjectOrder: seq<string>, bodyOrder: seq<string>,
                        render: Value -> string): (r: Result<ExecutionResult, Text>)
    requires EnumeratesKeys(ctx.variables, subjectOrder) && EnumeratesKeys(ctx.variables, bodyOrder)
    ensures r.Success?
    ensures r.value.status == "completed" && r.value.branch == ""
    ensures r.value.output.Keys == {"emailDraft", "deliveryStatus", "emailSent"}
    ensures r.value.output["deliveryStatus"] == Val(Str("sent"))
    ensures r.value.output["emailSent"] == Val(Bool(true))
    ensures r.value.output["emailDraft"].Obj?
    ensures var draft := r.value.output["emailDraft"].fields;
            && draft.Keys == {"to", "from", "subject", "body"}
            && draft["from"] == Val(Str(Sender))
            && (Lookup(ctx.variables, "email").Str? ==> draft["to"] == Val(ctx.variables["email"]))
            && (!Lookup(ctx.variables, "email").Str? ==> draft["to"] == Val(Str("")))
            && draft["subject"] == Val(Str(Resolve(node.emailTemplate.subject, ctx.variables, subjectOrder, render)))
            && draft["body"] == Val(Str(Resolve(node.emailTemplate.body, ctx.variables, bodyOrder, render)))
  {
    var vars := ctx.variables;
    var subject := Resolve(node.emailTemplate.subject, vars, subjectOrder, render);
    var body := Resolve(node.emailTemplate.body, vars, bodyOrder, render);
    var email := match Lookup(vars, "email") case Str(s) => s case _ => "";
    Success(ExecutionResult("completed", "", map[
      "emailDraft" := Obj(map[
        "to" := Val(Str(email)),
        "from" := Val(Str(Sender)),
        "subject" := Val(Str(subject)),
        "body" := Val(Str(body))]),
      "deliveryStatus" := Val(Str("sent")),
      "emailSent" := Val(Bool(true))]))
  }

  /** A list without repeats drawn from a set is no longer than the set. */
  lemma {:induction false} DistinctWithin(order: seq<string>, keys: set<string>)
    requires forall i :: 0 <= i < |order| ==> order[i] in keys
    requires forall i, j :: 0 <= i < j < |order| ==> order[i] != order[j]
    ensures |order| <= |keys|
  {
    if |order| > 0 {
      var last := order[|order| - 1];
      var init := order[..|order| - 1];
      assert forall i :: 0 <= i < |init| ==> init[i] == order[i];
      DistinctWithin(init, keys - {last});
    }
  }

  /** An order over a single variable lists just that variable. */
  lemma SingleKeyOrder(vars: map<string, Value>, order: seq<string>, k: string)
    requires EnumeratesKeys(vars, order) && |vars| == 1 && k in vars
    ensures order == [k]
  {
    assert |vars.Keys - {k}| == 0;
    assert vars.Keys == {k};
    DistinctWithin(order, vars.Keys);
    assert k in order;
  }

  /** Templates without placeholders go out verbatim, whatever the two
      iteration orders are. */
  lemma EmailDraftVerbatim(node: EmailNode, ctx: NodeContext, subjectOrder: seq<string>, bodyOrder: seq<string>,
                           render: Value -> string)
    requires EnumeratesKeys(ctx.variables, subjectOrder) && EnumeratesKeys(ctx.variables, bodyOrder)
    requires forall k :: k in ctx.variables ==>
               !Templates.Contains(node.emailTemplate.subject, Templates.Placeholder(k))
               && !Templates.Contains(node.emailTemplate.body, Templates.Placeholder(k))
    ensures var draft := EmailExecute(node, ctx, subjectOrder, bodyOrder, render).value.output["emailDraft"].fields;
            draft["subject"] == Val(Str(node.emailTemplate.subject)) && draft["body"] == Val(Str(node.emailTemplate.body))
  {
  }

  /** With a single variable the two iteration orders agree, and every
      `{{key}}` in subject and body becomes the variable's rendered value. */
  lemma EmailDraftOneVariable(node: EmailNode, ctx: NodeContext, subjectOrder: seq<string>, bodyOrder: seq<string>,
                              render: Value -> string, k: string)
    requires EnumeratesKeys(ctx.variables, subjectOrder) && EnumeratesKeys(ctx.variables, bodyOrder)
    requires |ctx.variables| == 1 && k in ctx.variables
    ensures var draft := EmailExecute(node, ctx, subjectOrder, bodyOrder, render).value.output["emailDraft"].fields;
            var value := render(ctx.variables[k]);
            && draft["subject"] == Val(Str(Templates.Join(Templates.Split(node.emailTemplate.subject, Templates.Placeholder(k)), value)))
            && draft["body"] == Val(Str(Templates.Join(Templates.Split(node.emailTemplate.body, Templates.Placeholder(k)), value)))
  {
    SingleKeyOrder(ctx.variables, subjectOrder, k);
    SingleKeyOrder(ctx.variables, bodyOrder, k);
  }

  // ------------------------------------------------- Sentinel, passthrough

  /** SentinelNode.Execute and PassthroughNode.Execute: no-ops that always
      complete, choose no branch and produce nothing. */
  function NoOpExecute(base: BaseFields, ctx: NodeContext): (r: Result<ExecutionResult, Text>)
    ensures r.Success? && r.value.status == "completed"
    ensures r.value.branch == "" && |r.value.output| == 0
  {
    Success(ExecutionResult("completed", "", map[]))
  }

  // ------------------------------------------------------------ Dispatch

  /** The node variants behind the Node interface. */
  datatype Node =
    | Sentinel(base: BaseFields)
    | Passthrough(base: BaseFields)
    | Condition(condition: ConditionNode)
    | Form(form: FormNode)
    | Email(email: EmailNode)
  {
    function Base(): BaseFields {
      match this
      case Sentinel(b) => b
      case Passthrough(b) => b
      case Condition(c) => c.base
      case Form(f) => f.base
      case Email(e) => e.base
    }
  }
}
