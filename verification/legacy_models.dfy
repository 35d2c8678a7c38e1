/** Row and response types of the legacy workflow service
    (api/services/workflow/models.go) and the DB-row to response mappers.
    UUIDs are kept as strings; timestamps are not modelled. */
module LegacyModels {
  import opened Wrappers
  import opened Values

  /** A row of the nodes table.  Label and Description are nullable. */
  datatype Node = Node(
    workflowId: string,
    nodeId: string,
    nodeType: string,
    labelText: Option<string>,
    description: Option<string>,
    xPos: real,
    yPos: real,
    metadata: Metadata)

  /** A row of the edges table.  SourceHandle is nullable. */
  datatype Edge = Edge(
    workflowId: string,
    edgeId: string,
    sourceId: string,
    targetId: string,
    sourceHandle: Option<string>,
    edgeProps: Metadata)

  datatype FormData = FormData(name: string, email: string, city: string, operator: string, threshold: real)

  datatype ApiResponse = ApiResponse(endpoint: string, httpMethod: string, statusCode: int, data: map<string, Value>)

  datatype ConditionResult = ConditionResult(expression: Text, result: bool, temperature: real, operator: string, threshold: real)

  datatype EmailContent = EmailContent(to: string, subject: string, body: Text)

  /** The typed step output; its Details map is never filled and is left out. */
  datatype StepOutput = StepOutput(
    message: Text,
    formData: Option<FormData>,
    apiResponse: Option<ApiResponse>,
    conditionResult: Option<ConditionResult>,
    emailContent: Option<EmailContent>)

  datatype Step = Step(stepNumber: int, nodeType: string, status: string, duration: int, output: StepOutput, error: Option<Text>)

  function MessageOnly(message: string): StepOutput {
    StepOutput(Lit(message), None, None, None, None)
  }

  /** The zero ExecutionStep{} the handlers return with an error. */
  const ZeroStep: Step := Step(0, "", "", 0, MessageOnly(""), None)

  datatype Position = Position(x: real, y: real)
  datatype NodeData = NodeData(labelText: string, description: string, metadata: Metadata)
  datatype NodeResponse = NodeResponse(id: string, nodeType: string, position: Position, data: NodeData)

  datatype EdgeResponse = EdgeResponse(
    id: string,
    source: string,
    target: string,
    edgeType: string,
    sourceHandle: string,
    animated: bool,
    style: Option<Value>,
    labelText: string,
    labelTextStyle: Option<Value>)

  /** A nullable string column read as "" when NULL. */
  function Deref(s: Option<string>): (r: string)
    ensures s.Some? ==> r == s.value
    ensures s.None? ==> r == ""
  {
    s.GetOr("")
  }

  function NodeToResponse(n: Node): (r: NodeResponse)
    ensures r.id == n.nodeId && r.nodeType == n.nodeType
    ensures r.position == Position(n.xPos, n.yPos)
    ensures r.data.labelText == Deref(n.labelText) && r.data.description == Deref(n.description)
    ensures r.data.metadata == n.metadata
  {
    NodeResponse(n.nodeId, n.nodeType, Position(n.xPos, n.yPos), NodeData(Deref(n.labelText), Deref(n.description), n.metadata))
  }

  /** Two rows give the same response exactly when they agree on everything
      the response shows: the workflow id is dropped and a NULL label or
      description cannot be told apart from an empty one. */
  lemma NodeResponseDeterminedBy(a: Node, b: Node)
    ensures NodeToResponse(a) == NodeToResponse(b) <==>
      && a.nodeId == b.nodeId && a.nodeType == b.nodeType
      && a.xPos == b.xPos && a.yPos == b.yPos
      && Deref(a.labelText) == Deref(b.labelText) && Deref(a.description) == Deref(b.description)
      && a.metadata == b.metadata
  {
  }

  /** The decoded `edge_props` object: type, animated, style, label and
      labelStyle.  Any field of the wrong JSON type fails the whole decode. */
  datatype EdgeProps = EdgeProps(edgeType: string, animated: bool, style: Option<Value>, labelText: string, labelTextStyle: Option<Value>)

  function DecodeEdgeProps(props: Metadata): (r: Option<EdgeProps>)
    ensures !props.Json? ==> r.None?
    ensures props.Json? ==>
      (r.Some? <==> StringField(props.fields, "type").Success? && BoolField(props.fields, "animated").Success?
                    && StringField(props.fields, "label").Success?)
    ensures r.Some? ==>
      && r.value.edgeType == StringField(props.fields, "type").value
      && r.value.animated == BoolField(props.fields, "animated").value
      && r.value.labelText == StringField(props.fields, "label").value
      && r.value.style == RawField(props.fields, "style")
      && r.value.labelTextStyle == RawField(props.fields, "labelStyle")
  {
    match props
    case Json(fields) =>
      (match (StringField(fields, "type"), BoolField(fields, "animated"), StringField(fields, "label"))
       case (Success(t), Success(a), Success(l)) =>
         Some(EdgeProps(t, a, RawField(fields, "style"), l, RawField(fields, "labelStyle")))
       case _ => None)
    case _ => None
  }

  function EdgeToResponse(e: Edge): (r: EdgeResponse)
    ensures r.id == e.edgeId && r.source == e.sourceId && r.target == e.targetId
    ensures r.sourceHandle == Deref(e.sourceHandle)
    ensures DecodeEdgeProps(e.edgeProps).None? ==>
      r.edgeType == "" && !r.animated && r.style.None? && r.labelText == "" && r.labelTextStyle.None?
    ensures DecodeEdgeProps(e.edgeProps).Some? ==>
      var p := DecodeEdgeProps(e.edgeProps).value;
      r.edgeType == p.edgeType && r.animated == p.animated && r.style == p.style
      && r.labelText == p.labelText && r.labelTextStyle == p.labelTextStyle
  {
    var handle := Deref(e.sourceHandle);
    match DecodeEdgeProps(e.edgeProps)
    case None => EdgeResponse(e.edgeId, e.sourceId, e.targetId, "", handle, false, None, "", None)
    case Some(p) => EdgeResponse(e.edgeId, e.sourceId, e.targetId, p.edgeType, handle, p.animated, p.style, p.labelText, p.labelTextStyle)
  }

  /** Edge properties only decorate the response: the endpoints and handle
      of an edge survive whatever its edge_props hold. */
  lemma EdgeEndpointsIgnoreProps(e: Edge, props: Metadata)
    ensures var a := EdgeToResponse(e); var b := EdgeToResponse(e.(edgeProps := props));
            a.id == b.id && a.source == b.source && a.target == b.target && a.sourceHandle == b.sourceHandle
  {
  }
}
