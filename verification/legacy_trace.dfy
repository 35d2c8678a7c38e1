/** The fixed-shape trace builder and mock temperatures of the legacy
    service (api/services/workflow/workflow.go), and how they agree with the
    legacy executor on the weather-alert workflow. */
module LegacyTrace {
  import opened Wrappers
  import opened Values
  import opened LegacyModels
  import opened Compare
  import opened LegacyGraph
  import Registries
  import L = LegacyHandlers
  import X = LegacyExecutor
  import Visits

  const MockTemperatures: map<string, real> :=
    map["Sydney" := 28.5, "Melbourne" := 22.3, "Brisbane" := 31.2, "Perth" := 35.1, "Adelaide" := 26.8]

  /** The table temperature of the five known cities, 25.0 for any other. */
  function GetMockTemperature(city: string): (t: real)
    ensures city in MockTemperatures ==> t == MockTemperatures[city]
    ensures city !in MockTemperatures ==> t == 25.0
  {
    if city in MockTemperatures then MockTemperatures[city] else 25.0
  }

  /** Against the default greater_than 25 rule, exactly the four warmer
      known cities raise an alert; Melbourne and every unknown city do not. */
  lemma MockAlertCities(city: string)
    ensures EvaluateCondition(GetMockTemperature(city), "greater_than", 25.0)
            <==> city in {"Sydney", "Brisbane", "Perth", "Adelaide"}
  {
  }

  function Completed(stepNumber: int, nodeType: string, duration: int, output: StepOutput): Step {
    Step(stepNumber, nodeType, "completed", duration, output, None)
  }

  // The steps of the fixed trace, one function each.

  function StartStep(): Step {
    Completed(1, "start", 10, MessageOnly("Workflow started"))
  }

  function FormStep(formData: FormData): Step {
    Completed(2, "form", 15, StepOutput(Lit("User input collected"), Some(formData), None, None, None))
  }

  function WeatherStep(formData: FormData, temperature: real): Step {
    Completed(3, "integration", 150,
              StepOutput(Fmt("Fetched weather data for %s", [Str(formData.city)]), None,
                         Some(ApiResponse(L.WeatherEndpoint, "GET", 200,
                                          map["temperature" := F64(temperature), "city" := Str(formData.city)])),
                         None, None))
  }

  function ConditionStep(formData: FormData, temperature: real, conditionMet: bool): Step {
    Completed(4, "condition", 5,
              StepOutput(Fmt("Condition evaluated: temperature %.1f°C %s %.1f°C",
                             [F64(temperature), Str(formData.operator), F64(formData.threshold)]),
                         None, None,
                         Some(ConditionResult(Fmt("temperature %s %.1f", [Str(formData.operator), F64(formData.threshold)]),
                                              conditionMet, temperature, formData.operator, formData.threshold)),
                         None))
  }

  function EmailStep(formData: FormData, temperature: real): Step {
    Completed(5, "email", 50,
              StepOutput(Lit("Alert email sent"), None, None, None,
                         Some(EmailContent(formData.email, "Weather Alert",
                                           Fmt(L.AlertPattern, [Str(formData.name), Str(formData.city), F64(temperature)])))))
  }

  function EndStep(stepNumber: int): Step {
    Completed(stepNumber, "end", 5, MessageOnly("Workflow completed"))
  }

  /** buildExecutionSteps: start, form, integration and condition, then an
      email step when the condition was met, then end. */
  function BuildExecutionSteps(formData: FormData, temperature: real, conditionMet: bool): (steps: seq<Step>)
    ensures |steps| == if conditionMet then 6 else 5
    ensures forall i :: 0 <= i < |steps| ==> steps[i].stepNumber == i + 1
    ensures forall i :: 0 <= i < |steps| ==> steps[i].status == "completed" && steps[i].error.None?
    ensures steps[0].nodeType == "start" && steps[1].nodeType == "form"
    ensures steps[2].nodeType == "integration" && steps[3].nodeType == "condition"
    ensures steps[|steps| - 1].nodeType == "end"
    ensures (exists i :: 0 <= i < |steps| && steps[i].nodeType == "email") <==> conditionMet
    ensures steps[1].output.formData == Some(formData)
    ensures steps[2].output.apiResponse.Some?
            && steps[2].output.apiResponse.value.data == map["temperature" := F64(temperature), "city" := Str(formData.city)]
    ensures steps[3].output.conditionResult.Some?
    ensures var c := steps[3].output.conditionResult.value;
            c.result == conditionMet && c.temperature == temperature
            && c.operator == formData.operator && c.threshold == formData.threshold
    ensures conditionMet ==>
      && steps[4].output.emailContent.Some?
      && steps[4].output.emailContent.value.to == formData.email
      && steps[4].output.emailContent.value.subject == "Weather Alert"
  {
    var steps := [StartStep(), FormStep(formData), WeatherStep(formData, temperature),
                  ConditionStep(formData, temperature, conditionMet)]
                 + (if conditionMet then [EmailStep(formData, temperature)] else []);
    steps + [EndStep(|steps| + 1)]
  }

  function Row(id: string, nodeType: string, metadata: Metadata): Node {
    Node("", id, nodeType, None, None, 0.0, 0.0, metadata)
  }

  /** The weather-alert workflow: start, form, weather lookup and condition,
      whose "true" edge leads to the email node and "false" edge to the end.
      It has the topology and handles of the test workflow in
      api/services/workflow/workflow_test.go:144-166. Two things differ. The
      node ids drop the "-1" suffix. The condition row carries `operator`
      and `threshold` metadata, which the test rows lack. Without that
      metadata the legacy condition handler fails on the missing operator. */
  function AlertWorkflow(operator: string, threshold: real): (g: WorkflowGraph)
    ensures AlertShaped(g, operator, threshold)
  {
    var nodes := map[
      "start" := Row("start", "start", NoBytes),
      "form" := Row("form", "form", NoBytes),
      "weather" := Row("weather", "integration", NoBytes),
      "condition" := Row("condition", "condition", Json(map["operator" := Str(operator), "threshold" := F64(threshold)])),
      "email" := Row("email", "email", NoBytes),
      "end" := Row("end", "end", NoBytes)];
    var adjacency := map[
      "start" := [EdgeTarget("form", "")],
      "form" := [EdgeTarget("weather", "")],
      "weather" := [EdgeTarget("condition", "")],
      "condition" := [EdgeTarget("email", "true"), EdgeTarget("end", "false")],
      "email" := [EdgeTarget("end", "")],
      "end" := []];
    WorkflowGraph(nodes, adjacency, "start")
  }

  /** What the run relies on about the weather-alert workflow. */
  ghost predicate AlertShaped(g: WorkflowGraph, operator: string, threshold: real) {
    && g.start == "start"
    && g.nodes.Keys == {"start", "form", "weather", "condition", "email", "end"}
    && g.nodes["start"].nodeType == "start"
    && g.nodes["form"].nodeType == "form"
    && g.nodes["weather"].nodeType == "integration"
    && g.nodes["condition"] == Row("condition", "condition", Json(map["operator" := Str(operator), "threshold" := F64(threshold)]))
    && g.nodes["email"] == Row("email", "email", NoBytes)
    && g.nodes["end"].nodeType == "end"
    && GetOutgoingEdges(g, "start") == [EdgeTarget("form", "")]
    && GetOutgoingEdges(g, "form") == [EdgeTarget("weather", "")]
    && GetOutgoingEdges(g, "weather") == [EdgeTarget("condition", "")]
    && GetOutgoingEdges(g, "condition") == [EdgeTarget("email", "true"), EdgeTarget("end", "false")]
    && GetOutgoingEdges(g, "email") == [EdgeTarget("end", "")]
  }

  /** The registry serves each type with its standard handler. */
  ghost predicate Serves(reg: Registries.Registry<L.Handler>, weatherFn: Option<L.WeatherFunc>) {
    && Registries.Get(reg, "start") == Some(L.NewStartHandler())
    && Registries.Get(reg, "form") == Some(L.NewFormHandler())
    && Registries.Get(reg, "integration") == Some(L.NewWeatherHandler(weatherFn))
    && Registries.Get(reg, "condition") == Some(L.NewConditionHandler())
    && Registries.Get(reg, "email") == Some(L.NewEmailHandler())
    && Registries.Get(reg, "end") == Some(L.NewEndHandler())
  }

  /** The state after the form handler has run. */
  function FormState(formData: FormData): map<string, Value> {
    map["name" := Str(formData.name), "email" := Str(formData.email), "city" := Str(formData.city)]
  }

  /** The state after the form and weather handlers have run. */
  function AlertState(formData: FormData, t: real): map<string, Value> {
    FormState(formData)["temperature" := F64(t)]
  }

  lemma StartStage(reg: Registries.Registry<L.Handler>, g: WorkflowGraph, weatherFn: Option<L.WeatherFunc>, formData: FormData)
    requires Serves(reg, weatherFn) && AlertShaped(g, formData.operator, formData.threshold)
    ensures X.Walk(reg, g, L.Context(formData, map[], 0), "start", {}, [])
            == X.Walk(reg, g, L.Context(formData, map[], 1), "form", {"start"}, [StartStep()])
  {
    var ec0 := L.Context(formData, map[], 0);
    var h := L.NewStartHandler();
    var node := g.nodes["start"];
    var res := h.run(ec0.(stepNumber := 1), node);
    assert res == L.StartExecute(L.Context(formData, map[], 1), node);
    assert res.ec == L.Context(formData, map[], 1);
    assert res.step == StartStep();
    assert [] + [res.step] == [StartStep()];
    assert {} + {"start"} == {"start"};
    X.FollowsFirstEdgeUnlessCondition(reg, g, ec0, "start", {}, [], h);
  }

  lemma FormStage(reg: Registries.Registry<L.Handler>, g: WorkflowGraph, weatherFn: Option<L.WeatherFunc>, formData: FormData,
                  steps: seq<Step>)
    requires Serves(reg, weatherFn) && AlertShaped(g, formData.operator, formData.threshold)
    requires |steps| == 1
    ensures X.Walk(reg, g, L.Context(formData, map[], 1), "form", {"start"}, steps)
            == X.Walk(reg, g, L.Context(formData, FormState(formData), 2), "weather", {"start", "form"}, steps + [FormStep(formData)])
  {
    var ec := L.Context(formData, map[], 1);
    var h := L.NewFormHandler();
    var node := g.nodes["form"];
    var res := h.run(ec.(stepNumber := 2), node);
    assert res == L.FormExecute(L.Context(formData, map[], 2), node);
    assert res.ec == L.Context(formData, FormState(formData), 2);
    assert res.step == FormStep(formData);
    assert {"start"} + {"form"} == {"start", "form"};
    X.FollowsFirstEdgeUnlessCondition(reg, g, ec, "form", {"start"}, steps, h);
  }

  lemma WeatherStage(reg: Registries.Registry<L.Handler>, g: WorkflowGraph, weatherFn: Option<L.WeatherFunc>, formData: FormData,
                     steps: seq<Step>)
    requires Serves(reg, weatherFn) && AlertShaped(g, formData.operator, formData.threshold)
    requires |steps| == 2 && formData.city != ""
    ensures var t := L.FetchedTemperature(weatherFn, formData.city);
            X.Walk(reg, g, L.Context(formData, FormState(formData), 2), "weather", {"start", "form"}, steps)
            == X.Walk(reg, g, L.Context(formData, AlertState(formData, t), 3), "condition", {"start", "form", "weather"},
                      steps + [WeatherStep(formData, t)])
  {
    var t := L.FetchedTemperature(weatherFn, formData.city);
    var ec := L.Context(formData, FormState(formData), 2);
    var h := L.NewWeatherHandler(weatherFn);
    var node := g.nodes["weather"];
    var res := h.run(ec.(stepNumber := 3), node);
    assert res == L.WeatherExecute(weatherFn, L.Context(formData, FormState(formData), 3), node);
    assert res.ec == L.Context(formData, AlertState(formData, t), 3);
    assert res.step == WeatherStep(formData, t);
    assert {"start", "form"} + {"weather"} == {"start", "form", "weather"};
    X.FollowsFirstEdgeUnlessCondition(reg, g, ec, "weather", {"start", "form"}, steps, h);
  }

  lemma ConditionStage(reg: Registries.Registry<L.Handler>, g: WorkflowGraph, weatherFn: Option<L.WeatherFunc>, formData: FormData,
                       t: real, steps: seq<Step>)
    requires Serves(reg, weatherFn) && AlertShaped(g, formData.operator, formData.threshold)
    requires |steps| == 3
    ensures var met := EvaluateCondition(t, formData.operator, formData.threshold);
            X.Walk(reg, g, L.Context(formData, AlertState(formData, t), 3), "condition", {"start", "form", "weather"}, steps)
            == X.Walk(reg, g, L.Context(formData, AlertState(formData, t), 4), if met then "email" else "end",
                      {"start", "form", "weather", "condition"}, steps + [ConditionStep(formData, t, met)])
  {
    var met := EvaluateCondition(t, formData.operator, formData.threshold);
    var ec := L.Context(formData, AlertState(formData, t), 3);
    var h := L.NewConditionHandler();
    var node := g.nodes["condition"];
    assert GetNode(g, "condition") == Some(node);
    var res := h.run(ec.(stepNumber := 4), node);
    assert res == L.ConditionExecute(L.Context(formData, AlertState(formData, t), 4), node);
    assert Lookup(AlertState(formData, t), "temperature") == F64(t);
    assert L.ConditionInputs(L.Context(formData, AlertState(formData, t), 4), node.metadata)
           == Success((t, formData.operator, formData.threshold));
    assert res.ec == L.Context(formData, AlertState(formData, t), 4);
    assert res.step == ConditionStep(formData, t, met);
    assert X.BranchFlag(node, res.step) == Some(met);
    assert GetNextNode(g, "condition", Some(met)) == Some(if met then "email" else "end") by {
      assert FirstWithHandle(GetOutgoingEdges(g, "condition"), if met then "true" else "false", 0) == Some(if met then 0 else 1);
    }
    assert {"start", "form", "weather"} + {"condition"} == {"start", "form", "weather", "condition"};
    Visits.SubsetCardinality({"start", "form", "weather", "condition"}, g.nodes.Keys);
  }

  lemma EmailStage(reg: Registries.Registry<L.Handler>, g: WorkflowGraph, weatherFn: Option<L.WeatherFunc>, formData: FormData,
                   t: real, steps: seq<Step>)
    requires Serves(reg, weatherFn) && AlertShaped(g, formData.operator, formData.threshold)
    requires |steps| == 4 && formData.email != ""
    ensures X.Walk(reg, g, L.Context(formData, AlertState(formData, t), 4), "email", {"start", "form", "weather", "condition"}, steps)
            == X.Walk(reg, g, L.Context(formData, AlertState(formData, t), 5), "end",
                      {"start", "form", "weather", "condition", "email"}, steps + [EmailStep(formData, t)])
  {
    var ec := L.Context(formData, AlertState(formData, t), 4);
    var h := L.NewEmailHandler();
    var node := g.nodes["email"];
    var res := h.run(ec.(stepNumber := 5), node);
    assert res == L.EmailExecute(L.Context(formData, AlertState(formData, t), 5), node);
    assert Lookup(AlertState(formData, t), "temperature") == F64(t);
    assert res.ec == L.Context(formData, AlertState(formData, t), 5);
    assert res.step == EmailStep(formData, t);
    assert {"start", "form", "weather", "condition"} + {"email"} == {"start", "form", "weather", "condition", "email"};
    X.FollowsFirstEdgeUnlessCondition(reg, g, ec, "email", {"start", "form", "weather", "condition"}, steps, h);
  }

  lemma EndStage(reg: Registries.Registry<L.Handler>, g: WorkflowGraph, formData: FormData,
                 state: map<string, Value>, visited: set<string>, steps: seq<Step>)
    requires Registries.Get(reg, "end") == Some(L.NewEndHandler())
    requires "end" in g.nodes && g.nodes["end"].nodeType == "end"
    requires visited <= g.nodes.Keys && "end" !in visited && |steps| == |visited|
    ensures X.Walk(reg, g, L.Context(formData, state, |steps|), "end", visited, steps)
            == X.Run(steps + [EndStep(|steps| + 1)], None)
  {
    var ec := L.Context(formData, state, |steps|);
    var node := g.nodes["end"];
    var res := L.NewEndHandler().run(ec.(stepNumber := |steps| + 1), node);
    assert res == L.EndExecute(L.Context(formData, state, |steps| + 1), node);
    assert res.step == EndStep(|steps| + 1) && res.err.None?;
    X.StopsAtEndOrDeadEnd(reg, g, ec, "end", visited, steps, L.NewEndHandler());
  }

  /** The trace up to and including the condition step. */
  function LeadSteps(formData: FormData, t: real, met: bool): seq<Step> {
    [StartStep()] + [FormStep(formData)] + [WeatherStep(formData, t)] + [ConditionStep(formData, t, met)]
  }

  /** The fixed trace spelt out step by step. */
  function TraceLiteral(formData: FormData, t: real, met: bool): seq<Step> {
    var lead := LeadSteps(formData, t, met);
    if met then lead + [EmailStep(formData, t)] + [EndStep(6)] else lead + [EndStep(5)]
  }

  lemma TraceSteps(formData: FormData, t: real, met: bool)
    ensures BuildExecutionSteps(formData, t, met) == TraceLiteral(formData, t, met)
  {
  }

  /** The walk through start, form, weather and condition. */
  lemma AlertLeadIn(reg: Registries.Registry<L.Handler>, g: WorkflowGraph, weatherFn: Option<L.WeatherFunc>, formData: FormData)
    requires Serves(reg, weatherFn) && AlertShaped(g, formData.operator, formData.threshold)
    requires formData.city != ""
    ensures var t := L.FetchedTemperature(weatherFn, formData.city);
            var met := EvaluateCondition(t, formData.operator, formData.threshold);
            X.Execute(reg, g, formData)
            == X.Walk(reg, g, L.Context(formData, AlertState(formData, t), 4), if met then "email" else "end",
                      {"start", "form", "weather", "condition"}, LeadSteps(formData, t, met))
  {
    var t := L.FetchedTemperature(weatherFn, formData.city);
    var s1 := [StartStep()];
    var s2 := s1 + [FormStep(formData)];
    var s3 := s2 + [WeatherStep(formData, t)];
    StartStage(reg, g, weatherFn, formData);
    FormStage(reg, g, weatherFn, formData, s1);
    WeatherStage(reg, g, weatherFn, formData, s2);
    ConditionStage(reg, g, weatherFn, formData, t, s3);
  }

  /** The walk over the weather-alert workflow, stage by stage. */
  lemma AlertRun(reg: Registries.Registry<L.Handler>, g: WorkflowGraph, weatherFn: Option<L.WeatherFunc>, formData: FormData)
    requires Serves(reg, weatherFn) && AlertShaped(g, formData.operator, formData.threshold)
    requires formData.city != ""
    requires EvaluateCondition(L.FetchedTemperature(weatherFn, formData.city), formData.operator, formData.threshold)
             ==> formData.email != ""
    ensures var t := L.FetchedTemperature(weatherFn, formData.city);
            X.Execute(reg, g, formData)
            == X.Run(TraceLiteral(formData, t, EvaluateCondition(t, formData.operator, formData.threshold)), None)
  {
    var t := L.FetchedTemperature(weatherFn, formData.city);
    var met := EvaluateCondition(t, formData.operator, formData.threshold);
    var s4 := LeadSteps(formData, t, met);
    AlertLeadIn(reg, g, weatherFn, formData);
    var v4 := {"start", "form", "weather", "condition"};
    if met {
      EmailStage(reg, g, weatherFn, formData, t, s4);
      var s5 := s4 + [EmailStep(formData, t)];
      var v5 := {"start", "form", "weather", "condition", "email"};
      assert |v5| == 5 && v5 <= g.nodes.Keys;
      EndStage(reg, g, formData, AlertState(formData, t), v5, s5);
    } else {
      assert |v4| == 4 && v4 <= g.nodes.Keys;
      EndStage(reg, g, formData, AlertState(formData, t), v4, s4);
    }
  }

  /** The legacy executor, run with the default registry on the weather-alert
      workflow whose condition node holds the submitted operator and
      threshold, produces exactly the fixed trace for the temperature the
      weather handler records (the lookup's result, or 25.0). */
  lemma AlertWorkflowMatchesTrace(formData: FormData, weatherFn: Option<L.WeatherFunc>)
    requires formData.city != ""
    requires EvaluateCondition(L.FetchedTemperature(weatherFn, formData.city), formData.operator, formData.threshold)
             ==> formData.email != ""
    ensures var t := L.FetchedTemperature(weatherFn, formData.city);
            X.Execute(L.DefaultRegistry(weatherFn), AlertWorkflow(formData.operator, formData.threshold), formData)
            == X.Run(BuildExecutionSteps(formData, t, EvaluateCondition(t, formData.operator, formData.threshold)), None)
  {
    var t := L.FetchedTemperature(weatherFn, formData.city);
    L.DefaultRegistryHandlers(weatherFn);
    AlertRun(L.DefaultRegistry(weatherFn), AlertWorkflow(formData.operator, formData.threshold), weatherFn, formData);
    TraceSteps(formData, t, EvaluateCondition(t, formData.operator, formData.threshold));
  }
}
