# Workflow engine — a Dafny model

This project models the execution core of a weather-alert workflow service
written in Go. A workflow is a graph of typed nodes: start, form,
integration (weather lookup), condition, email, sms and end. An executor walks
the graph from its start node. At each node it runs the handler registered
for the node's type and records one execution step. At a condition node it
follows the outgoing edge whose handle matches the boolean result. The walk
stops at an end node, at a node without outgoing edges, on a revisited node,
or on the first handler error.

The repository carries three generations of this logic, and all three are
modelled:

- **The engine** (`api/pkg/engine`): the graph, the execution context, the
  handler registry, the executor and the seven engine handlers.
  Files: `graph.dfy`, `context.dfy`, `registries.dfy`, `steps.dfy`,
  `handlers.dfy`, `executor.dfy`.
- **The legacy workflow service** (`api/services/workflow`): its own graph
  builder, handlers, registry and executor; the fixed-shape trace builder and
  mock temperature table; and the node/edge response converters.
  Files: `legacy_models.dfy`, `legacy_graph.dfy`, `legacy_handlers.dfy`,
  `legacy_executor.dfy`, `legacy_trace.dfy`.
- **The node variants** (`api/services/nodes`): the strict condition node,
  the form node, the email node with `{{key}}` templates, and the sentinel
  and passthrough nodes.
  Files: `nodes.dfy`, with the string substitution in `templates.dfy`.

The shared pieces are:

- the lenient temperature comparator, which the source copies three times
  and is defined once here (`compare.dfy`);
- Go's loosely typed values and JSON field decoding (`values.dfy`);
- the Option/Result wrappers (`wrappers.dfy`);
- the flood client's risk classifier (`flood.dfy`).

Modelling conventions:

- Go's `interface{}` is the tagged union `Values.Value`.
- Strings built with `fmt.Sprintf`/`fmt.Errorf` are kept symbolic as
  `Text.Fmt(pattern, args)`.
- A node's raw JSON metadata is `Metadata`, with three cases: empty bytes,
  malformed, or a decoded object.
- A handler is a record of its node type and a pure function from (context,
  node) to (new context, step, error). The executor is a recursive function
  whose termination measure is the number of unvisited nodes.
- Injected clients (weather, email, SMS) are function parameters. `None`
  stands for a nil function.
- Go's map iteration order, where it matters, is an explicit parameter.
- The legacy package re-implements node lookup, the first-matching-handle
  search and handler registration over its own types. The model mirrors each
  copy over the matching legacy types (`LegacyGraph.GetNode`,
  `LegacyGraph.FirstWithHandle`, `LegacyHandlers.Register`).

Behaviour of the code worth noting:

- When a cycle is detected, a node is missing, or no handler is registered,
  both executors return a nil step slice and discard the steps so far
  (`api/pkg/engine/executor.go:101-114`,
  `api/services/workflow/executor.go:131-144`).
- A start node whose id is the empty string counts as no start node. The
  engine's Validate and the legacy BuildGraph only test `startNode == ""`.
- The engine's AddNode keeps an existing edge list when a node id is added
  again. The legacy BuildGraph resets the list for every node row, which is
  harmless only because edges are appended afterwards.
- A failing handler's step is the zero step, marked failed by the executor.
  It carries no node type or step number.
- The legacy email handler keeps an explicit `""` subject. Only a missing
  or non-string subject becomes "Weather Alert".
- The engine SMS handler decodes its metadata before it checks for a nil
  SMS function, so bad metadata is reported first.
- Neither executor checks its context for cancellation. The engine's
  cancellation test (`api/pkg/engine/executor_test.go:317-343`) expects
  `context.Canceled` from a run whose handlers never look at the context,
  while the loop (`api/pkg/engine/executor.go:98-134`) completes such a run.
  The model has no cancellation.
- The legacy `ExecutionContext` struct
  (`api/services/workflow/handler.go:9-15`) declares a `Temperature` field
  and no `State` map. Its handlers read and write `ec.State`. The model
  follows the handlers and gives the context a state map.
- A node test (`api/services/nodes/node_test.go:183-208`) expects the
  strict condition node to read a configurable `conditionVariable`. The
  code always reads `temperature`
  (`api/services/nodes/node_condition.go:44`), and the model does the same.

## Model

| member | source | states |
|---|---|---|
| Visits.SubsetCardinality | api/pkg/engine/executor.go:97-104 | a set of visited node ids is never larger than the node set, which bounds the trace length |
| Visits.UnvisitedShrinks | api/pkg/engine/executor.go:101-104 | marking an unvisited node visited leaves strictly fewer unvisited nodes, so the traversal loop terminates |
| Compare.EvaluateCondition | api/pkg/engine/handlers/condition.go:68-83 | each of the five known operators compares the temperature with the threshold as named; any other operator is never met |
| Compare.ComplementaryOperators | api/services/workflow/handlers.go:221-236 | greater_than is exactly the negation of less_than_or_equal, and less_than of greater_than_or_equal |
| Compare.MetOnlyForKnownOperators | api/services/workflow/workflow.go:203-218 | a condition can be met only when its operator is one of the five known tags |
| ExecutionContext.NewExecutionContext | api/pkg/engine/context.go:26-32 | a new context has an empty state, step number 0, and every key reads as nil |
| ExecutionContext.Get | api/pkg/engine/context.go:35-40 | a stored key reads its value; an absent key, including every key of a nil state, reads as nil |
| ExecutionContext.Set | api/pkg/engine/context.go:43-48 | after Set the key reads the new value, every other key reads as before, the key set grows by that key, and the step counter is untouched |
| ExecutionContext.GetString | api/pkg/engine/context.go:51-56 | the stored string, or "" when the value is absent or not a string; a non-empty result means that string is stored |
| ExecutionContext.GetFloat | api/pkg/engine/context.go:59-64 | the stored float64, or 0 otherwise (a float32 or int reads as 0); a non-zero result means that float64 is stored |
| ExecutionContext.Load | api/pkg/engine/executor.go:91-94 | copying the initial state: every initial key reads its initial value, all other keys are unchanged |
| ExecutionContext.SetThenTypedGet | api/pkg/engine/context.go:43-64 | a typed read after a Set of the same key returns the stored value when the type matches and the zero value when it does not |
| ExecutionContext.SetLaws | api/pkg/engine/context.go:43-48 | setting a key twice keeps the second value; setting two different keys commutes |
| Graph.NewGraph | api/pkg/engine/executor.go:23-28 | a new graph has no nodes, no edges and no start node, so it fails validation |
| Graph.AddNode | api/pkg/engine/executor.go:31-39 | the node is stored under its id and the other nodes are unchanged; no edge list changes; the id gets an edge list; the start becomes the node's id exactly for a start node |
| Graph.AddEdge | api/pkg/engine/executor.go:42-44 | the edge is appended to its source's list only; nodes and start are unchanged |
| Graph.Validate | api/pkg/engine/executor.go:47-52 | validation fails, with "graph has no start node", exactly when the start id is "" |
| Graph.GetNode | api/pkg/engine/executor.go:55-58 | a node is found exactly when its id is in the node map |
| Graph.GetStartNode | api/pkg/engine/executor.go:61-63 | the start id is empty exactly when validation fails; Graph.StartIsLastStartAdded identifies it as the id of the last start node added |
| Graph.GetOutgoingEdges | api/pkg/engine/executor.go:66-68 | a source that was never recorded has no outgoing edges |
| Graph.OutgoingEdgesInCallOrder | api/pkg/engine/executor.go:31-44 | for any interleaving of AddNode and AddEdge calls, a source's edge list is its AddEdge calls in call order |
| Graph.StartIsLastStartAdded | api/pkg/engine/executor.go:31-52 | for any interleaving of calls, the start is the id of the last start node added, and validation fails exactly when that id is "" (in particular when no start node was added) |
| Graph.ConstructIsKeyed | api/pkg/engine/executor.go:31-39 | a graph built by these calls stores every node under its own id |
| Registries.NewRegistry | api/pkg/engine/handler.go:47-51 | a new registry finds no handler for any type |
| Registries.Register | api/pkg/engine/handler.go:55-59 | the handler is found under its type, replacing any earlier one; other types are unaffected |
| Registries.Get | api/pkg/engine/handler.go:62-67 | a handler is found exactly when one is stored under the type |
| Registries.NodeTypes | api/pkg/engine/handler.go:70-78 | the result lists every registered type exactly once and nothing else |
| Steps.Nested | api/pkg/engine/executor.go:147-148 | reads an inner key of an output entry that is a map, whether the map is a nested output object or a decoded JSON object, as Go's `map[string]interface{}` assertion accepts both |
| Steps.ConditionFlag | api/pkg/engine/executor.go:147-149 | a branch flag exists exactly when the step output holds a boolean at conditionResult.result, and it is that boolean |
| Steps.ConditionFlagEitherEncoding | api/pkg/engine/executor.go:147-149 | a boolean result under conditionResult gives the same flag in both encodings of the map |
| Handlers.NewStartHandler | api/pkg/engine/handlers/start.go:13-17 | the start handler serves type "start" |
| Handlers.NewEndHandler | api/pkg/engine/handlers/end.go:13-17 | the end handler serves type "end" |
| Handlers.NewFormHandler | api/pkg/engine/handlers/form.go:15-19 | the form handler serves type "form" |
| Handlers.NewWeatherHandler | api/pkg/engine/handlers/weather.go:21-25 | the weather handler serves type "integration" |
| Handlers.NewConditionHandler | api/pkg/engine/handlers/condition.go:17-21 | the condition handler serves type "condition" |
| Handlers.NewEmailHandler | api/pkg/engine/handlers/email.go:23-27 | the email handler serves type "email" |
| Handlers.NewSmsHandler | api/pkg/engine/handlers/sms.go:23-27 | the SMS handler serves type "sms" |
| Handlers.StartExecute | api/pkg/engine/handlers/start.go:19-29 | never fails and leaves the context as it was; a completed start step for this node, numbered with the counter, lasting 10 ms, with message "Workflow started" |
| Handlers.EndExecute | api/pkg/engine/handlers/end.go:19-29 | never fails; a completed end step lasting 5 ms with message "Workflow completed" |
| Handlers.FormExecute | api/pkg/engine/handlers/form.go:21-47 | never fails; the output's formData holds the context's form.name, form.email and form.city strings; no branch flag |
| Handlers.WeatherExecute | api/pkg/engine/handlers/weather.go:27-65 | fails on an empty city, then on a nil weather function, then on a lookup error; succeeds exactly otherwise, storing the temperature under weather.temperature |
| Handlers.ConditionMetadata | api/pkg/engine/handlers/condition.go:26-36 | empty metadata gives ("", 0); malformed metadata is an error; an object decodes operator and threshold with zero values for absent fields |
| Handlers.ConditionExecute | api/pkg/engine/handlers/condition.go:23-66 | succeeds exactly when the metadata decodes with a non-empty operator; the result is the lenient comparison of weather.temperature with the threshold |
| Handlers.MetadataString | api/pkg/engine/handlers/email.go:38-47 | empty metadata gives ""; malformed metadata or a non-string field gives the handler's parse error; otherwise the field's string |
| Handlers.EmailSubject | api/pkg/engine/handlers/email.go:38-51 | the metadata subject when non-empty, the default subject when empty; never empty on success |
| Handlers.AlertText | api/pkg/engine/handlers/email.go:58 | the alert sentence formats the form name, the form city and the weather temperature, in that order, into the fixed pattern |
| Handlers.AlertTextReads | api/pkg/engine/handlers/sms.go:57 | the alert depends on the context only through those three reads: contexts that agree on them give the same sentence |
| Handlers.EmailExecute | api/pkg/engine/handlers/email.go:29-87 | fails on an empty recipient, then on bad metadata, then on a nil or failing email function; succeeds exactly otherwise, sending the alert body to form.email |
| Handlers.SmsMessage | api/pkg/engine/handlers/sms.go:38-58 | the metadata template verbatim when non-empty, else the default alert sentence |
| Handlers.SmsExecute | api/pkg/engine/handlers/sms.go:29-88 | fails on an empty phone, then on bad metadata, then on a nil SMS function, then on a send error; succeeds exactly otherwise |
| Handlers.Register | api/pkg/engine/handler.go:55-59 | registering a handler stores it under its own NodeType() and keeps the registry keyed by type |
| Handlers.BuiltinsWellBehaved | api/pkg/engine/handler.go:28-37 | every built-in handler keeps the handler contract: a completed, correctly numbered step, or the zero step with an error, and the step counter untouched |
| Handlers.OnlyConditionBranches | api/pkg/engine/executor.go:146-161 | no handler other than the condition handler ever produces a branch flag |
| Executor.FirstWithHandle | api/pkg/engine/executor.go:155-159 | the first edge with the wanted handle, or none when no edge has it |
| Executor.NextNode | api/pkg/engine/executor.go:140-166 | "" without outgoing edges; the first edge's target without a branch flag; with a flag, the first edge whose handle matches, falling back to the first edge |
| Executor.Recorded | api/pkg/engine/executor.go:117-125 | a failing handler's step is marked failed and carries the error; a successful step is recorded unchanged |
| Executor.Walk | api/pkg/engine/executor.go:99-136 | an empty id ends the run with the steps so far; a revisited id gives "cycle detected" at that id, an unknown id "node not found", an unregistered type "no handler", each with no steps; never more steps than nodes; a handler failure keeps the earlier steps and ends with a failed step |
| Executor.WalkStep | api/pkg/engine/executor.go:116-133 | a failing handler ends the run with its step marked failed and its error; an end node's successful step ends the run; any other successful step is appended and the walk continues at NextNode, the edge the step's output selects |
| Executor.Execute | api/pkg/engine/executor.go:82-137 | a missing start node is reported exactly when validation fails; an unknown start id gives "node not found" and a start node without handler "no handler", with no steps; never more steps than nodes; errors other than handler failures return no steps |
| Executor.FirstStepSeesInitialState | api/pkg/engine/executor.go:87-117 | the first handler runs on exactly the initial state with step number 1 |
| Executor.StopsAtEndOrDeadEnd | api/pkg/engine/executor.go:125-133 | after a successful step at an end node or at a node without edges, the run stops with that step last |
| Executor.WalkShape | api/pkg/engine/executor.go:99-134 | over well-behaved handlers every trace numbers its completed steps 1, 2, … on distinct nodes, and only the last may be a failure or an end step |
| Executor.RunShape | api/pkg/engine/executor.go:82-137 | every run of Execute over a registry of well-behaved handlers has that shape |
| LegacyModels.Deref | api/services/workflow/models.go:201-208 | a NULL column reads as "", a present one as its value |
| LegacyModels.NodeToResponse | api/services/workflow/models.go:200-223 | the response carries the row's id, type, position and metadata, and its label and description with NULL read as "" |
| LegacyModels.NodeResponseDeterminedBy | api/services/workflow/models.go:200-223 | two rows give the same response exactly when they agree on every field except workflow id, with NULL and "" identified |
| LegacyModels.DecodeEdgeProps | api/services/workflow/models.go:238-252 | edge properties are decoded only from a JSON object whose fields have the right types; anything else leaves them unset |
| LegacyModels.EdgeToResponse | api/services/workflow/models.go:226-256 | id, source and target copied; a NULL handle becomes ""; decoded properties are copied when they decode and zero otherwise |
| LegacyModels.EdgeEndpointsIgnoreProps | api/services/workflow/models.go:226-235 | the edge properties never change the id, endpoints or handle of the response |
| LegacyGraph.GetNode | api/services/workflow/executor.go:75-78 | a node is found exactly when its id was indexed |
| LegacyGraph.GetOutgoingEdges | api/services/workflow/executor.go:81-83 | an id that was never indexed has no outgoing edges |
| LegacyGraph.IndexNodes | api/services/workflow/executor.go:39-50 | every row indexed by id, the last row winning; every id has an empty edge list; the start is the last start row's id |
| LegacyGraph.AppendEdges | api/services/workflow/executor.go:56-69 | each source's list becomes its edge rows in row order, with NULL handles as "" |
| LegacyGraph.BuildGraph | api/services/workflow/executor.go:33-72 | fails with "workflow has no start node" exactly when the last start row's id is "" (or there is no start row); otherwise nodes, start and every edge list agree with the rows |
| LegacyGraph.FirstWithHandle | api/services/workflow/executor.go:105-109 | the first edge with the wanted handle, or none |
| LegacyGraph.GetNextNode | api/services/workflow/executor.go:88-113 | none without edges; without a branch result the first target; with one, the first edge with the matching handle, falling back to the first edge |
| LegacyHandlers.StartExecute | api/services/workflow/handlers.go:15-24 | never fails; a completed start step lasting 10 ms with message "Workflow started" |
| LegacyHandlers.EndExecute | api/services/workflow/handlers.go:31-40 | never fails; a completed end step lasting 5 ms with message "Workflow completed" |
| LegacyHandlers.FormExecute | api/services/workflow/handlers.go:47-68 | never fails; the state gains name, email and city from the form, everything else unchanged; the step carries the form data |
| LegacyHandlers.FetchedTemperature | api/services/workflow/handlers.go:84-90 | the weather function's result when it succeeds, 25 when the function is nil or fails |
| LegacyHandlers.WeatherExecute | api/services/workflow/handlers.go:77-117 | fails exactly when the city is empty; otherwise stores the fetched temperature under "temperature" and reports it in the API response |
| LegacyHandlers.MetadataMap | api/services/workflow/handlers.go:125-130 | empty metadata gives an empty map, malformed metadata an error, an object its fields |
| LegacyHandlers.ConditionInputs | api/services/workflow/handlers.go:125-146 | the errors in source order: bad metadata, no float temperature in state, no string operator, no float threshold; otherwise the three inputs |
| LegacyHandlers.ConditionExecute | api/services/workflow/handlers.go:124-167 | succeeds exactly when the inputs are present; the condition result is the lenient comparison of those inputs |
| LegacyHandlers.Subject | api/services/workflow/handlers.go:189-192 | the metadata subject when it is a string (even ""), else "Weather Alert" |
| LegacyHandlers.StateTemperature | api/services/workflow/handlers.go:197 | the state's float temperature, or 0 |
| LegacyHandlers.EmailExecute | api/services/workflow/handlers.go:174-219 | fails on an empty recipient, then on malformed metadata; succeeds exactly otherwise, with the email addressed to the form's email |
| LegacyHandlers.Register | api/services/workflow/handler.go:40-42 | the handler is stored under its own NodeType(), replacing any earlier one |
| LegacyHandlers.DefaultRegistry | api/services/workflow/handler.go:51-60 | the registry serves exactly the six standard types, each handler under its own type |
| LegacyHandlers.DefaultRegistryHandlers | api/services/workflow/handler.go:51-60 | each standard type is served by its standard handler, the weather handler with the given function |
| LegacyHandlers.BuiltinsWellBehaved | api/services/workflow/handler.go:17-25 | every legacy handler keeps the handler contract |
| LegacyHandlers.DefaultHandlersWellBehaved | api/services/workflow/handler.go:51-60 | every handler of the default registry keeps the handler contract |
| LegacyExecutor.BranchFlag | api/services/workflow/executor.go:158-162 | a branch result is passed on only for a condition node whose step has a condition result |
| LegacyExecutor.Walk | api/services/workflow/executor.go:129-170 | an empty id ends the run with the steps so far; a revisited id gives "cycle detected" at that id, an unknown id "node not found", an unregistered type "no handler", each with no steps; never more steps than nodes; a handler failure keeps the earlier steps and ends with a failed step |
| LegacyExecutor.WalkStep | api/services/workflow/executor.go:146-169 | a failing handler ends the run with its step marked failed; a successful step is appended, the run stops at an end node or when GetNextNode finds no edge, and otherwise continues at the target GetNextNode picks with the node's branch flag |
| LegacyExecutor.Execute | api/services/workflow/executor.go:116-173 | an empty start id gives no steps and no error; an unknown start id gives "node not found" and a start node without handler "no handler"; never more steps than nodes; errors other than handler failures return no steps |
| LegacyExecutor.FirstStepSeesFormData | api/services/workflow/executor.go:119-147 | the first handler runs on the submitted form data, an empty state and step number 1; its failure is the whole run; when it succeeds, its step heads every trace that is not discarded |
| LegacyExecutor.StopsAtEndOrDeadEnd | api/services/workflow/executor.go:164-167 | after a successful step at an end node or a node without next node, the run stops with that step last |
| LegacyExecutor.FollowsFirstEdgeUnlessCondition | api/services/workflow/executor.go:158-169 | after a successful step at a non-condition node, the walk continues at the first edge's target whatever the step's output |
| LegacyExecutor.WalkShape | api/services/workflow/executor.go:129-170 | over well-behaved handlers, completed steps are numbered 1, 2, …, and only the last may be a failure or an end step |
| LegacyExecutor.RunShape | api/services/workflow/executor.go:116-173 | every legacy run over well-behaved handlers has that shape |
| LegacyTrace.GetMockTemperature | api/services/workflow/workflow.go:189-201 | the table temperature for the five known cities, 25 for any other |
| LegacyTrace.MockAlertCities | api/services/workflow/workflow.go:189-218 | under greater_than 25, exactly Sydney, Brisbane, Perth and Adelaide trigger an alert |
| LegacyTrace.BuildExecutionSteps | api/services/workflow/workflow.go:220-308 | six completed steps numbered 1–6 when the condition is met, five without the email step otherwise; each step carries the form, weather, condition and email data |
| LegacyTrace.AlertWorkflow | api/services/workflow/workflow_test.go:144-166 | the weather-alert workflow graph has the node and edge shape the trace builder assumes; it is the test workflow's topology with the "-1" suffix dropped from the ids and `operator`/`threshold` metadata added to the condition row, without which the legacy condition handler fails on the missing operator |
| LegacyTrace.AlertRun | api/services/workflow/executor.go:116-173 | for any registry serving the six standard handlers and any graph of the weather-alert shape, the legacy executor produces the fixed trace: email step exactly when the condition is met |
| LegacyTrace.AlertWorkflowMatchesTrace | api/services/workflow/workflow.go:220-308 | the legacy executor, run with the default registry on the weather-alert workflow, produces exactly the trace that buildExecutionSteps builds |
| Templates.IndexFrom | api/services/nodes/node_email.go:78 | the first occurrence of the pattern at or after a position, or none when there is none |
| Templates.Index | api/services/nodes/node_email.go:78 | the first occurrence of the pattern, or none |
| Templates.ReplaceAll | api/services/nodes/node_email.go:78 | a string without the pattern is returned unchanged |
| Templates.Split | api/services/nodes/node_email.go:78 | the pieces between occurrences; no piece contains the pattern |
| Templates.ReplaceAllIsSplitJoin | api/services/nodes/node_email.go:78 | replacing every occurrence equals splitting around the pattern and joining with the replacement |
| Templates.SplitJoinRoundTrip | api/services/nodes/node_email.go:78 | splitting around a pattern and joining with it again gives back the original |
| Templates.ReplaceAllSelf | api/services/nodes/node_email.go:78 | replacing a pattern by itself changes nothing |
| Templates.Placeholder | api/services/nodes/node_email.go:77 | the placeholder adds exactly two braces on each side of the key |
| Templates.ResolveTemplate | api/services/nodes/node_email.go:74-81 | with no variables the template is returned unchanged |
| Templates.NoPlaceholderUnchanged | api/services/nodes/node_email.go:74-81 | a template containing no placeholder for any variable is returned unchanged |
| Templates.SingleVariable | api/services/nodes/node_email.go:74-81 | with one variable, every occurrence of its placeholder is replaced by the value's text |
| Nodes.ToJson | api/services/nodes/node_sentinel.go:15-26 | the JSON form carries the base row's id, type, position, label, description and metadata unchanged, so the row can be read back from it |
| Nodes.ToJsonBijective | api/services/nodes/node_start.go:15-26 | ToJSON loses nothing and invents nothing: a JSON form is the image of exactly one row |
| Nodes.ToFloat64 | api/services/nodes/node_condition.go:111-125 | float64, float32 and int convert; a json.Number converts when it parses; strings, booleans, nil and everything else do not |
| Nodes.Evaluate | api/services/nodes/node_condition.go:85-100 | each of the five strict operators compares as named; any other operator is the error "unsupported operator: <op>" |
| Nodes.StrictAgreesWithLenient | api/services/nodes/node_condition.go:85-100 | the strict and lenient comparators agree on the four ordering operators; each rejects the other's equality tag |
| Nodes.NewConditionNode | api/services/nodes/node_condition.go:19-25 | empty or malformed metadata, or a mistyped field, is "invalid condition metadata"; otherwise conditionExpression and outputVariables are exactly the decoded values, absent fields giving "" and [] |
| Nodes.ConditionMetadataRoundTrip | api/services/nodes/node_condition.go:19-25 | metadata written from an expression and an output list decodes back to exactly those values |
| Nodes.BranchLabel | api/services/nodes/node_condition.go:102-107 | "met" exactly when the condition is met, "not met" exactly when it is not |
| Nodes.OperatorOf | api/services/nodes/node_condition.go:49-52 | a non-empty string operator variable, else "greater_than" |
| Nodes.ThresholdOf | api/services/nodes/node_condition.go:54-57 | a numeric threshold variable, else 25 |
| Nodes.ConditionExecute | api/services/nodes/node_condition.go:43-83 | a missing or non-numeric temperature is an error; otherwise it fails exactly on an unsupported operator; on success branch is "true" exactly when conditionMet, and the output reports the inputs used |
| Nodes.ConditionDefaults | api/services/nodes/node_condition.go:49-57 | with only a temperature set, the node takes the true branch exactly when the temperature exceeds 25 |
| Nodes.NewFormNode | api/services/nodes/node_form.go:20-25 | empty or malformed metadata, or a mistyped field, is "invalid form metadata"; otherwise inputFields and outputVariables are exactly the decoded lists, in order, with null elements as "" |
| Nodes.FormMetadataRoundTrip | api/services/nodes/node_form.go:20-25 | metadata written from two field lists decodes back to exactly those lists, in their order |
| Nodes.FormExecute | api/services/nodes/node_form.go:43-58 | fails exactly when a declared field is missing, naming the first missing one; on success, completed, with output keys exactly the declared fields and values copied unchanged |
| Nodes.TemplateField | api/services/nodes/node_email.go:22-25 | a null or absent emailTemplate is the empty template; an object decodes subject and body; anything else is an error |
| Nodes.NewEmailNode | api/services/nodes/node_email.go:27-32 | empty or malformed metadata, or a mistyped field, is "invalid email metadata"; otherwise inputVariables, outputVariables and the template are exactly the decoded values |
| Nodes.EmailMetadataRoundTrip | api/services/nodes/node_email.go:27-32 | metadata written from two variable lists and a template decodes back to exactly those values |
| Nodes.Resolve | api/services/nodes/node_email.go:74-81 | for any iteration order of the variables: no variables or no placeholders leave the template unchanged, and a single variable replaces all of its placeholders |
| Nodes.EmailExecute | api/services/nodes/node_email.go:50-71 | never fails; subject and body are each resolved under their own iteration order; the draft goes to the email variable when it is a string, else to ""; it comes from weather-alerts@example.com; status "sent"; emailSent true |
| Nodes.EmailDraftVerbatim | api/services/nodes/node_email.go:50-81 | templates without any variable's placeholder go out unchanged, whatever the two iteration orders |
| Nodes.EmailDraftOneVariable | api/services/nodes/node_email.go:50-81 | with a single variable, every `{{key}}` in subject and body becomes its rendered value, whatever the two iteration orders |
| Nodes.NoOpExecute | api/services/nodes/node_sentinel.go:28-30 | always completed, with no branch and no output |
| Flood.ClassifyRisk | api/pkg/clients/flood/client.go:86-95 | "high" exactly above 500, "moderate" exactly in (100, 500], "low" exactly at or below 100 |
| Flood.Severity | api/pkg/clients/flood/client.go:86-95 | the ordering low < moderate < high |
| Flood.RiskMonotone | api/pkg/clients/flood/client.go:86-95 | more discharge never gives a lower risk |
| Flood.FromSeries | api/pkg/clients/flood/client.go:73-78 | an empty series gives discharge 0 and risk "low"; otherwise the first day's discharge, classified |
| Flood.LaterDaysIgnored | api/pkg/clients/flood/client.go:73-78 | only the first day's value affects the result |

## Left out

- Timestamps, `time.Now`, the measured durations of the engine handlers, and
  `StartTime` are left out. Measured durations appear as `Duration.Measured`.
- `fmt.Sprintf` rendering is not modelled. Formatted strings stay symbolic
  (`Text.Fmt`), so no claim is made about their characters.
- JSON text is not parsed. Metadata arrives already decoded, as empty,
  malformed or an object. Three decoding details are not modelled: the
  case-insensitive key matching of `encoding/json`, a literal `null`
  document, and duplicate keys.
- The decoding error that `fmt.Errorf("invalid … metadata: %w", err)` wraps
  is not modelled. Those error texts carry the wrapping pattern with no
  argument, because the decoder's own message is not modelled.
- Floating point is modelled as exact reals. NaN, infinities, rounding and
  the float32 to float64 widening are not modelled.
- Context cancellation, the engine registry's mutex, and concurrency in
  general are not modelled. Neither executor checks cancellation.
- The HTTP handlers (`HandleGetWorkflow`, `HandleExecuteWorkflow`), the
  repository and its mock, and the service wiring are not modelled: they are
  I/O around the core.
- The weather, email, SMS and flood HTTP clients are not modelled; they are
  parameters of the handlers.
- `getTemperature` in `api/services/workflow/workflow.go:169-187` is not
  modelled: it calls the network and falls back to the mock table.
- The integration node (`api/services/nodes/node_integration.go`) is not
  modelled: it is an HTTP call plus a Unicode case-insensitive city lookup.
- The `BaseFields`, `NodeJSON`, `NodeContext` and `ExecutionResult` types are
  declared in `api/services/nodes/node.go`, which is not part of this model.
  Their field shapes follow their uses.
- Templates.ReplaceAll: requires a non-empty pattern. Go's behaviour for an
  empty pattern is out of scope, because a placeholder always has at least
  four characters.
- Nodes.Resolve: the Go map's iteration order is an explicit parameter.
  Nothing claims the result is independent of that order. Overlapping
  placeholders can make different orders give different results.
- Nodes.EmailExecute: the `%v` rendering of a value is a function parameter.
  The structured log line is left out.
- LegacyModels.DecodeEdgeProps: the raw `style` and `labelStyle` fields are
  carried as decoded values, not as raw JSON bytes.
- The `Details` map of the legacy step output is never filled by the source
  and is left out.
- The services/nodes test expectation of a configurable `conditionVariable`
  is not modelled. The code reads `temperature`, and the model follows the
  code.
