/** The legacy executor (api/services/workflow/executor.go): the same walk
    as the engine's, over a graph built by BuildGraph, where only a node of
    type condition may branch. */
module LegacyExecutor {
  import opened Wrappers
  import opened Values
  import opened LegacyModels
  import opened LegacyGraph
  import Registries
  import L = LegacyHandlers
  import opened Visits

  datatype ExecutionError =
    | CycleDetected(id: string)
    | NodeNotFound(id: string)
    | NoHandler(nodeType: string)
    | HandlerFailed(message: Text)

  /** The returned trace and error; a nil slice is the empty sequence. */
  datatype Run = Run(steps: seq<Step>, err: Option<ExecutionError>)

  /** The branch flag handed to GetNextNode: a step's condition result,
      and only for a node of type condition. */
  function BranchFlag(node: Node, step: Step): (flag: Option<bool>)
    ensures node.nodeType != "condition" ==> flag.None?
    ensures node.nodeType == "condition" ==>
      (flag.Some? <==> step.output.conditionResult.Some?)
    ensures flag.Some? ==> flag.value == step.output.conditionResult.value.result
  {
    if node.nodeType == "condition" && step.output.conditionResult.Some?
    then Some(step.output.conditionResult.value.result)
    else None
  }

  /** The traversal loop, one node per iteration.  An empty id ends the run
      with the steps so far; revisiting a node, a missing node and an
      unregistered type discard the trace (WalkStep states the handler call
      and the move to the next node). */
  function Walk(reg: Registries.Registry<L.Handler>, g: WorkflowGraph, ec: L.Context, current: string,
                visited: set<string>, steps: seq<Step>): (r: Run)
    requires visited <= g.nodes.Keys && |steps| == |visited|
    ensures current == "" ==> r == Run(steps, None)
    ensures current != "" && current in visited ==> r == Run([], Some(CycleDetected(current)))
    ensures current != "" && current !in visited && current !in g.nodes ==>
      r == Run([], Some(NodeNotFound(current)))
    ensures current != "" && current !in visited && current in g.nodes
            && Registries.Get(reg, g.nodes[current].nodeType).None? ==>
      r == Run([], Some(NoHandler(g.nodes[current].nodeType)))
    ensures |r.steps| <= |g.nodes.Keys|
    ensures r.err.Some? && !r.err.value.HandlerFailed? ==> r.steps == []
    ensures r.err.None? || r.err.value.HandlerFailed? ==> steps <= r.steps
    ensures r.err.Some? && r.err.value.HandlerFailed? ==>
      |r.steps| > |steps| && r.steps[|r.steps| - 1].status == "failed"
      && r.steps[|r.steps| - 1].error == Some(r.err.value.message)
    decreases |g.nodes.Keys - visited|
  {
    if current == "" then
      SubsetCardinality(visited, g.nodes.Keys);
      Run(steps, None)
    else if current in visited then Run([], Some(CycleDetected(current)))
    else match GetNode(g, current)
      case None => Run([], Some(NodeNotFound(current)))
      case Some(node) =>
        SubsetCardinality(visited + {current}, g.nodes.Keys);
        match Registries.Get(reg, node.nodeType)
        case None => Run([], Some(NoHandler(node.nodeType)))
        case Some(h) =>
          var res := h.run(ec.(stepNumber := ec.stepNumber + 1), node);
          if res.err.Some? then
            Run(steps + [res.step.(status := "failed", error := res.err)], Some(HandlerFailed(res.err.value)))
          else match GetNextNode(g, current, BranchFlag(node, res.step))
            case None => Run(steps + [res.step], None)
            case Some(next) =>
              if node.nodeType == "end" then Run(steps + [res.step], None)
              else
                UnvisitedShrinks(g.nodes.Keys, visited, current);
                Walk(reg, g, res.ec, next, visited + {current}, steps + [res.step])
  }

  /** One iteration for a fresh, present node with a handler: a failing
      handler ends the run with its step marked failed; a successful step is
      appended, and the walk stops at an end node or when GetNextNode finds
      no edge, and otherwise moves to the target GetNextNode picks with the
      node's branch flag. */
  lemma WalkStep(reg: Registries.Registry<L.Handler>, g: WorkflowGraph, ec: L.Context, current: string,
                 visited: set<string>, steps: seq<Step>, h: L.Handler)
    requires visited <= g.nodes.Keys && |steps| == |visited|
    requires current != "" && current in g.nodes && current !in visited
    requires Registries.Get(reg, g.nodes[current].nodeType) == Some(h)
    ensures var node := g.nodes[current];
            var res := h.run(ec.(stepNumber := ec.stepNumber + 1), node);
            var next := GetNextNode(g, current, BranchFlag(node, res.step));
            && (res.err.Some? ==>
                  Walk(reg, g, ec, current, visited, steps)
                  == Run(steps + [res.step.(status := "failed", error := res.err)], Some(HandlerFailed(res.err.value))))
            && (res.err.None? && (node.nodeType == "end" || next.None?) ==>
                  Walk(reg, g, ec, current, visited, steps) == Run(steps + [res.step], None))
            && (res.err.None? && node.nodeType != "end" && next.Some? ==>
                  Walk(reg, g, ec, current, visited, steps)
                  == Walk(reg, g, res.ec, next.value, visited + {current}, steps + [res.step]))
  {
    assert GetNode(g, current) == Some(g.nodes[current]);
    UnvisitedShrinks(g.nodes.Keys, visited, current);
    SubsetCardinality(visited + {current}, g.nodes.Keys);
  }

  /** Execute: a fresh context holding the form data and an empty state,
      walked from the graph's start node. */
  function Execute(reg: Registries.Registry<L.Handler>, g: WorkflowGraph, formData: FormData): (r: Run)
    ensures g.start == "" ==> r == Run([], None)
    ensures g.start != "" && g.start !in g.nodes ==> r == Run([], Some(NodeNotFound(g.start)))
    ensures g.start != "" && g.start in g.nodes && Registries.Get(reg, g.nodes[g.start].nodeType).None? ==>
      r == Run([], Some(NoHandler(g.nodes[g.start].nodeType)))
    ensures |r.steps| <= |g.nodes.Keys|
    ensures r.err.Some? && !r.err.value.HandlerFailed? ==> r.steps == []
    ensures r.err.Some? && r.err.value.HandlerFailed? ==>
      |r.steps| > 0 && r.steps[|r.steps| - 1].status == "failed"
      && r.steps[|r.steps| - 1].error == Some(r.err.value.message)
  {
    Walk(reg, g, L.Context(formData, map[], 0), g.start, {}, [])
  }

  /** The first handler runs on the submitted form data, an empty state and
      step number 1, and its step heads every trace that is not discarded. */
  lemma FirstStepSeesFormData(reg: Registries.Registry<L.Handler>, g: WorkflowGraph, formData: FormData, h: L.Handler)
    requires g.start != "" && g.start in g.nodes
    requires Registries.Get(reg, g.nodes[g.start].nodeType) == Some(h)
    ensures var res := h.run(L.Context(formData, map[], 1), g.nodes[g.start]);
            var r := Execute(reg, g, formData);
            && (res.err.Some? ==> r == Run([res.step.(status := "failed", error := res.err)], Some(HandlerFailed(res.err.value))))
            && (r.err.None? || r.err.value.HandlerFailed? ==> |r.steps| > 0)
            && (res.err.None? && (r.err.None? || r.err.value.HandlerFailed?) ==> r.steps[0] == res.step)
  {
    var node := g.nodes[g.start];
    assert GetNode(g, g.start) == Some(node);
    var res := h.run(L.Context(formData, map[], 1), node);
    assert L.Context(formData, map[], 0).(stepNumber := 0 + 1) == L.Context(formData, map[], 1);
    assert [] + [res.step] == [res.step];
    assert {} + {g.start} == {g.start};
    if res.err.None? && node.nodeType != "end" && GetNextNode(g, g.start, BranchFlag(node, res.step)).Some? {
      UnvisitedShrinks(g.nodes.Keys, {}, g.start);
      var next := GetNextNode(g, g.start, BranchFlag(node, res.step)).value;
      var rest := Walk(reg, g, res.ec, next, {g.start}, [res.step]);
      assert Execute(reg, g, formData) == rest;
      assert [res.step] <= rest.steps ==> rest.steps[0] == res.step;
    }
  }

  /** A run stops right after an end node's step, even when the end node
      has outgoing edges, and a node with no next node ends the run too. */
  lemma StopsAtEndOrDeadEnd(reg: Registries.Registry<L.Handler>, g: WorkflowGraph, ec: L.Context, current: string,
                            visited: set<string>, steps: seq<Step>, h: L.Handler)
    requires visited <= g.nodes.Keys && |steps| == |visited|
    requires current != "" && current in g.nodes && current !in visited
    requires Registries.Get(reg, g.nodes[current].nodeType) == Some(h)
    requires h.run(ec.(stepNumber := ec.stepNumber + 1), g.nodes[current]).err.None?
    requires g.nodes[current].nodeType == "end" || GetOutgoingEdges(g, current) == []
    ensures Walk(reg, g, ec, current, visited, steps)
            == Run(steps + [h.run(ec.(stepNumber := ec.stepNumber + 1), g.nodes[current]).step], None)
  {
    assert GetNode(g, current) == Some(g.nodes[current]);
    SubsetCardinality(visited + {current}, g.nodes.Keys);
  }

  /** Outside condition nodes the branch result is ignored: after a
      successful step of any other non-end node the walk continues at the
      first outgoing edge's target, whatever the step reports. */
  lemma {:induction false} FollowsFirstEdgeUnlessCondition(reg: Registries.Registry<L.Handler>, g: WorkflowGraph, ec: L.Context,
                                                          current: string, visited: set<string>, steps: seq<Step>, h: L.Handler)
    requires visited <= g.nodes.Keys && |steps| == |visited|
    requires current != "" && current in g.nodes && current !in visited
    requires g.nodes[current].nodeType != "condition" && g.nodes[current].nodeType != "end"
    requires Registries.Get(reg, g.nodes[current].nodeType) == Some(h)
    requires h.run(ec.(stepNumber := ec.stepNumber + 1), g.nodes[current]).err.None?
    requires GetOutgoingEdges(g, current) != []
    ensures var res := h.run(ec.(stepNumber := ec.stepNumber + 1), g.nodes[current]);
            Walk(reg, g, ec, current, visited, steps)
            == Walk(reg, g, res.ec, GetOutgoingEdges(g, current)[0].target, visited + {current}, steps + [res.step])
  {
    var node := g.nodes[current];
    assert GetNode(g, current) == Some(node);
    var res := h.run(ec.(stepNumber := ec.stepNumber + 1), node);
    assert BranchFlag(node, res.step).None?;
    UnvisitedShrinks(g.nodes.Keys, visited, current);
    SubsetCardinality(visited + {current}, g.nodes.Keys);
  }

  /** Registry built with Register whose handlers all keep the handler contract. */
  ghost predicate ContractRegistry(reg: Registries.Registry<L.Handler>) {
    L.Keyed(reg) && forall kind :: kind in reg.handlers ==> L.WellBehaved(reg.handlers[kind])
  }

  /** The loop invariant over well-behaved handlers: the steps so far are
      completed, numbered 1, 2, ... and none is an end step. */
  ghost predicate Progress(ec: L.Context, steps: seq<Step>) {
    && ec.stepNumber == |steps|
    && (forall i :: 0 <= i < |steps| ==> steps[i].stepNumber == i + 1)
    && (forall i :: 0 <= i < |steps| ==> steps[i].status == "completed" && steps[i].nodeType != "end")
  }

  /** The shape of every trace over well-behaved handlers (see RunShape). */
  ghost predicate Shaped(steps: seq<Step>, err: Option<ExecutionError>) {
    && (forall i :: 0 <= i < |steps| ==>
          steps[i].stepNumber == (if steps[i].status == "failed" then 0 else i + 1))
    && (forall i :: 0 <= i < |steps| ==> steps[i].status == "completed" || i == |steps| - 1)
    && (forall i :: 0 <= i < |steps| - 1 ==> steps[i].nodeType != "end")
    && (err.None? ==> forall i :: 0 <= i < |steps| ==> steps[i].status == "completed")
    && (err.Some? && err.value.HandlerFailed? ==>
          && |steps| > 0
          && steps[|steps| - 1] == ZeroStep.(status := "failed", error := Some(err.value.message)))
  }

  lemma ProgressShaped(ec: L.Context, steps: seq<Step>, last: Step, failure: Text)
    requires Progress(ec, steps)
    ensures Shaped(steps, None)
    ensures last.status == "completed" && last.stepNumber == |steps| + 1 ==> Shaped(steps + [last], None)
    ensures last == ZeroStep.(status := "failed", error := Some(failure)) ==>
      Shaped(steps + [last], Some(HandlerFailed(failure)))
  {
  }

  lemma {:induction false} WalkShape(reg: Registries.Registry<L.Handler>, g: WorkflowGraph, ec: L.Context, current: string,
                                     visited: set<string>, steps: seq<Step>)
    requires ContractRegistry(reg)
    requires visited <= g.nodes.Keys && |steps| == |visited|
    requires Progress(ec, steps)
    ensures var r := Walk(reg, g, ec, current, visited, steps); Shaped(r.steps, r.err)
    decreases |g.nodes.Keys - visited|
  {
    var r := Walk(reg, g, ec, current, visited, steps);
    if current == "" {
      ProgressShaped(ec, steps, ZeroStep, Lit(""));
      return;
    }
    if current in visited || current !in g.nodes || Registries.Get(reg, g.nodes[current].nodeType).None? {
      return;
    }
    var node := g.nodes[current];
    assert GetNode(g, current) == Some(node);
    var h := Registries.Get(reg, node.nodeType).value;
    assert h.kind == node.nodeType;
    var ec1 := ec.(stepNumber := ec.stepNumber + 1);
    var res := h.run(ec1, node);
    assert L.WellBehavedOn(h.run(ec1, node), h.kind, ec1);
    SubsetCardinality(visited + {current}, g.nodes.Keys);
    var next := GetNextNode(g, current, BranchFlag(node, res.step));
    if res.err.Some? {
      assert r == Run(steps + [res.step.(status := "failed", error := res.err)], Some(HandlerFailed(res.err.value)));
      ProgressShaped(ec, steps, res.step.(status := "failed", error := res.err), res.err.value);
    } else if next.None? || node.nodeType == "end" {
      assert r == Run(steps + [res.step], None);
      ProgressShaped(ec, steps, res.step, Lit(""));
    } else {
      var steps' := steps + [res.step];
      assert Progress(res.ec, steps');
      UnvisitedShrinks(g.nodes.Keys, visited, current);
      WalkShape(reg, g, res.ec, next.value, visited + {current}, steps');
      assert r == Walk(reg, g, res.ec, next.value, visited + {current}, steps');
    }
  }

  /** Every legacy run over well-behaved handlers numbers its completed
      steps 1, 2, ... in order, stops at the first end step, and on a
      handler failure ends with the zero step marked failed. */
  lemma RunShape(reg: Registries.Registry<L.Handler>, g: WorkflowGraph, formData: FormData)
    requires ContractRegistry(reg)
    ensures var r := Execute(reg, g, formData); Shaped(r.steps, r.err)
  {
    WalkShape(reg, g, L.Context(formData, map[], 0), g.start, {}, []);
  }
}
