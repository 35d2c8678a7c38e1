/** The engine's executor (api/pkg/engine/executor.go): a walk from the start
    node that runs each node's handler, records its step and follows one
    outgoing edge, guarded by a visited set. */
module Executor {
  import opened Wrappers
  import opened Values
  import opened ExecutionContext
  import opened Graph
  import opened Steps
  import Registries
  import H = Handlers
  import opened Visits

  datatype EngineError =
    | NoStartNode
    | CycleDetected(id: string)
    | NodeNotFound(id: string)
    | NoHandler(nodeType: string)
    | HandlerFailed(message: Text)

  /** The returned trace and error; a nil slice is the empty sequence. */
  datatype Run = Run(steps: seq<Step>, err: Option<EngineError>)

  /** The index of the first edge at or after `from` whose handle is `handle`. */
  function FirstWithHandle(edges: seq<Edge>, handle: string, from: nat): (i: Option<nat>)
    requires from <= |edges|
    ensures i.Some? ==> from <= i.value < |edges| && edges[i.value].handle == handle
    ensures i.Some? ==> forall j :: from <= j < i.value ==> edges[j].handle != handle
    ensures i.None? ==> forall j :: from <= j < |edges| ==> edges[j].handle != handle
    decreases |edges| - from
  {
    if from == |edges| then None
    else if edges[from].handle == handle then Some(from)
    else FirstWithHandle(edges, handle, from + 1)
  }

  /** The edge handle a branch flag asks for. */
  function BranchHandle(flag: bool): string {
    if flag then "true" else "false"
  }

  /** getNextNode: "" when the node has no outgoing edge; for a step whose
      output carries a boolean `conditionResult.result`, the target of the
      first edge with the matching handle; otherwise, and when no edge
      matches, the target of the first edge. */
  function NextNode(g: Graph, current: string, step: Step): (next: string)
    ensures GetOutgoingEdges(g, current) == [] ==> next == ""
    ensures GetOutgoingEdges(g, current) != [] && ConditionFlag(step.output).None? ==>
      next == GetOutgoingEdges(g, current)[0].target
    ensures GetOutgoingEdges(g, current) != [] && ConditionFlag(step.output).Some? ==>
      var edges := GetOutgoingEdges(g, current);
      var handle := BranchHandle(ConditionFlag(step.output).value);
      if exists i :: 0 <= i < |edges| && edges[i].handle == handle
      then exists i :: 0 <= i < |edges| && edges[i].handle == handle && next == edges[i].target
                       && forall j :: 0 <= j < i ==> edges[j].handle != handle
      else next == edges[0].target
  {
    var edges := GetOutgoingEdges(g, current);
    if |edges| == 0 then ""
    else match ConditionFlag(step.output)
      case None => edges[0].target
      case Some(flag) =>
        match FirstWithHandle(edges, BranchHandle(flag), 0)
        case Some(i) => edges[i].target
        case None => edges[0].target
  }

  /** The step recorded for a handler call: a failing call's step is marked
      failed and carries the error message. */
  function Recorded(res: H.HandlerResult): (step: Step)
    ensures res.err.Some? ==> step.status == "failed" && step.error == res.err
    ensures res.err.None? ==> step == res.step
  {
    if res.err.Some? then res.step.(status := "failed", error := res.err) else res.step
  }

  /** The traversal loop.  Each iteration consumes one unvisited node of the
      graph, so the walk terminates and records at most one step per node.
      An empty id ends the run with the steps so far; revisiting a node, a
      missing node and an unregistered type discard the trace (WalkStep
      states the handler call and the move to the next node). */
  function Walk(reg: Registries.Registry<H.Handler>, g: Graph, ec: Context, current: string,
                visited: set<string>, steps: seq<Step>): (r: Run)
    requires visited <= g.nodes.Keys && |steps| == |visited|
    ensures current == "" ==> r == Run(steps, None)
    ensures current != "" && current in visited ==> r == Run([], Some(CycleDetected(current)))
    ensures current != "" && current !in visited && current !in g.nodes ==>
      r == Run([], Some(NodeNotFound(current)))
    ensures current != "" && current !in visited && current in g.nodes
            && Registries.Get(reg, g.nodes[current].nodeType).None? ==>
      r == Run([], Some(NoHandler(g.nodes[current].nodeType)))
    ensures |r.steps| <= |g.nodes.Keys|
    ensures r.err != Some(NoStartNode)
    ensures r.err.Some? && !r.err.value.HandlerFailed? ==> r.steps == []
    ensures r.err.None? || r.err.value.HandlerFailed? ==> steps <= r.steps
    ensures r.err.Some? && r.err.value.HandlerFailed? ==>
      |r.steps| > |steps| && r.steps[|r.steps| - 1].status == "failed"
      && r.steps[|r.steps| - 1].error == Some(r.err.value.message)
    decreases |g.nodes.Keys - visited|
  {
    if current == "" then
      SubsetCardinality(visited, g.nodes.Keys);
      Run(steps, None)
    else if current in visited then Run([], Some(CycleDetected(current)))
    else match GetNode(g, current)
      case None => Run([], Some(NodeNotFound(current)))
      case Some(node) =>
        SubsetCardinality(visited + {current}, g.nodes.Keys);
        match Registries.Get(reg, node.nodeType)
        case None => Run([], Some(NoHandler(node.nodeType)))
        case Some(h) =>
          var res := H.Execute(h, ec.(stepNumber := ec.stepNumber + 1), node);
          if res.err.Some? then Run(steps + [Recorded(res)], Some(HandlerFailed(res.err.value)))
          else
            var next := NextNode(g, current, res.step);
            if node.nodeType == "end" then Run(steps + [res.step], None)
            else
              UnvisitedShrinks(g.nodes.Keys, visited, current);
              Walk(reg, g, res.ec, next, visited + {current}, steps + [res.step])
  }

  /** One iteration for a fresh, present node with a handler: a failing
      handler ends the run with its step marked failed; a successful step of
      any node but an end node is appended and the walk moves to NextNode,
      the target its output selects. */
  lemma WalkStep(reg: Registries.Registry<H.Handler>, g: Graph, ec: Context, current: string,
                 visited: set<string>, steps: seq<Step>, h: H.Handler)
    requires visited <= g.nodes.Keys && |steps| == |visited|
    requires current != "" && current in g.nodes && current !in visited
    requires Registries.Get(reg, g.nodes[current].nodeType) == Some(h)
    ensures var res := H.Execute(h, ec.(stepNumber := ec.stepNumber + 1), g.nodes[current]);
            && (res.err.Some? ==>
                  Walk(reg, g, ec, current, visited, steps)
                  == Run(steps + [Recorded(res)], Some(HandlerFailed(res.err.value))))
            && (res.err.None? && g.nodes[current].nodeType == "end" ==>
                  Walk(reg, g, ec, current, visited, steps) == Run(steps + [res.step], None))
            && (res.err.None? && g.nodes[current].nodeType != "end" ==>
                  Walk(reg, g, ec, current, visited, steps)
                  == Walk(reg, g, res.ec, NextNode(g, current, res.step), visited + {current}, steps + [res.step]))
  {
    assert GetNode(g, current) == Some(g.nodes[current]);
    UnvisitedShrinks(g.nodes.Keys, visited, current);
    SubsetCardinality(visited + {current}, g.nodes.Keys);
  }

  /** Execute: validate, load the initial state into a new context, and walk
      from the start node. */
  function Execute(reg: Registries.Registry<H.Handler>, g: Graph, initial: map<string, Value>): (r: Run)
    ensures r.err == Some(NoStartNode) <==> Validate(g).Fail?
    ensures Validate(g).Fail? ==> r.steps == []
    ensures g.start != "" && g.start !in g.nodes ==> r == Run([], Some(NodeNotFound(g.start)))
    ensures g.start != "" && g.start in g.nodes && Registries.Get(reg, g.nodes[g.start].nodeType).None? ==>
      r == Run([], Some(NoHandler(g.nodes[g.start].nodeType)))
    ensures |r.steps| <= |g.nodes.Keys|
    ensures r.err.Some? && !r.err.value.HandlerFailed? ==> r.steps == []
    ensures r.err.Some? && r.err.value.HandlerFailed? ==>
      |r.steps| > 0 && r.steps[|r.steps| - 1].status == "failed"
      && r.steps[|r.steps| - 1].error == Some(r.err.value.message)
  {
    if Validate(g).Fail? then Run([], Some(NoStartNode))
    else Walk(reg, g, Load(NewExecutionContext(), initial), GetStartNode(g), {}, [])
  }

  /** The first handler runs on exactly the initial state, with step number 1,
      and its step heads the trace. */
  lemma FirstStepSeesInitialState(reg: Registries.Registry<H.Handler>, g: Graph, initial: map<string, Value>, h: H.Handler)
    requires g.start != "" && g.start in g.nodes
    requires Registries.Get(reg, g.nodes[g.start].nodeType) == Some(h)
    ensures var res := H.Execute(h, Context(initial, 1), g.nodes[g.start]);
            var r := Execute(reg, g, initial);
            && (res.err.Some? ==> r == Run([Recorded(res)], Some(HandlerFailed(res.err.value))))
            && (r.err.None? || r.err.value.HandlerFailed? ==> |r.steps| > 0 && r.steps[0] == Recorded(res))
  {
    var ec := Load(NewExecutionContext(), initial);
    assert ec.(stepNumber := ec.stepNumber + 1) == Context(initial, 1) by {
      assert map[] + initial == initial;
    }
    var node := g.nodes[g.start];
    assert GetNode(g, g.start) == Some(node);
    var res := H.Execute(h, Context(initial, 1), node);
    assert [] + [Recorded(res)] == [Recorded(res)];
    if res.err.None? && node.nodeType != "end" {
      UnvisitedShrinks(g.nodes.Keys, {}, g.start);
      var rest := Walk(reg, g, res.ec, NextNode(g, g.start, res.step), {g.start}, [res.step]);
      assert Execute(reg, g, initial) == rest;
    }
  }

  /** A run stops right after an end node's step, even when the end node has
      outgoing edges, and a node with no outgoing edge ends the run too. */
  lemma StopsAtEndOrDeadEnd(reg: Registries.Registry<H.Handler>, g: Graph, ec: Context, current: string,
                            visited: set<string>, steps: seq<Step>, h: H.Handler)
    requires visited <= g.nodes.Keys && |steps| == |visited|
    requires current != "" && current in g.nodes && current !in visited
    requires Registries.Get(reg, g.nodes[current].nodeType) == Some(h)
    requires H.Execute(h, ec.(stepNumber := ec.stepNumber + 1), g.nodes[current]).err.None?
    requires g.nodes[current].nodeType == "end" || GetOutgoingEdges(g, current) == []
    ensures Walk(reg, g, ec, current, visited, steps)
            == Run(steps + [H.Execute(h, ec.(stepNumber := ec.stepNumber + 1), g.nodes[current]).step], None)
  {
    var node := g.nodes[current];
    var res := H.Execute(h, ec.(stepNumber := ec.stepNumber + 1), node);
    assert GetNode(g, current) == Some(node);
    assert Registries.Get(reg, node.nodeType) == Some(h);
    if node.nodeType != "end" {
      var next := NextNode(g, current, res.step);
      assert next == "";
      UnvisitedShrinks(g.nodes.Keys, visited, current);
      SubsetCardinality(visited + {current}, g.nodes.Keys);
      assert Walk(reg, g, res.ec, next, visited + {current}, steps + [res.step]) == Run(steps + [res.step], None);
      assert Walk(reg, g, ec, current, visited, steps) == Walk(reg, g, res.ec, next, visited + {current}, steps + [res.step]);
    }
  }

  /** A registry built with Register whose handlers all keep the handler
      contract, as every handler of the handlers package does. */
  ghost predicate ContractRegistry(reg: Registries.Registry<H.Handler>) {
    H.Keyed(reg) && forall kind :: kind in reg.handlers ==> H.WellBehaved(reg.handlers[kind])
  }

  /** The loop invariant of a run over well-behaved handlers: steps so far are
      completed, numbered 1, 2, ..., come from distinct visited nodes, and
      none is an end step. */
  ghost predicate Progress(ec: Context, visited: set<string>, steps: seq<Step>) {
    && ec.stepNumber == |steps|
    && (forall i :: 0 <= i < |steps| ==> steps[i].stepNumber == i + 1)
    && (forall i :: 0 <= i < |steps| ==> steps[i].status == "completed" && steps[i].nodeType != "end")
    && (forall i :: 0 <= i < |steps| ==> steps[i].nodeId in visited)
    && (forall i, j :: 0 <= i < j < |steps| ==> steps[i].nodeId != steps[j].nodeId)
  }

  /** The shape of every trace over well-behaved handlers (see RunShape). */
  ghost predicate Shaped(steps: seq<Step>, err: Option<EngineError>) {
    && (forall i :: 0 <= i < |steps| ==>
          steps[i].stepNumber == (if steps[i].status == "failed" then 0 else i + 1))
    && (forall i :: 0 <= i < |steps| ==> steps[i].status == "completed" || i == |steps| - 1)
    && (forall i :: 0 <= i < |steps| - 1 ==> steps[i].nodeType != "end")
    && (forall i, j :: 0 <= i < j < |steps| && steps[j].status == "completed" ==> steps[i].nodeId != steps[j].nodeId)
    && (err.None? ==> forall i :: 0 <= i < |steps| ==> steps[i].status == "completed")
    && (err.Some? && err.value.HandlerFailed? ==>
          && |steps| > 0
          && steps[|steps| - 1].status == "failed"
          && steps[|steps| - 1].nodeType == ""
          && steps[|steps| - 1].nodeId == "")
  }

  /** One more completed, non-end step from a fresh node keeps the invariant. */
  lemma ProgressStep(ec: Context, visited: set<string>, steps: seq<Step>, current: string,
                     ec': Context, step: Step)
    requires Progress(ec, visited, steps) && current !in visited
    requires ec'.stepNumber == ec.stepNumber + 1
    requires step.status == "completed" && step.nodeType != "end"
    requires step.nodeId == current && step.stepNumber == ec.stepNumber + 1
    ensures Progress(ec', visited + {current}, steps + [step])
  {
    var steps' := steps + [step];
    forall i | 0 <= i < |steps'| ensures steps'[i].nodeId in visited + {current} {
      if i < |steps| { assert steps'[i] == steps[i]; }
    }
  }

  /** A trace that keeps the invariant is shaped, and stays shaped when a
      final completed step or a final failed zero step is appended. */
  lemma ProgressShaped(ec: Context, visited: set<string>, steps: seq<Step>, last: Step, failure: Text)
    requires Progress(ec, visited, steps)
    ensures Shaped(steps, None)
    ensures last.status == "completed" && last.stepNumber == |steps| + 1 && last.nodeId !in visited ==>
      Shaped(steps + [last], None)
    ensures last == ZeroStep.(status := "failed", error := Some(failure)) ==>
      Shaped(steps + [last], Some(HandlerFailed(failure)))
  {
  }

  lemma {:induction false} WalkShape(reg: Registries.Registry<H.Handler>, g: Graph, ec: Context, current: string,
                                     visited: set<string>, steps: seq<Step>)
    requires ContractRegistry(reg) && Keyed(g)
    requires visited <= g.nodes.Keys && |steps| == |visited|
    requires Progress(ec, visited, steps)
    ensures var r := Walk(reg, g, ec, current, visited, steps); Shaped(r.steps, r.err)
    decreases |g.nodes.Keys - visited|
  {
    var r := Walk(reg, g, ec, current, visited, steps);
    if current == "" {
      ProgressShaped(ec, visited, steps, ZeroStep, Lit(""));
      return;
    }
    if current in visited || current !in g.nodes || Registries.Get(reg, g.nodes[current].nodeType).None? {
      return;
    }
    var node := g.nodes[current];
    assert GetNode(g, current) == Some(node);
    var h := Registries.Get(reg, node.nodeType).value;
    assert h.kind == node.nodeType;
    var ec1 := ec.(stepNumber := ec.stepNumber + 1);
    var res := H.Execute(h, ec1, node);
    assert H.WellBehavedOn(h.run(ec1, node), h.kind, ec1, node);
    SubsetCardinality(visited + {current}, g.nodes.Keys);
    if res.err.Some? {
      assert r == Run(steps + [Recorded(res)], Some(HandlerFailed(res.err.value)));
      ProgressShaped(ec, visited, steps, Recorded(res), res.err.value);
    } else if node.nodeType == "end" {
      assert r == Run(steps + [res.step], None);
      ProgressShaped(ec, visited, steps, res.step, Lit(""));
    } else {
      var steps' := steps + [res.step];
      ProgressStep(ec, visited, steps, current, res.ec, res.step);
      UnvisitedShrinks(g.nodes.Keys, visited, current);
      WalkShape(reg, g, res.ec, NextNode(g, current, res.step), visited + {current}, steps');
      assert r == Walk(reg, g, res.ec, NextNode(g, current, res.step), visited + {current}, steps');
    }
  }

  /** Every run over well-behaved handlers numbers its completed steps 1, 2, ...
      in order, records each node at most once, stops at the first end step,
      and on a handler failure ends with the zero step marked failed (step
      number 0, empty node type and id). */
  lemma RunShape(reg: Registries.Registry<H.Handler>, g: Graph, initial: map<string, Value>)
    requires ContractRegistry(reg) && Keyed(g)
    ensures var r := Execute(reg, g, initial); Shaped(r.steps, r.err)
  {
    if Validate(g).Pass? {
      WalkShape(reg, g, Load(NewExecutionContext(), initial), GetStartNode(g), {}, []);
    }
  }
}
