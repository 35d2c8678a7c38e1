/** The legacy workflow graph (api/services/workflow/executor.go): node rows
    indexed by id, per-source lists of edge targets and a start node, built
    once from the stored rows. */
module LegacyGraph {
  import opened Wrappers
  import opened Values
  import opened LegacyModels

  /** An outgoing edge: its target and its handle ("true", "false" or ""). */
  datatype EdgeTarget = EdgeTarget(target: string, handle: string)

  datatype WorkflowGraph = WorkflowGraph(nodes: map<string, Node>, adjacency: map<string, seq<EdgeTarget>>, start: string)

  function NodeIds(nodes: seq<Node>): set<string> {
    set i | 0 <= i < |nodes| :: nodes[i].nodeId
  }

  lemma NodeIdsAppend(nodes: seq<Node>, node: Node)
    ensures NodeIds(nodes + [node]) == NodeIds(nodes) + {node.nodeId}
  {
    var all := nodes + [node];
    forall id | id in NodeIds(all) ensures id in NodeIds(nodes) + {node.nodeId} {
      var i :| 0 <= i < |all| && all[i].nodeId == id;
      if i < |nodes| { assert nodes[i] == all[i]; }
    }
    forall id | id in NodeIds(nodes) ensures id in NodeIds(all) {
      var i :| 0 <= i < |nodes| && nodes[i].nodeId == id;
      assert all[i] == nodes[i];
    }
    assert all[|nodes|] == node;
  }

  /** The row a map keyed by node id ends up holding: the last one with that id. */
  function LastWithId(nodes: seq<Node>, id: string): (r: Option<Node>)
    ensures r.Some? ==> r.value.nodeId == id && r.value in nodes
    ensures r.None? ==> forall i :: 0 <= i < |nodes| ==> nodes[i].nodeId != id
  {
    if |nodes| == 0 then None
    else if nodes[|nodes| - 1].nodeId == id then Some(nodes[|nodes| - 1])
    else LastWithId(nodes[..|nodes| - 1], id)
  }

  /** The id of the last row of type start, or "" when there is none.  An
      earlier start row does not count, even when the last one's id is "". */
  function LastStartId(nodes: seq<Node>): (r: string)
    ensures (forall i :: 0 <= i < |nodes| ==> nodes[i].nodeType != "start") ==> r == ""
    ensures forall i :: (&& 0 <= i < |nodes| && nodes[i].nodeType == "start"
                         && (forall j :: i < j < |nodes| ==> nodes[j].nodeType != "start")) ==> r == nodes[i].nodeId
    ensures r != "" ==>
      exists i :: 0 <= i < |nodes| && nodes[i].nodeType == "start" && nodes[i].nodeId == r
                  && forall j :: i < j < |nodes| ==> nodes[j].nodeType != "start"
  {
    if |nodes| == 0 then ""
    else if nodes[|nodes| - 1].nodeType == "start" then nodes[|nodes| - 1].nodeId
    else
      var r := LastStartId(nodes[..|nodes| - 1]);
      assert forall j :: 0 <= j < |nodes| - 1 ==> nodes[..|nodes| - 1][j] == nodes[j];
      r
  }

  /** An edge row as an outgoing edge; a NULL handle becomes "". */
  function TargetOf(e: Edge): (t: EdgeTarget)
    ensures t.target == e.targetId && t.handle == Deref(e.sourceHandle)
  {
    EdgeTarget(e.targetId, Deref(e.sourceHandle))
  }

  /** The outgoing edges of `source`, in the order of the edge rows. */
  function Targets(edges: seq<Edge>, source: string): (r: seq<EdgeTarget>)
    ensures |r| <= |edges|
    ensures r == [] <==> forall i :: 0 <= i < |edges| ==> edges[i].sourceId != source
  {
    if |edges| == 0 then []
    else
      var init := edges[..|edges| - 1];
      var last := edges[|edges| - 1];
      assert forall j :: 0 <= j < |init| ==> init[j] == edges[j];
      Targets(init, source) + (if last.sourceId == source then [TargetOf(last)] else [])
  }

  /** GetOutgoingEdges: a source never indexed has no edges. */
  function GetOutgoingEdges(g: WorkflowGraph, id: string): (r: seq<EdgeTarget>)
    ensures id !in g.adjacency ==> r == []
    ensures id in g.adjacency ==> r == g.adjacency[id]
  {
    if id in g.adjacency then g.adjacency[id] else []
  }

  function GetNode(g: WorkflowGraph, id: string): (r: Option<Node>)
    ensures r.Some? <==> id in g.nodes
    ensures r.Some? ==> r.value == g.nodes[id]
  {
    if id in g.nodes then Some(g.nodes[id]) else None
  }

  /** The first loop of BuildGraph: every row indexed by id (the last row
      with an id wins), an empty edge list per id, and the last start id. */
  method IndexNodes(nodes: seq<Node>) returns (index: map<string, Node>, adjacency: map<string, seq<EdgeTarget>>, start: string)
    ensures index.Keys == NodeIds(nodes)
    ensures forall id :: id in index ==> LastWithId(nodes, id) == Some(index[id])
    ensures adjacency.Keys == NodeIds(nodes)
    ensures forall id :: id in adjacency ==> adjacency[id] == []
    ensures start == LastStartId(nodes)
  {
    index, adjacency, start := map[], map[], "";
    for i := 0 to |nodes|
      invariant index.Keys == NodeIds(nodes[..i])
      invariant forall id :: id in index ==> LastWithId(nodes[..i], id) == Some(index[id])
      invariant adjacency.Keys == NodeIds(nodes[..i])
      invariant forall id :: id in adjacency ==> adjacency[id] == []
      invariant start == LastStartId(nodes[..i])
    {
      var node := nodes[i];
      assert nodes[..i + 1] == nodes[..i] + [node];
      assert nodes[..i + 1][..i] == nodes[..i];
      NodeIdsAppend(nodes[..i], node);
      index := index[node.nodeId := node];
      if node.nodeType == "start" {
        start := node.nodeId;
      }
      adjacency := adjacency[node.nodeId := []];
    }
    assert nodes[..|nodes|] == nodes;
  }

  /** One more edge row extends only its own source's list. */
  lemma TargetsStep(edges: seq<Edge>, j: nat, id: string)
    requires j < |edges|
    ensures Targets(edges[..j + 1], id)
            == Targets(edges[..j], id) + (if edges[j].sourceId == id then [TargetOf(edges[j])] else [])
  {
    assert edges[..j + 1][..j] == edges[..j];
  }

  /** A list of the adjacency map, absent meaning empty. */
  function ListOf(adjacency: map<string, seq<EdgeTarget>>, id: string): seq<EdgeTarget> {
    if id in adjacency then adjacency[id] else []
  }

  /** The second loop of BuildGraph: each edge appended to its source's
      list in row order, whether or not the source is a node. */
  method AppendEdges(adjacency: map<string, seq<EdgeTarget>>, edges: seq<Edge>) returns (adjacency': map<string, seq<EdgeTarget>>)
    requires forall id :: id in adjacency ==> adjacency[id] == []
    ensures adjacency.Keys <= adjacency'.Keys
    ensures forall id :: ListOf(adjacency', id) == Targets(edges, id)
  {
    adjacency' := adjacency;
    for j := 0 to |edges|
      invariant adjacency.Keys <= adjacency'.Keys
      invariant forall id :: ListOf(adjacency', id) == Targets(edges[..j], id)
    {
      var edge := edges[j];
      var extended := adjacency'[edge.sourceId := ListOf(adjacency', edge.sourceId) + [TargetOf(edge)]];
      forall id ensures ListOf(extended, id) == Targets(edges[..j + 1], id) {
        TargetsStep(edges, j, id);
      }
      adjacency' := extended;
    }
    assert edges[..|edges|] == edges;
  }

  /** BuildGraph: index the rows, reject a graph whose start id is "", then
      add the edges. */
  method BuildGraph(nodes: seq<Node>, edges: seq<Edge>) returns (r: Result<WorkflowGraph, Text>)
    ensures r.Failure? <==> LastStartId(nodes) == ""
    ensures r.Failure? ==> r.error == Lit("workflow has no start node")
    ensures r.Success? ==> r.value.start == LastStartId(nodes)
    ensures r.Success? ==> r.value.nodes.Keys == NodeIds(nodes)
    ensures r.Success? ==> forall id :: id in r.value.nodes ==> LastWithId(nodes, id) == Some(r.value.nodes[id])
    ensures r.Success? ==> forall id :: id in NodeIds(nodes) ==> id in r.value.adjacency
    ensures r.Success? ==> forall id :: GetOutgoingEdges(r.value, id) == Targets(edges, id)
  {
    var index, adjacency, start := IndexNodes(nodes);
    if start == "" {
      return Failure(Lit("workflow has no start node"));
    }
    adjacency := AppendEdges(adjacency, edges);
    r := Success(WorkflowGraph(index, adjacency, start));
    assert forall id :: GetOutgoingEdges(r.value, id) == ListOf(adjacency, id);
  }

  /** The index of the first edge at or after `from` with the given handle. */
  function FirstWithHandle(edges: seq<EdgeTarget>, handle: string, from: nat): (i: Option<nat>)
    requires from <= |edges|
    ensures i.Some? ==> from <= i.value < |edges| && edges[i.value].handle == handle
    ensures i.Some? ==> forall j :: from <= j < i.value ==> edges[j].handle != handle
    ensures i.None? ==> forall j :: from <= j < |edges| ==> edges[j].handle != handle
    decreases |edges| - from
  {
    if from == |edges| then None
    else if edges[from].handle == handle then Some(from)
    else FirstWithHandle(edges, handle, from + 1)
  }

  /** GetNextNode: none when the node has no outgoing edge; without a branch
      flag the first edge's target; with one, the first edge whose handle is
      "true" or "false" to match, falling back to the first edge. */
  function GetNextNode(g: WorkflowGraph, id: string, flag: Option<bool>): (next: Option<string>)
    ensures next.None? <==> GetOutgoingEdges(g, id) == []
    ensures next.Some? && flag.None? ==> next.value == GetOutgoingEdges(g, id)[0].target
    ensures next.Some? && flag.Some? ==>
      var edges := GetOutgoingEdges(g, id);
      var handle := if flag.value then "true" else "false";
      if exists i :: 0 <= i < |edges| && edges[i].handle == handle
      then exists i :: 0 <= i < |edges| && edges[i].handle == handle && next.value == edges[i].target
                       && forall j :: 0 <= j < i ==> edges[j].handle != handle
      else next.value == edges[0].target
  {
    var edges := GetOutgoingEdges(g, id);
    if |edges| == 0 then None
    else match flag
      case None => Some(edges[0].target)
      case Some(result) =>
        match FirstWithHandle(edges, if result then "true" else "false", 0)
        case Some(i) => Some(edges[i].target)
        case None => Some(edges[0].target)
  }
}
