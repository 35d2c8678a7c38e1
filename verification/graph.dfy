/** The engine's workflow graph (api/pkg/engine/executor.go): a node map keyed
    by id, an outgoing-edge list per source id kept in insertion order, and
    the id of the start node. */
module Graph {
  import opened Wrappers
  import opened Values

  datatype Node = Node(id: string, nodeType: string, metadata: Metadata)

  /** `handle` is the edge's SourceHandle: "true", "false", or "" when the edge
      is unconditional. */
  datatype Edge = Edge(source: string, target: string, handle: string)

  datatype Graph = Graph(nodes: map<string, Node>, adjacency: map<string, seq<Edge>>, start: string)

  function NewGraph(): (g: Graph)
    ensures g.nodes == map[] && g.adjacency == map[] && g.start == ""
    ensures Validate(g).Fail?
  {
    Graph(map[], map[], "")
  }

  /** Every node is stored under its own id; AddNode keeps this true. */
  ghost predicate Keyed(g: Graph) {
    forall id :: id in g.nodes ==> g.nodes[id].id == id
  }

  function AddNode(g: Graph, node: Node): (g': Graph)
    ensures GetNode(g', node.id) == Some(node)
    ensures forall id :: id != node.id ==> GetNode(g', id) == GetNode(g, id)
    ensures forall id :: GetOutgoingEdges(g', id) == GetOutgoingEdges(g, id)
    ensures node.id in g'.adjacency
    ensures g'.start == if node.nodeType == "start" then node.id else g.start
    ensures Keyed(g) ==> Keyed(g')
  {
    var adjacency := if node.id in g.adjacency then g.adjacency else g.adjacency[node.id := []];
    var start := if node.nodeType == "start" then node.id else g.start;
    Graph(g.nodes[node.id := node], adjacency, start)
  }

  function AddEdge(g: Graph, edge: Edge): (g': Graph)
    ensures GetOutgoingEdges(g', edge.source) == GetOutgoingEdges(g, edge.source) + [edge]
    ensures forall id :: id != edge.source ==> GetOutgoingEdges(g', id) == GetOutgoingEdges(g, id)
    ensures g'.nodes == g.nodes && g'.start == g.start
  {
    g.(adjacency := g.adjacency[edge.source := GetOutgoingEdges(g, edge.source) + [edge]])
  }

  /** A graph is valid exactly when a start node with a non-empty id was added. */
  function Validate(g: Graph): (r: Outcome<Text>)
    ensures r.Fail? <==> g.start == ""
    ensures r.Fail? ==> r.error == Lit("graph has no start node")
  {
    if g.start == "" then Fail(Lit("graph has no start node")) else Pass
  }

  function GetNode(g: Graph, id: string): (r: Option<Node>)
    ensures r.Some? <==> id in g.nodes
    ensures r.Some? ==> r.value == g.nodes[id]
  {
    if id in g.nodes then Some(g.nodes[id]) else None
  }

  /** The start node's id; it is empty exactly when validation fails. */
  function GetStartNode(g: Graph): (id: string)
    ensures id == "" <==> Validate(g).Fail?
  {
    g.start
  }

  /** The edge list of a source, empty when nothing was recorded for it. */
  function GetOutgoingEdges(g: Graph, id: string): (edges: seq<Edge>)
    ensures id !in g.adjacency ==> edges == []
  {
    if id in g.adjacency then g.adjacency[id] else []
  }

  // Building a graph by an arbitrary interleaving of AddNode and AddEdge
  // calls, as callers and tests do.

  datatype Build = AddN(node: Node) | AddE(edge: Edge)

  function Apply(g: Graph, op: Build): Graph {
    match op
    case AddN(n) => AddNode(g, n)
    case AddE(e) => AddEdge(g, e)
  }

  /** The graph produced by applying the calls in order to a new graph. */
  function Construct(ops: seq<Build>): Graph {
    if |ops| == 0 then NewGraph() else Apply(Construct(ops[..|ops| - 1]), ops[|ops| - 1])
  }

  /** The edges from `source` among the AddEdge calls, in call order. */
  function EdgesFrom(ops: seq<Build>, source: string): (edges: seq<Edge>)
    ensures forall i :: 0 <= i < |edges| ==> edges[i].source == source
  {
    if |ops| == 0 then []
    else
      var rest := EdgesFrom(ops[..|ops| - 1], source);
      match ops[|ops| - 1]
      case AddE(e) => if e.source == source then rest + [e] else rest
      case AddN(_) => rest
  }

  /** The id of the last start node among the AddNode calls, "" if none. */
  function LastStart(ops: seq<Build>): string {
    if |ops| == 0 then ""
    else match ops[|ops| - 1]
      case AddN(n) => if n.nodeType == "start" then n.id else LastStart(ops[..|ops| - 1])
      case AddE(_) => LastStart(ops[..|ops| - 1])
  }

  predicate HasStartNode(ops: seq<Build>) {
    exists i :: 0 <= i < |ops| && ops[i].AddN? && ops[i].node.nodeType == "start"
  }

  /** Edge lists depend only on the AddEdge calls: each source's list holds
      its edges in call order, whether or not (and whenever) its node was
      added, because AddNode never clears an existing list. */
  lemma {:induction false} OutgoingEdgesInCallOrder(ops: seq<Build>, source: string)
    ensures GetOutgoingEdges(Construct(ops), source) == EdgesFrom(ops, source)
  {
    if |ops| > 0 {
      OutgoingEdgesInCallOrder(ops[..|ops| - 1], source);
    }
  }

  /** The start node is the last start node added, and validation fails
      exactly when there is none (or when its id is empty). */
  lemma {:induction false} StartIsLastStartAdded(ops: seq<Build>)
    ensures GetStartNode(Construct(ops)) == LastStart(ops)
    ensures Validate(Construct(ops)).Fail? <==> LastStart(ops) == ""
    ensures !HasStartNode(ops) ==> Validate(Construct(ops)).Fail?
  {
    if |ops| > 0 {
      var init := ops[..|ops| - 1];
      StartIsLastStartAdded(init);
      if !HasStartNode(ops) {
        assert !HasStartNode(init) by {
          forall i | 0 <= i < |init| ensures !(init[i].AddN? && init[i].node.nodeType == "start") {
            assert init[i] == ops[i];
          }
        }
      }
    }
  }

  /** A graph built by these calls stores every node under its own id. */
  lemma {:induction false} ConstructIsKeyed(ops: seq<Build>)
    ensures Keyed(Construct(ops))
  {
    if |ops| > 0 {
      ConstructIsKeyed(ops[..|ops| - 1]);
    }
  }
}
