/** The part of the editor's network graph that the diagram generator reads:
    typed nodes with a caller-supplied position, and edges that name their
    endpoints by node id. Only the fields the generator touches are modelled. */
module Graph {
  import opened Wrappers
  import opened Svg
  import opened Seqs

  /** The node payload: every field may be undefined. */
  datatype NodeData = NodeData(labelText: Option<string>, nodeNumber: Option<int>, elevation: Option<real>)

  /** `kind` is the node's type tag ("reservoir", "surgeTank", "flowBoundary",
      "junction", or anything else). */
  datatype Node = Node(id: string, kind: string, position: Point, data: NodeData)

  /** The optional edge payload: a label and a type tag ("dummy" marks a
      non-physical connection). */
  datatype EdgeData = EdgeData(labelText: Option<string>, kind: Option<string>)

  datatype Edge = Edge(source: string, target: string, data: Option<EdgeData>)

  /** Some node in `nodes` carries identifier `id`. */
  predicate HasId(nodes: seq<Node>, id: string) {
    exists i :: 0 <= i < |nodes| && nodes[i].id == id
  }

  /** `i` is the position of the first node whose identifier is `id`. */
  predicate IsFirstMatch(nodes: seq<Node>, id: string, i: int) {
    && 0 <= i < |nodes|
    && nodes[i].id == id
    && forall j :: 0 <= j < i ==> nodes[j].id != id
  }

  /** Index of the first node with identifier `id`, scanning in input order. */
  function FindIndex(nodes: seq<Node>, id: string): (r: Option<nat>)
    ensures r.None? <==> !HasId(nodes, id)
    ensures r.Some? ==> IsFirstMatch(nodes, id, r.value)
  {
    if |nodes| == 0 then None
    else if nodes[0].id == id then Some(0)
    else
      match FindIndex(nodes[1..], id)
      case None => None
      case Some(k) => Some(k + 1)
  }

  /** `nodes.find(n => n.id === id)`: the first node with that identifier,
      or nothing. With duplicate identifiers the earliest one wins. */
  function FindNode(nodes: seq<Node>, id: string): (r: Option<Node>)
    ensures r.None? <==> !HasId(nodes, id)
    ensures forall i :: IsFirstMatch(nodes, id, i) ==> r == Some(nodes[i])
  {
    match FindIndex(nodes, id)
    case None => None
    case Some(i) => Some(nodes[i])
  }

  /** Both endpoints of `e` name a node that exists. */
  predicate Resolves(nodes: seq<Node>, e: Edge) {
    HasId(nodes, e.source) && HasId(nodes, e.target)
  }

  /** The edges that survive endpoint resolution, in input order. */
  function Resolvable(nodes: seq<Node>, edges: seq<Edge>): (r: seq<Edge>)
    ensures |r| <= |edges|
  {
    if |edges| == 0 then []
    else if Resolves(nodes, edges[0]) then [edges[0]] + Resolvable(nodes, edges[1..])
    else Resolvable(nodes, edges[1..])
  }

  /** An edge survives exactly when both its endpoints resolve. */
  lemma {:induction false} ResolvableMembers(nodes: seq<Node>, edges: seq<Edge>)
    ensures forall e :: e in Resolvable(nodes, edges) <==> e in edges && Resolves(nodes, e)
  {
    if |edges| > 0 {
      ResolvableMembers(nodes, edges[1..]);
      assert edges == [edges[0]] + edges[1..];
    }
  }

  /** Endpoint resolution keeps order and multiplicity: filtering a
      concatenation filters each part and concatenates the results. */
  lemma {:induction false} ResolvableAppend(nodes: seq<Node>, a: seq<Edge>, b: seq<Edge>)
    ensures Resolvable(nodes, a + b) == Resolvable(nodes, a) + Resolvable(nodes, b)
  {
    if |a| == 0 {
      assert a + b == b;
    } else {
      assert (a + b)[0] == a[0] && (a + b)[1..] == a[1..] + b;
      ResolvableAppend(nodes, a[1..], b);
      if Resolves(nodes, a[0]) {
        AppendAssoc([a[0]], Resolvable(nodes, a[1..]), Resolvable(nodes, b));
      }
    }
  }

  /** `edge.data?.type === 'dummy'`: an absent payload or type tag is not dummy. */
  predicate IsDummy(e: Edge)
    ensures e.data.Some? && e.data.value.kind == Some("dummy") ==> IsDummy(e)
    ensures IsDummy(e) ==> e.data.Some? && e.data.value.kind.Some?
    ensures e.data.Some? && e.data.value.kind.Some? && e.data.value.kind.value != "dummy" ==> !IsDummy(e)
  {
    e.data.Some? && e.data.value.kind == Some("dummy")
  }

  /** `edge.data?.label || ''`. */
  function EdgeLabel(e: Edge): (r: string)
    ensures e.data.None? ==> r == ""
    ensures e.data.Some? && e.data.value.labelText.Some? ==> r == e.data.value.labelText.value
    ensures e.data.Some? && e.data.value.labelText.None? ==> r == ""
  {
    match e.data
    case None => ""
    case Some(d) => d.labelText.GetOr("")
  }

  /** `node.data.label || ''`. */
  function NodeLabel(n: Node): (r: string)
    ensures n.data.labelText.Some? ==> r == n.data.labelText.value
    ensures n.data.labelText.None? ==> r == ""
  {
    n.data.labelText.GetOr("")
  }

  /** All identifiers are distinct: the editor's intent, not checked by the generator. */
  predicate UniqueIds(nodes: seq<Node>) {
    forall i, j :: 0 <= i < j < |nodes| ==> nodes[i].id != nodes[j].id
  }
}
