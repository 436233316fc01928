/** The generator as the TypeScript function builds it, with imperative
    loops: the edge loop and the node loop each build their part in their
    own accumulator, and the header, the two parts and the closing tag are
    then appended in order. Each loop is shown to build exactly the
    corresponding pass of `DiagramGenerator`, and the whole builder exactly
    the functional drawing. */
module DiagramRenderer {
  import opened Wrappers
  import opened Graph
  import opened Svg
  import opened DiagramGenerator
  import opened DiagramProperties

  /** `nodes.find(n => n.id === id)` as a left-to-right scan. */
  method FindNodeScan(nodes: seq<Node>, id: string) returns (r: Option<Node>)
    ensures r.None? <==> !HasId(nodes, id)
    ensures forall i :: IsFirstMatch(nodes, id, i) ==> r == Some(nodes[i])
    ensures r == FindNode(nodes, id)
  {
    var i := 0;
    while i < |nodes|
      invariant 0 <= i <= |nodes|
      invariant forall k :: 0 <= k < i ==> nodes[k].id != id
    {
      if nodes[i].id == id {
        assert IsFirstMatch(nodes, id, i);
        return Some(nodes[i]);
      }
      i := i + 1;
    }
    return None;
  }

  /** The markup appended for one edge inside the edge loop. */
  method RenderEdge(nodes: seq<Node>, e: Edge) returns (out: seq<Element>)
    ensures out == EdgeElements(nodes, e)
    ensures out == [] <==> !Resolves(nodes, e)
  {
    var source := FindNodeScan(nodes, e.source);
    var target := FindNodeScan(nodes, e.target);
    if source.None? || target.None? {
      return [];
    }
    var s, t := source.value, target.value;
    ResolvedEdgeElements(nodes, e, s, t);
    out := [ Line(s.position.x, s.position.y, t.position.x, t.position.y,
                  IsDummy(e), if IsDummy(e) then None else Some(ArrowheadId)),
             Text((s.position.x + t.position.x) / 2.0, (s.position.y + t.position.y) / 2.0 - 10.0, Middle, Plain(EdgeLabel(e))) ];
  }

  /** Once both endpoints are found, the edge's elements are the line between
      them and the label over its midpoint. */
  lemma ResolvedEdgeElements(nodes: seq<Node>, e: Edge, s: Node, t: Node)
    requires FindNode(nodes, e.source) == Some(s) && FindNode(nodes, e.target) == Some(t)
    ensures EdgeElements(nodes, e) ==
        [ Line(s.position.x, s.position.y, t.position.x, t.position.y,
               IsDummy(e), if IsDummy(e) then None else Some(ArrowheadId)),
          Text((s.position.x + t.position.x) / 2.0, (s.position.y + t.position.y) / 2.0 - 10.0, Middle, Plain(EdgeLabel(e))) ]
  {
  }

  /** `edges.forEach(…)`: the markup of every edge, in input order. */
  method RenderEdges(nodes: seq<Node>, edges: seq<Edge>) returns (out: seq<Element>)
    ensures out == EdgePass(nodes, edges)
  {
    out := [];
    var i := 0;
    while i < |edges|
      invariant 0 <= i <= |edges|
      invariant out == EdgePass(nodes, edges[..i])
    {
      var pair := RenderEdge(nodes, edges[i]);
      EdgePassPrefix(nodes, edges, i);
      out := out + pair;
      i := i + 1;
    }
    assert edges[..i] == edges;
  }

  /** `nodes.forEach(…)`: one group per node, in input order. */
  method RenderNodes(nodes: seq<Node>) returns (out: seq<Element>)
    ensures out == NodePass(nodes)
  {
    out := [];
    var j := 0;
    while j < |nodes|
      invariant 0 <= j <= |nodes|
      invariant out == NodePass(nodes[..j])
    {
      NodePassPrefix(nodes, j);
      out := out + [NodeGlyph(nodes[j])];
      j := j + 1;
    }
    assert nodes[..j] == nodes;
  }

  /** The whole generator: header, edge loop, node loop, closing tag. */
  method RenderSystemDiagram(nodes: seq<Node>, edges: seq<Edge>) returns (svg: seq<Element>)
    ensures svg == GenerateSystemDiagram(nodes, edges)
  {
    svg := Header();
    var drawnEdges := RenderEdges(nodes, edges);
    svg := svg + drawnEdges;
    var drawnNodes := RenderNodes(nodes);
    svg := svg + drawnNodes;
    svg := svg + [SvgClose];
  }
}
