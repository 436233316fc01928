/** `generateSystemDiagram`: the whole SVG drawing of a network, as a flat
    sequence of elements — the svg header with its arrowhead marker, one
    line and one label per drawable edge, one group per node, and `</svg>`. */
module DiagramGenerator {
  import opened Wrappers
  import opened Graph
  import opened Svg

  const SvgWidth: int := 1300
  const SvgHeight: int := 750
  const ArrowheadId: string := "arrowhead"

  /** The opening `<svg>` tag and the `<defs>` block declaring the arrowhead. */
  function Header(): (r: seq<Element>)
    ensures |r| == 2 && r[0] == SvgOpen(SvgWidth, SvgHeight)
    ensures r[1].MarkerDef? && r[1].id == ArrowheadId && |r[1].points| == 3
  {
    [SvgOpen(SvgWidth, SvgHeight), MarkerDef(ArrowheadId, [Point(0.0, 0.0), Point(10.0, 3.0), Point(0.0, 6.0)])]
  }

  // ---------------------------------------------------------------- edges

  /** The line and label drawn for one edge, or nothing when an endpoint is
      missing. */
  function EdgeElements(nodes: seq<Node>, e: Edge): (r: seq<Element>)
    ensures |r| == if Resolves(nodes, e) then 2 else 0
    ensures |r| == 2 ==> r[0].Line? && r[1].Text?
    ensures |r| == 2 && r[0].markerEnd.Some? ==> r[0].markerEnd.value == ArrowheadId
  {
    match (FindNode(nodes, e.source), FindNode(nodes, e.target))
    case (Some(s), Some(t)) =>
      var x1, y1, x2, y2 := s.position.x, s.position.y, t.position.x, t.position.y;
      var dummy := IsDummy(e);
      [ Line(x1, y1, x2, y2, dummy, if dummy then None else Some(ArrowheadId)),
        Text((x1 + x2) / 2.0, (y1 + y2) / 2.0 - 10.0, Middle, Plain(EdgeLabel(e))) ]
    case _ => []
  }

  /** The edge pass: every edge's elements, in input order. The result
      alternates line, label, line, label, … with one pair per edge that
      survives endpoint resolution. */
  function EdgePass(nodes: seq<Node>, edges: seq<Edge>): (r: seq<Element>)
    ensures |r| == 2 * |Resolvable(nodes, edges)|
    ensures forall k :: 0 <= k < |r| ==> r[k].Line? || r[k].Text?
    ensures forall k :: 0 <= k < |r| && r[k].Line? && r[k].markerEnd.Some? ==> r[k].markerEnd.value == ArrowheadId
  {
    if |edges| == 0 then []
    else
      var head, rest := EdgeElements(nodes, edges[0]), EdgePass(nodes, edges[1..]);
      assert forall k :: 0 <= k < |rest| ==> (head + rest)[|head| + k] == rest[k];
      head + rest
  }

  // ---------------------------------------------------------------- nodes

  /** JS truthiness of an optional number: defined and not zero. */
  predicate Truthy(n: Option<int>) {
    n.Some? && n.value != 0
  }

  /** `nodeNum || node.id`: the number when it is truthy, otherwise the id. */
  function DisplayRef(n: Node): (r: NodeRef)
    ensures r.Id? <==> n.data.nodeNumber.None? || n.data.nodeNumber == Some(0)
    ensures r.Id? ==> r.id == n.id
    ensures r.Number? ==> n.data.nodeNumber == Some(r.n)
  {
    if Truthy(n.data.nodeNumber) then Number(n.data.nodeNumber.value) else Id(n.id)
  }

  /** `elevation !== undefined ? elevation : ''`: blank only when undefined. */
  function ElevShown(elevation: Option<real>): (r: Shown)
    ensures r.Blank? <==> elevation.None?
    ensures r.Value? ==> elevation == Some(r.v)
  {
    match elevation
    case Some(v) => Value(v)
    case None => Blank
  }

  /** The node kinds whose template carries an "Elev: …" caption. */
  predicate ShowsElevation(kind: string) {
    kind != "surgeTank" && kind != "flowBoundary"
  }

  /** The reservoir template: a 50×40 rectangle, the label inside it, the
      node caption above and the elevation caption below. */
  function ReservoirGlyph(p: Point, text: string, ref: NodeRef, elev: Shown): (r: Element)
    ensures r.Group? && |r.children| == 4
  {
    var x, y := p.x, p.y;
    Group([ Rect(x - 25.0, y - 20.0, 50.0, 40.0),
            Text(x, y + 5.0, Middle, Plain(text)),
            Text(x, y - 30.0, Middle, NodeCaption(ref)),
            Text(x, y + 35.0, Middle, ElevCaption(elev)) ])
  }

  /** The surge tank template: a tall 40×80 rectangle marked "ST", with the
      node caption below; no label and no elevation. */
  function SurgeTankGlyph(p: Point, ref: NodeRef): (r: Element)
    ensures r.Group? && |r.children| == 3
  {
    var x, y := p.x, p.y;
    Group([ Rect(x - 20.0, y - 40.0, 40.0, 80.0),
            Text(x, y + 5.0, Middle, Plain("ST")),
            Text(x, y + 50.0, Middle, NodeCaption(ref)) ])
  }

  /** The flow boundary template: a right-pointing triangle, with the label
      and the node caption left-aligned to its right; no elevation. */
  function FlowBoundaryGlyph(p: Point, text: string, ref: NodeRef): (r: Element)
    ensures r.Group? && |r.children| == 3
  {
    var x, y := p.x, p.y;
    Group([ Polygon([Point(x, y - 10.0), Point(x + 20.0, y), Point(x, y + 10.0)]),
            Text(x + 25.0, y + 5.0, Start, Plain(text)),
            Text(x + 25.0, y + 18.0, Start, NodeCaption(ref)) ])
  }

  /** The junction template: a circle of radius 6, then the node caption,
      the word "Junction" and the elevation caption stacked below. */
  function JunctionGlyph(p: Point, ref: NodeRef, elev: Shown): (r: Element)
    ensures r.Group? && |r.children| == 4
  {
    var x, y := p.x, p.y;
    Group([ Circle(x, y, 6.0),
            Text(x, y + 30.0, Middle, NodeCaption(ref)),
            Text(x, y + 45.0, Middle, Plain("Junction")),
            Text(x, y + 60.0, Middle, ElevCaption(elev)) ])
  }

  /** The template for any other type tag: a circle of radius 5 with the
      node caption and the elevation caption above it. */
  function DefaultGlyph(p: Point, ref: NodeRef, elev: Shown): (r: Element)
    ensures r.Group? && |r.children| == 3
  {
    var x, y := p.x, p.y;
    Group([ Circle(x, y, 5.0),
            Text(x, y - 25.0, Middle, NodeCaption(ref)),
            Text(x, y - 12.0, Middle, ElevCaption(elev)) ])
  }

  /** The `<g>` group drawn for one node: the template chosen by its type
      tag, filled with its position, label, display reference and elevation. */
  function NodeGlyph(n: Node): (r: Element)
    ensures r.Group? && |r.children| > 0
  {
    var p, ref, elev := n.position, DisplayRef(n), ElevShown(n.data.elevation);
    if n.kind == "reservoir" then ReservoirGlyph(p, NodeLabel(n), ref, elev)
    else if n.kind == "surgeTank" then SurgeTankGlyph(p, ref)
    else if n.kind == "flowBoundary" then FlowBoundaryGlyph(p, NodeLabel(n), ref)
    else if n.kind == "junction" then JunctionGlyph(p, ref, elev)
    else DefaultGlyph(p, ref, elev)
  }

  /** The node pass: one group per node, in input order. */
  function NodePass(nodes: seq<Node>): (r: seq<Element>)
    ensures |r| == |nodes|
    ensures forall k :: 0 <= k < |r| ==> r[k].Group?
  {
    if |nodes| == 0 then []
    else [NodeGlyph(nodes[0])] + NodePass(nodes[1..])
  }

  // ---------------------------------------------------------------- whole

  /** The svg markup embedded in the exported page: header, edge pass, node
      pass, and a single closing tag, whatever the input (even empty). */
  function GenerateSystemDiagram(nodes: seq<Node>, edges: seq<Edge>): (r: seq<Element>)
    ensures |r| == |Header()| + 2 * |Resolvable(nodes, edges)| + |nodes| + 1
    ensures r[0] == SvgOpen(SvgWidth, SvgHeight) && r[1].MarkerDef? && r[|r| - 1] == SvgClose
  {
    Header() + EdgePass(nodes, edges) + NodePass(nodes) + [SvgClose]
  }
}
