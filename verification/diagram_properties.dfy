/** Properties of the generated drawing that relate several calls or the
    whole output: how the edge pass decomposes, where each input ends up in
    the output, and the fixed svg frame around it. */
module DiagramProperties {
  import opened Wrappers
  import opened Seqs
  import opened Graph
  import opened Svg
  import opened DiagramGenerator

  /** With distinct identifiers, looking up a node's own id finds that node. */
  lemma FindNodeUniqueIds(nodes: seq<Node>, i: int)
    requires UniqueIds(nodes)
    requires 0 <= i < |nodes|
    ensures FindNode(nodes, nodes[i].id) == Some(nodes[i])
  {
    assert IsFirstMatch(nodes, nodes[i].id, i);
  }

  /** How a surviving edge must look when its endpoints sit at `s` and `t`:
      a line from `s` to `t`, dashed and without an arrowhead exactly when
      the edge is a dummy (otherwise solid and ending in the arrowhead
      marker), then the edge's label centred on the segment's midpoint,
      10 units up. */
  predicate DrawnBetween(r: seq<Element>, e: Edge, s: Point, t: Point) {
    && |r| == 2
    && r[0].Line?
    && r[0].x1 == s.x && r[0].y1 == s.y && r[0].x2 == t.x && r[0].y2 == t.y
    && (r[0].dashed <==> IsDummy(e))
    && (IsDummy(e) ==> r[0].markerEnd.None?)
    && (!IsDummy(e) ==> r[0].markerEnd == Some(ArrowheadId))
    && r[1] == Text((s.x + t.x) / 2.0, (s.y + t.y) / 2.0 - 10.0, Middle, Plain(EdgeLabel(e)))
  }

  /** An edge with a dangling endpoint draws nothing; any other edge is drawn
      between the first nodes carrying its source and target ids. */
  lemma EdgeDrawing(nodes: seq<Node>, e: Edge)
    ensures !Resolves(nodes, e) ==> EdgeElements(nodes, e) == []
    ensures forall i, j :: IsFirstMatch(nodes, e.source, i) && IsFirstMatch(nodes, e.target, j) ==>
              DrawnBetween(EdgeElements(nodes, e), e, nodes[i].position, nodes[j].position)
  {
  }

  /** The fixed shape templates: a rectangle centred on the node's position
      (reservoir, surge tank), a right-pointing triangle whose upright side is
      centred on it (flow boundary), or a circle around it (junction, default). */
  predicate ShapeAt(shape: Element, p: Point) {
    match shape
    case Rect(x, y, w, h) => x + w / 2.0 == p.x && y + h / 2.0 == p.y
    case Circle(cx, cy, _) => cx == p.x && cy == p.y
    case Polygon(ps) =>
      && |ps| == 3
      && ps[0] == Point(p.x, p.y - 10.0)
      && ps[1] == Point(p.x + 20.0, p.y)
      && ps[2] == Point(p.x, p.y + 10.0)
    case _ => false
  }

  /** Which shape a node gets, by type tag, and where: a 50×40 rectangle
      for a reservoir and a 40×80 one for a surge tank, both centred on the
      node; a right-pointing triangle for a flow boundary; a circle of radius
      6 around a junction and of radius 5 around anything else. */
  lemma GlyphShape(n: Node)
    ensures |NodeGlyph(n).children| > 0 && ShapeAt(NodeGlyph(n).children[0], n.position)
    ensures NodeGlyph(n).children[0].Rect? <==> n.kind == "reservoir" || n.kind == "surgeTank"
    ensures NodeGlyph(n).children[0].Polygon? <==> n.kind == "flowBoundary"
    ensures NodeGlyph(n).children[0].Circle? <==> n.kind !in {"reservoir", "surgeTank", "flowBoundary"}
    ensures n.kind == "reservoir" ==> NodeGlyph(n).children[0].width == 50.0 && NodeGlyph(n).children[0].height == 40.0
    ensures n.kind == "surgeTank" ==> NodeGlyph(n).children[0].width == 40.0 && NodeGlyph(n).children[0].height == 80.0
    ensures n.kind == "junction" ==> NodeGlyph(n).children[0].r == 6.0
    ensures n.kind !in {"reservoir", "surgeTank", "flowBoundary", "junction"} ==> NodeGlyph(n).children[0].r == 5.0
  {
  }

  /** Which captions a node's group carries, by type tag: exactly one
      "Node …" caption, showing the node number or id; an "Elev: …" caption
      on every template but the surge tank's and the flow boundary's; the
      node's label on a reservoir and a flow boundary, the fixed text "ST"
      on a surge tank and "Junction" on a junction. */
  lemma GlyphCaptions(n: Node)
    ensures NodeCaptions(NodeGlyph(n).children) == [DisplayRef(n)]
    ensures ElevCaptions(NodeGlyph(n).children) == if ShowsElevation(n.kind) then [ElevShown(n.data.elevation)] else []
    ensures PlainTexts(NodeGlyph(n).children) ==
              if n.kind == "reservoir" || n.kind == "flowBoundary" then [NodeLabel(n)]
              else if n.kind == "surgeTank" then ["ST"]
              else if n.kind == "junction" then ["Junction"]
              else []
  {
    var p, ref, elev := n.position, DisplayRef(n), ElevShown(n.data.elevation);
    if n.kind == "reservoir" {
      ReservoirCaptions(p, NodeLabel(n), ref, elev);
    } else if n.kind == "surgeTank" {
      SurgeTankCaptions(p, ref);
    } else if n.kind == "flowBoundary" {
      FlowBoundaryCaptions(p, NodeLabel(n), ref);
    } else if n.kind == "junction" {
      JunctionCaptions(p, ref, elev);
    } else {
      DefaultCaptions(p, ref, elev);
    }
  }

  /** The reservoir template: its label, one node caption and one elevation caption. */
  lemma ReservoirCaptions(p: Point, text: string, ref: NodeRef, elev: Shown)
    ensures var cs := ReservoirGlyph(p, text, ref, elev).children;
      NodeCaptions(cs) == [ref] && ElevCaptions(cs) == [elev] && PlainTexts(cs) == [text]
  {
    var cs := ReservoirGlyph(p, text, ref, elev).children;
    CaptionsOfFour(cs[0], cs[1], cs[2], cs[3]);
  }

  /** The surge tank template: "ST" and one node caption, no elevation. */
  lemma SurgeTankCaptions(p: Point, ref: NodeRef)
    ensures var cs := SurgeTankGlyph(p, ref).children;
      NodeCaptions(cs) == [ref] && ElevCaptions(cs) == [] && PlainTexts(cs) == ["ST"]
  {
    var cs := SurgeTankGlyph(p, ref).children;
    CaptionsOfThree(cs[0], cs[1], cs[2]);
  }

  /** The flow boundary template: its label and one node caption, no elevation. */
  lemma FlowBoundaryCaptions(p: Point, text: string, ref: NodeRef)
    ensures var cs := FlowBoundaryGlyph(p, text, ref).children;
      NodeCaptions(cs) == [ref] && ElevCaptions(cs) == [] && PlainTexts(cs) == [text]
  {
    var cs := FlowBoundaryGlyph(p, text, ref).children;
    CaptionsOfThree(cs[0], cs[1], cs[2]);
  }

  /** The junction template: "Junction", one node caption and one elevation caption. */
  lemma JunctionCaptions(p: Point, ref: NodeRef, elev: Shown)
    ensures var cs := JunctionGlyph(p, ref, elev).children;
      NodeCaptions(cs) == [ref] && ElevCaptions(cs) == [elev] && PlainTexts(cs) == ["Junction"]
  {
    var cs := JunctionGlyph(p, ref, elev).children;
    CaptionsOfFour(cs[0], cs[1], cs[2], cs[3]);
  }

  /** The fallback template: one node caption and one elevation caption, no plain text. */
  lemma DefaultCaptions(p: Point, ref: NodeRef, elev: Shown)
    ensures var cs := DefaultGlyph(p, ref, elev).children;
      NodeCaptions(cs) == [ref] && ElevCaptions(cs) == [elev] && PlainTexts(cs) == []
  {
    var cs := DefaultGlyph(p, ref, elev).children;
    CaptionsOfThree(cs[0], cs[1], cs[2]);
  }

  /* Caption placement. SVG's y axis points down, so "above" a shape means a
     smaller y than its top edge; a text's y is its baseline. */

  /** A shape whose extent is defined: a rectangle, a circle or a polygon
      with at least one vertex. */
  predicate IsShape(s: Element) {
    s.Rect? || s.Circle? || (s.Polygon? && |s.points| > 0)
  }

  function MinX(ps: seq<Point>): real
    requires |ps| > 0
  {
    if |ps| == 1 then ps[0].x else var m := MinX(ps[1..]); if ps[0].x < m then ps[0].x else m
  }

  function MaxX(ps: seq<Point>): real
    requires |ps| > 0
  {
    if |ps| == 1 then ps[0].x else var m := MaxX(ps[1..]); if ps[0].x > m then ps[0].x else m
  }

  function MinY(ps: seq<Point>): real
    requires |ps| > 0
  {
    if |ps| == 1 then ps[0].y else var m := MinY(ps[1..]); if ps[0].y < m then ps[0].y else m
  }

  function MaxY(ps: seq<Point>): real
    requires |ps| > 0
  {
    if |ps| == 1 then ps[0].y else var m := MaxY(ps[1..]); if ps[0].y > m then ps[0].y else m
  }

  /** The bounds of a vertex list are attained: every vertex lies within
      them, and each bound is some vertex's coordinate. */
  lemma {:induction false} PointsExtent(ps: seq<Point>)
    requires |ps| > 0
    ensures forall i :: 0 <= i < |ps| ==> MinX(ps) <= ps[i].x <= MaxX(ps) && MinY(ps) <= ps[i].y <= MaxY(ps)
    ensures exists i :: 0 <= i < |ps| && ps[i].x == MaxX(ps)
    ensures exists i :: 0 <= i < |ps| && ps[i].x == MinX(ps)
    ensures exists i :: 0 <= i < |ps| && ps[i].y == MaxY(ps)
    ensures exists i :: 0 <= i < |ps| && ps[i].y == MinY(ps)
  {
    if |ps| > 1 {
      var rest := ps[1..];
      PointsExtent(rest);
      assert forall i :: 1 <= i < |ps| ==> ps[i] == rest[i - 1];
      var a :| 0 <= a < |rest| && rest[a].x == MaxX(rest);
      var b :| 0 <= b < |rest| && rest[b].x == MinX(rest);
      var c :| 0 <= c < |rest| && rest[c].y == MaxY(rest);
      var d :| 0 <= d < |rest| && rest[d].y == MinY(rest);
      assert ps[0].x == MaxX(ps) || ps[a + 1].x == MaxX(ps);
      assert ps[0].x == MinX(ps) || ps[b + 1].x == MinX(ps);
      assert ps[0].y == MaxY(ps) || ps[c + 1].y == MaxY(ps);
      assert ps[0].y == MinY(ps) || ps[d + 1].y == MinY(ps);
    }
  }

  /** The shape's bounding box: top, bottom, left and right edges. */
  function Top(s: Element): real
    requires IsShape(s)
  {
    match s
    case Rect(_, y, _, _) => y
    case Circle(_, cy, r) => cy - r
    case Polygon(ps) => MinY(ps)
  }

  function Bottom(s: Element): real
    requires IsShape(s)
  {
    match s
    case Rect(_, y, _, h) => y + h
    case Circle(_, cy, r) => cy + r
    case Polygon(ps) => MaxY(ps)
  }

  function Left(s: Element): real
    requires IsShape(s)
  {
    match s
    case Rect(x, _, _, _) => x
    case Circle(cx, _, r) => cx - r
    case Polygon(ps) => MinX(ps)
  }

  function Right(s: Element): real
    requires IsShape(s)
  {
    match s
    case Rect(x, _, w, _) => x + w
    case Circle(cx, _, r) => cx + r
    case Polygon(ps) => MaxX(ps)
  }

  /** `t` is a caption centred horizontally on the shape `s`. */
  predicate CentredOn(t: Element, s: Element) {
    t.Text? && IsShape(s) && t.anchor == Middle && 2.0 * t.x == Left(s) + Right(s)
  }

  /** `t` is a caption starting to the right of the shape `s`. */
  predicate RightOf(t: Element, s: Element) {
    t.Text? && IsShape(s) && t.anchor == Start && t.x > Right(s)
  }

  /** `t`'s baseline lies strictly within the shape's height. */
  predicate Level(t: Element, s: Element) {
    t.Text? && IsShape(s) && Top(s) < t.y < Bottom(s)
  }

  /** `t`'s baseline lies above the shape's top edge. */
  predicate Above(t: Element, s: Element) {
    t.Text? && IsShape(s) && t.y < Top(s)
  }

  /** `t`'s baseline lies below the shape's bottom edge. */
  predicate Below(t: Element, s: Element) {
    t.Text? && IsShape(s) && t.y > Bottom(s)
  }

  /** Caption `a` sits above caption `b`. */
  predicate Stacked(a: Element, b: Element) {
    a.Text? && b.Text? && a.y < b.y
  }

  /** Reservoir: the label inside the rectangle, the node caption above it
      and the elevation caption below it, all centred on it. */
  lemma ReservoirPlacement(p: Point, text: string, ref: NodeRef, elev: Shown)
    ensures var cs := ReservoirGlyph(p, text, ref, elev).children;
      && cs[1].Text? && cs[1].content == Plain(text) && CentredOn(cs[1], cs[0]) && Level(cs[1], cs[0])
      && cs[2].Text? && cs[2].content == NodeCaption(ref) && CentredOn(cs[2], cs[0]) && Above(cs[2], cs[0])
      && cs[3].Text? && cs[3].content == ElevCaption(elev) && CentredOn(cs[3], cs[0]) && Below(cs[3], cs[0])
  {
  }

  /** Surge tank: "ST" inside the rectangle and the node caption below it,
      both centred on it. */
  lemma SurgeTankPlacement(p: Point, ref: NodeRef)
    ensures var cs := SurgeTankGlyph(p, ref).children;
      && cs[1].Text? && cs[1].content == Plain("ST") && CentredOn(cs[1], cs[0]) && Level(cs[1], cs[0])
      && cs[2].Text? && cs[2].content == NodeCaption(ref) && CentredOn(cs[2], cs[0]) && Below(cs[2], cs[0])
  {
  }

  /** Flow boundary: the label level with the triangle and the node caption
      under the label, both starting to the right of the triangle. */
  lemma FlowBoundaryPlacement(p: Point, text: string, ref: NodeRef)
    ensures var cs := FlowBoundaryGlyph(p, text, ref).children;
      && cs[1].Text? && cs[1].content == Plain(text) && RightOf(cs[1], cs[0]) && Level(cs[1], cs[0])
      && cs[2].Text? && cs[2].content == NodeCaption(ref) && RightOf(cs[2], cs[0])
      && Stacked(cs[1], cs[2])
  {
    var ps := FlowBoundaryGlyph(p, text, ref).children[0].points;
    PointsExtent(ps);
    assert ps[0].y == p.y - 10.0 && ps[2].y == p.y + 10.0;
  }

  /** Junction: the node caption, "Junction" and the elevation caption
      stacked in that order below the circle, all centred on it. */
  lemma JunctionPlacement(p: Point, ref: NodeRef, elev: Shown)
    ensures var cs := JunctionGlyph(p, ref, elev).children;
      && cs[1].Text? && cs[1].content == NodeCaption(ref) && CentredOn(cs[1], cs[0]) && Below(cs[1], cs[0])
      && cs[2].Text? && cs[2].content == Plain("Junction") && CentredOn(cs[2], cs[0])
      && cs[3].Text? && cs[3].content == ElevCaption(elev) && CentredOn(cs[3], cs[0])
      && Stacked(cs[1], cs[2]) && Stacked(cs[2], cs[3])
  {
  }

  /** Any other tag: the node caption over the elevation caption, both
      centred on the circle and above it. */
  lemma DefaultPlacement(p: Point, ref: NodeRef, elev: Shown)
    ensures var cs := DefaultGlyph(p, ref, elev).children;
      && cs[1].Text? && cs[1].content == NodeCaption(ref) && CentredOn(cs[1], cs[0])
      && cs[2].Text? && cs[2].content == ElevCaption(elev) && CentredOn(cs[2], cs[0]) && Above(cs[2], cs[0])
      && Stacked(cs[1], cs[2])
  {
  }

  /** Where each node's captions sit relative to its shape, by type tag. */
  lemma CaptionPlacement(n: Node)
    ensures var cs, ref, elev := NodeGlyph(n).children, DisplayRef(n), ElevShown(n.data.elevation);
      && (n.kind == "reservoir" ==>
            |cs| == 4
            && cs[1].Text? && cs[1].content == Plain(NodeLabel(n)) && CentredOn(cs[1], cs[0]) && Level(cs[1], cs[0])
            && cs[2].Text? && cs[2].content == NodeCaption(ref) && CentredOn(cs[2], cs[0]) && Above(cs[2], cs[0])
            && cs[3].Text? && cs[3].content == ElevCaption(elev) && CentredOn(cs[3], cs[0]) && Below(cs[3], cs[0]))
      && (n.kind == "surgeTank" ==>
            |cs| == 3
            && cs[1].Text? && cs[1].content == Plain("ST") && CentredOn(cs[1], cs[0]) && Level(cs[1], cs[0])
            && cs[2].Text? && cs[2].content == NodeCaption(ref) && CentredOn(cs[2], cs[0]) && Below(cs[2], cs[0]))
      && (n.kind == "flowBoundary" ==>
            |cs| == 3
            && cs[1].Text? && cs[1].content == Plain(NodeLabel(n)) && RightOf(cs[1], cs[0]) && Level(cs[1], cs[0])
            && cs[2].Text? && cs[2].content == NodeCaption(ref) && RightOf(cs[2], cs[0])
            && Stacked(cs[1], cs[2]))
      && (n.kind == "junction" ==>
            |cs| == 4
            && cs[1].Text? && cs[1].content == NodeCaption(ref) && CentredOn(cs[1], cs[0]) && Below(cs[1], cs[0])
            && cs[2].Text? && cs[2].content == Plain("Junction") && CentredOn(cs[2], cs[0])
            && cs[3].Text? && cs[3].content == ElevCaption(elev) && CentredOn(cs[3], cs[0])
            && Stacked(cs[1], cs[2]) && Stacked(cs[2], cs[3]))
      && (n.kind !in {"reservoir", "surgeTank", "flowBoundary", "junction"} ==>
            |cs| == 3
            && cs[1].Text? && cs[1].content == NodeCaption(ref) && CentredOn(cs[1], cs[0])
            && cs[2].Text? && cs[2].content == ElevCaption(elev) && CentredOn(cs[2], cs[0]) && Above(cs[2], cs[0])
            && Stacked(cs[1], cs[2]))
  {
    var p, ref, elev := n.position, DisplayRef(n), ElevShown(n.data.elevation);
    if n.kind == "reservoir" {
      ReservoirPlacement(p, NodeLabel(n), ref, elev);
    } else if n.kind == "surgeTank" {
      SurgeTankPlacement(p, ref);
    } else if n.kind == "flowBoundary" {
      FlowBoundaryPlacement(p, NodeLabel(n), ref);
    } else if n.kind == "junction" {
      JunctionPlacement(p, ref, elev);
    } else {
      DefaultPlacement(p, ref, elev);
    }
  }

  /** The edge pass of a concatenation is the concatenation of the edge passes. */
  lemma {:induction false} EdgePassAppend(nodes: seq<Node>, a: seq<Edge>, b: seq<Edge>)
    ensures EdgePass(nodes, a + b) == EdgePass(nodes, a) + EdgePass(nodes, b)
  {
    if |a| == 0 {
      assert a + b == b;
    } else {
      assert (a + b)[0] == a[0] && (a + b)[1..] == a[1..] + b;
      EdgePassAppend(nodes, a[1..], b);
      AppendAssoc(EdgeElements(nodes, a[0]), EdgePass(nodes, a[1..]), EdgePass(nodes, b));
    }
  }

  /** Drawing one more edge of the input appends exactly that edge's elements. */
  lemma EdgePassPrefix(nodes: seq<Node>, edges: seq<Edge>, i: int)
    requires 0 <= i < |edges|
    ensures EdgePass(nodes, edges[..i + 1]) == EdgePass(nodes, edges[..i]) + EdgeElements(nodes, edges[i])
  {
    assert edges[..i + 1] == edges[..i] + [edges[i]];
    EdgePassAppend(nodes, edges[..i], [edges[i]]);
    assert [edges[i]][1..] == [];
  }

  /** The node pass of a concatenation is the concatenation of the node passes. */
  lemma {:induction false} NodePassAppend(a: seq<Node>, b: seq<Node>)
    ensures NodePass(a + b) == NodePass(a) + NodePass(b)
  {
    if |a| == 0 {
      assert a + b == b;
    } else {
      assert (a + b)[0] == a[0] && (a + b)[1..] == a[1..] + b;
      NodePassAppend(a[1..], b);
      AppendAssoc([NodeGlyph(a[0])], NodePass(a[1..]), NodePass(b));
    }
  }

  /** Drawing one more node of the input appends exactly that node's group. */
  lemma NodePassPrefix(nodes: seq<Node>, j: int)
    requires 0 <= j < |nodes|
    ensures NodePass(nodes[..j + 1]) == NodePass(nodes[..j]) + [NodeGlyph(nodes[j])]
  {
    assert nodes[..j + 1] == nodes[..j] + [nodes[j]];
    NodePassAppend(nodes[..j], [nodes[j]]);
    assert [nodes[j]][1..] == [];
  }

  /** An edge with a dangling endpoint leaves no trace: drawing only the
      resolvable edges gives the same elements. */
  lemma {:induction false} DroppedEdgesContributeNothing(nodes: seq<Node>, edges: seq<Edge>)
    ensures EdgePass(nodes, edges) == EdgePass(nodes, Resolvable(nodes, edges))
  {
    if |edges| > 0 {
      DroppedEdgesContributeNothing(nodes, edges[1..]);
      if Resolves(nodes, edges[0]) {
        var rest := Resolvable(nodes, edges[1..]);
        assert ([edges[0]] + rest)[1..] == rest;
      }
    }
  }

  /** The k-th surviving edge is drawn by elements 2k and 2k+1 of the edge pass. */
  lemma {:induction false} EdgePassPairs(nodes: seq<Node>, edges: seq<Edge>)
    ensures forall k :: 0 <= k < |Resolvable(nodes, edges)| ==>
              EdgePass(nodes, edges)[2 * k .. 2 * k + 2] == EdgeElements(nodes, Resolvable(nodes, edges)[k])
  {
    if |edges| > 0 {
      EdgePassPairs(nodes, edges[1..]);
      var head, rest := EdgeElements(nodes, edges[0]), EdgePass(nodes, edges[1..]);
      var rs := Resolvable(nodes, edges[1..]);
      if Resolves(nodes, edges[0]) {
        forall k | 0 <= k < |Resolvable(nodes, edges)|
          ensures EdgePass(nodes, edges)[2 * k .. 2 * k + 2] == EdgeElements(nodes, Resolvable(nodes, edges)[k])
        {
          if k > 0 {
            SliceOfSuffix(head, rest, 2 * k, 2 * k + 2);
            assert ([edges[0]] + rs)[k] == rs[k - 1];
          }
        }
      } else {
        assert head + rest == rest;
      }
    }
  }

  /** The output is the header, then the edge pass, then the node pass, then
      the closing tag: each part sits at a fixed offset. */
  lemma DiagramSections(nodes: seq<Node>, edges: seq<Edge>)
    ensures var r, ep := GenerateSystemDiagram(nodes, edges), EdgePass(nodes, edges);
      forall i :: 0 <= i < |ep| ==> r[2 + i] == ep[i]
    ensures var r, ep, np := GenerateSystemDiagram(nodes, edges), EdgePass(nodes, edges), NodePass(nodes);
      forall i :: 0 <= i < |np| ==> r[2 + |ep| + i] == np[i]
  {
    Sections(GenerateSystemDiagram(nodes, edges), Header(), EdgePass(nodes, edges), NodePass(nodes), [SvgClose]);
  }

  /** Where every edge lands: the k-th edge that survives endpoint
      resolution is drawn by output elements 2k+2 and 2k+3. */
  lemma EdgeLayout(nodes: seq<Node>, edges: seq<Edge>)
    ensures var r, rs := GenerateSystemDiagram(nodes, edges), Resolvable(nodes, edges);
      forall k :: 0 <= k < |rs| ==> r[2 + 2 * k .. 4 + 2 * k] == EdgeElements(nodes, rs[k])
  {
    var h, ep, np, c := Header(), EdgePass(nodes, edges), NodePass(nodes), [SvgClose];
    EdgePassPairs(nodes, edges);
    forall k | 0 <= k < |Resolvable(nodes, edges)|
      ensures (h + ep + np + c)[2 + 2 * k .. 4 + 2 * k] == ep[2 * k .. 2 * k + 2]
    {
      SliceOfSecond(h, ep, np, c, 2 * k, 2 * k + 2);
    }
  }

  /** The node pass draws node k as group k. */
  lemma {:induction false} NodePassPointwise(nodes: seq<Node>)
    ensures forall k :: 0 <= k < |nodes| ==> NodePass(nodes)[k] == NodeGlyph(nodes[k])
  {
    if |nodes| > 0 {
      NodePassPointwise(nodes[1..]);
    }
  }

  /** Where every node lands: node k is drawn by the group at output
      position 2 + 2R + k, where R is the number of drawn edges. */
  lemma NodeLayout(nodes: seq<Node>, edges: seq<Edge>)
    ensures var r, rs := GenerateSystemDiagram(nodes, edges), Resolvable(nodes, edges);
      forall k :: 0 <= k < |nodes| ==> r[2 + 2 * |rs| + k] == NodeGlyph(nodes[k])
  {
    DiagramSections(nodes, edges);
    NodePassPointwise(nodes);
  }

  /** Exactly one svg root: the opening tag first, the marker declaration
      second, the closing tag last, and nothing but lines, labels and
      groups in between. */
  lemma SingleSvgRoot(nodes: seq<Node>, edges: seq<Edge>)
    ensures var r := GenerateSystemDiagram(nodes, edges);
      && r[0] == SvgOpen(SvgWidth, SvgHeight)
      && r[1] == MarkerDef(ArrowheadId, [Point(0.0, 0.0), Point(10.0, 3.0), Point(0.0, 6.0)])
      && r[|r| - 1] == SvgClose
      && (forall k :: 2 <= k < |r| - 1 ==> r[k].Line? || r[k].Text? || r[k].Group?)
  {
    var h, ep, np, c := Header(), EdgePass(nodes, edges), NodePass(nodes), [SvgClose];
    var r: seq<Element> := h + ep + np + c;
    Sections(r, h, ep, np, c);
    forall k | 2 <= k < |r| - 1
      ensures r[k].Line? || r[k].Text? || r[k].Group?
    {
      if k < 2 + |ep| {
        assert r[|h| + (k - 2)] == ep[k - 2];
      } else {
        assert r[|h| + |ep| + (k - 2 - |ep|)] == np[k - 2 - |ep|];
      }
    }
  }

  /** Pipes are drawn beneath node glyphs: every line and edge label comes
      before every node group. */
  lemma EdgesBeforeNodes(nodes: seq<Node>, edges: seq<Edge>)
    ensures var r := GenerateSystemDiagram(nodes, edges);
      forall i, j :: 0 <= i < |r| && 0 <= j < |r| && (r[i].Line? || r[i].Text?) && r[j].Group? ==> i < j
  {
    EdgeSection(nodes, edges);
    NodeSection(nodes, edges);
  }

  /** Lines and edge labels occur only in the edge section, which holds two
      elements per surviving edge. */
  lemma EdgeSection(nodes: seq<Node>, edges: seq<Edge>)
    ensures var r, rs := GenerateSystemDiagram(nodes, edges), Resolvable(nodes, edges);
      forall k :: 0 <= k < |r| && (r[k].Line? || r[k].Text?) ==> 2 <= k < 2 + 2 * |rs|
  {
    DiagramSections(nodes, edges);
  }

  /** Node groups occur only in the node section, which follows the edge
      section. */
  lemma NodeSection(nodes: seq<Node>, edges: seq<Edge>)
    ensures var r, rs := GenerateSystemDiagram(nodes, edges), Resolvable(nodes, edges);
      forall k :: 0 <= k < |r| && r[k].Group? ==> 2 + 2 * |rs| <= k < |r| - 1
  {
    DiagramSections(nodes, edges);
  }

  /** Every arrowhead a line refers to is the marker the header declares. */
  lemma MarkersResolve(nodes: seq<Node>, edges: seq<Edge>)
    ensures var r := GenerateSystemDiagram(nodes, edges);
      forall k :: 0 <= k < |r| && r[k].Line? && r[k].markerEnd.Some? ==> r[k].markerEnd.value == r[1].id
  {
    SingleSvgRoot(nodes, edges);
    EdgeSection(nodes, edges);
    DiagramSections(nodes, edges);
  }

  /** Empty input still yields a complete, empty svg drawing. */
  lemma EmptyDiagram()
    ensures GenerateSystemDiagram([], []) == Header() + [SvgClose]
  {
  }

  /** A node's group is drawn at fixed offsets from its position: moving the
      node moves every element of its glyph by the same amount. */
  lemma GlyphTranslates(n: Node, dx: real, dy: real)
    ensures NodeGlyph(n.(position := TranslatePoint(n.position, dx, dy))) == Translate(NodeGlyph(n), dx, dy)
  {
    var p := n.position;
    var ref, elev := DisplayRef(n), ElevShown(n.data.elevation);
    if n.kind == "reservoir" {
      ReservoirTranslates(p, NodeLabel(n), ref, elev, dx, dy);
    } else if n.kind == "surgeTank" {
      SurgeTankTranslates(p, ref, dx, dy);
    } else if n.kind == "flowBoundary" {
      FlowBoundaryTranslates(p, NodeLabel(n), ref, dx, dy);
    } else if n.kind == "junction" {
      JunctionTranslates(p, ref, elev, dx, dy);
    } else {
      DefaultTranslates(p, ref, elev, dx, dy);
    }
  }

  /** The reservoir template moves rigidly with its position. */
  lemma ReservoirTranslates(p: Point, text: string, ref: NodeRef, elev: Shown, dx: real, dy: real)
    ensures ReservoirGlyph(TranslatePoint(p, dx, dy), text, ref, elev) == Translate(ReservoirGlyph(p, text, ref, elev), dx, dy)
  {
  }

  /** The surge tank template moves rigidly with its position. */
  lemma SurgeTankTranslates(p: Point, ref: NodeRef, dx: real, dy: real)
    ensures SurgeTankGlyph(TranslatePoint(p, dx, dy), ref) == Translate(SurgeTankGlyph(p, ref), dx, dy)
  {
  }

  /** The flow boundary template, triangle included, moves rigidly with its position. */
  lemma FlowBoundaryTranslates(p: Point, text: string, ref: NodeRef, dx: real, dy: real)
    ensures FlowBoundaryGlyph(TranslatePoint(p, dx, dy), text, ref) == Translate(FlowBoundaryGlyph(p, text, ref), dx, dy)
  {
    var g, h := FlowBoundaryGlyph(p, text, ref), FlowBoundaryGlyph(TranslatePoint(p, dx, dy), text, ref);
    assert Translate(g.children[0], dx, dy).points == h.children[0].points;
  }

  /** The junction template moves rigidly with its position. */
  lemma JunctionTranslates(p: Point, ref: NodeRef, elev: Shown, dx: real, dy: real)
    ensures JunctionGlyph(TranslatePoint(p, dx, dy), ref, elev) == Translate(JunctionGlyph(p, ref, elev), dx, dy)
  {
  }

  /** The fallback template moves rigidly with its position. */
  lemma DefaultTranslates(p: Point, ref: NodeRef, elev: Shown, dx: real, dy: real)
    ensures DefaultGlyph(TranslatePoint(p, dx, dy), ref, elev) == Translate(DefaultGlyph(p, ref, elev), dx, dy)
  {
  }

  /** A lone reservoir "N1" labelled "Lake", numbered 1, at elevation 250,
      placed at (100, 100). */
  lemma ReservoirScenario()
    ensures var n := Node("N1", "reservoir", Point(100.0, 100.0), NodeData(Some("Lake"), Some(1), Some(250.0)));
      GenerateSystemDiagram([n], []) == Header() + [
        Group([ Rect(75.0, 80.0, 50.0, 40.0),
                Text(100.0, 105.0, Middle, Plain("Lake")),
                Text(100.0, 70.0, Middle, NodeCaption(Number(1))),
                Text(100.0, 135.0, Middle, ElevCaption(Value(250.0))) ]),
        SvgClose ]
  {
  }

  /** A dummy edge between two existing nodes is dashed and carries no arrowhead. */
  lemma DummyEdgeScenario()
    ensures var a := Node("A", "junction", Point(0.0, 0.0), NodeData(None, None, None));
            var b := Node("B", "junction", Point(40.0, 20.0), NodeData(None, None, None));
            var e := Edge("A", "B", Some(EdgeData(None, Some("dummy"))));
      EdgeElements([a, b], e) == [Line(0.0, 0.0, 40.0, 20.0, true, None), Text(20.0, 0.0, Middle, Plain(""))]
  {
  }
}
