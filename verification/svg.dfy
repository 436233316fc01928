/** Abstract SVG drawing elements: the markup the diagram generator emits,
    one record per tag, with the geometry kept and the purely presentational
    attributes (colours, stroke widths, font sizes) dropped. */
module Svg {
  import opened Wrappers

  /** A point on the canvas: a node's position or a shape's vertex. Exact
      reals stand in for JS numbers. */
  datatype Point = Point(x: real, y: real)

  /** The `text-anchor` of a caption: centred on x, or starting at x. */
  datatype Anchor = Middle | Start

  /** What a "Node …" caption shows: the node number, or the node id. */
  datatype NodeRef = Number(n: int) | Id(id: string)

  /** What an "Elev: …" caption shows: a value, or nothing. */
  datatype Shown = Value(v: real) | Blank

  /** The text inside a `<text>` element. */
  datatype Content =
    | Plain(s: string)
    | NodeCaption(ref: NodeRef)
    | ElevCaption(elev: Shown)

  datatype Element =
    | SvgOpen(viewWidth: int, viewHeight: int)             // `<svg viewBox="0 0 w h" …>`
    | MarkerDef(id: string, points: seq<Point>)        // `<defs><marker id=…><polygon …/>`
    | Line(x1: real, y1: real, x2: real, y2: real, dashed: bool, markerEnd: Option<string>)
    | Text(x: real, y: real, anchor: Anchor, content: Content)
    | Rect(x: real, y: real, width: real, height: real)
    | Polygon(points: seq<Point>)
    | Circle(cx: real, cy: real, r: real)
    | Group(children: seq<Element>)                    // `<g>…</g>`
    | SvgClose                                         // `</svg>`

  /** `p` moved by (dx, dy). */
  function TranslatePoint(p: Point, dx: real, dy: real): (r: Point) {
    Point(p.x + dx, p.y + dy)
  }

  /** `e` moved by (dx, dy); sizes, radii and content are unchanged. */
  function Translate(e: Element, dx: real, dy: real): (r: Element)
    ensures r.Group? <==> e.Group?
    ensures e.Group? ==> |r.children| == |e.children|
    ensures e.Text? ==> r.Text? && r.anchor == e.anchor && r.content == e.content
  {
    match e
    case Line(x1, y1, x2, y2, d, m) => Line(x1 + dx, y1 + dy, x2 + dx, y2 + dy, d, m)
    case Text(x, y, a, c) => Text(x + dx, y + dy, a, c)
    case Rect(x, y, w, h) => Rect(x + dx, y + dy, w, h)
    case Polygon(ps) => Polygon(seq(|ps|, i requires 0 <= i < |ps| => TranslatePoint(ps[i], dx, dy)))
    case Circle(cx, cy, r) => Circle(cx + dx, cy + dy, r)
    case Group(cs) => Group(seq(|cs|, i requires 0 <= i < |cs| => Translate(cs[i], dx, dy)))
    case _ => e
  }

  /** The node references of the "Node …" captions among `es`, in order. */
  function NodeCaptions(es: seq<Element>): (r: seq<NodeRef>)
    ensures |r| <= |es|
  {
    if |es| == 0 then []
    else if es[0].Text? && es[0].content.NodeCaption? then [es[0].content.ref] + NodeCaptions(es[1..])
    else NodeCaptions(es[1..])
  }

  /** What the "Elev: …" captions among `es` show, in order. */
  function ElevCaptions(es: seq<Element>): (r: seq<Shown>)
    ensures |r| <= |es|
  {
    if |es| == 0 then []
    else if es[0].Text? && es[0].content.ElevCaption? then [es[0].content.elev] + ElevCaptions(es[1..])
    else ElevCaptions(es[1..])
  }

  /** The plain strings of the texts among `es`, in order. */
  function PlainTexts(es: seq<Element>): (r: seq<string>)
    ensures |r| <= |es|
  {
    if |es| == 0 then []
    else if es[0].Text? && es[0].content.Plain? then [es[0].content.s] + PlainTexts(es[1..])
    else PlainTexts(es[1..])
  }

  /** The node-caption filter distributes over concatenation. */
  lemma {:induction false} NodeCaptionsAppend(xs: seq<Element>, ys: seq<Element>)
    ensures NodeCaptions(xs + ys) == NodeCaptions(xs) + NodeCaptions(ys)
  {
    if |xs| == 0 {
      assert xs + ys == ys;
    } else {
      assert (xs + ys)[0] == xs[0] && (xs + ys)[1..] == xs[1..] + ys;
      NodeCaptionsAppend(xs[1..], ys);
    }
  }

  /** The elevation-caption filter distributes over concatenation. */
  lemma {:induction false} ElevCaptionsAppend(xs: seq<Element>, ys: seq<Element>)
    ensures ElevCaptions(xs + ys) == ElevCaptions(xs) + ElevCaptions(ys)
  {
    if |xs| == 0 {
      assert xs + ys == ys;
    } else {
      assert (xs + ys)[0] == xs[0] && (xs + ys)[1..] == xs[1..] + ys;
      ElevCaptionsAppend(xs[1..], ys);
    }
  }

  /** The plain-text filter distributes over concatenation. */
  lemma {:induction false} PlainTextsAppend(xs: seq<Element>, ys: seq<Element>)
    ensures PlainTexts(xs + ys) == PlainTexts(xs) + PlainTexts(ys)
  {
    if |xs| == 0 {
      assert xs + ys == ys;
    } else {
      assert (xs + ys)[0] == xs[0] && (xs + ys)[1..] == xs[1..] + ys;
      PlainTextsAppend(xs[1..], ys);
    }
  }

  /** Each caption filter distributes over concatenation. */
  lemma CaptionsAppend(xs: seq<Element>, ys: seq<Element>)
    ensures NodeCaptions(xs + ys) == NodeCaptions(xs) + NodeCaptions(ys)
    ensures ElevCaptions(xs + ys) == ElevCaptions(xs) + ElevCaptions(ys)
    ensures PlainTexts(xs + ys) == PlainTexts(xs) + PlainTexts(ys)
  {
    NodeCaptionsAppend(xs, ys);
    ElevCaptionsAppend(xs, ys);
    PlainTextsAppend(xs, ys);
  }

  /** The three caption filters of a single element. */
  lemma CaptionsOfOne(e: Element)
    ensures NodeCaptions([e]) == if e.Text? && e.content.NodeCaption? then [e.content.ref] else []
    ensures ElevCaptions([e]) == if e.Text? && e.content.ElevCaption? then [e.content.elev] else []
    ensures PlainTexts([e]) == if e.Text? && e.content.Plain? then [e.content.s] else []
  {
    assert [e][1..] == [];
  }

  /** The three caption filters of a four-element sequence, one element at a time. */
  lemma CaptionsOfFour(a: Element, b: Element, c: Element, d: Element)
    ensures NodeCaptions([a, b, c, d]) == NodeCaptions([a]) + NodeCaptions([b]) + NodeCaptions([c]) + NodeCaptions([d])
    ensures ElevCaptions([a, b, c, d]) == ElevCaptions([a]) + ElevCaptions([b]) + ElevCaptions([c]) + ElevCaptions([d])
    ensures PlainTexts([a, b, c, d]) == PlainTexts([a]) + PlainTexts([b]) + PlainTexts([c]) + PlainTexts([d])
  {
    assert [a, b, c, d] == [a] + [b] + [c] + [d];
    CaptionsAppend([a], [b]);
    CaptionsAppend([a] + [b], [c]);
    CaptionsAppend([a] + [b] + [c], [d]);
    CaptionsOfOne(a); CaptionsOfOne(b); CaptionsOfOne(c); CaptionsOfOne(d);
  }

  /** The three caption filters of a three-element sequence, one element at a time. */
  lemma CaptionsOfThree(a: Element, b: Element, c: Element)
    ensures NodeCaptions([a, b, c]) == NodeCaptions([a]) + NodeCaptions([b]) + NodeCaptions([c])
    ensures ElevCaptions([a, b, c]) == ElevCaptions([a]) + ElevCaptions([b]) + ElevCaptions([c])
    ensures PlainTexts([a, b, c]) == PlainTexts([a]) + PlainTexts([b]) + PlainTexts([c])
  {
    assert [a, b, c] == [a] + [b] + [c];
    CaptionsAppend([a], [b]);
    CaptionsAppend([a] + [b], [c]);
    CaptionsOfOne(a); CaptionsOfOne(b); CaptionsOfOne(c);
  }
}
