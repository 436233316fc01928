# System diagram generator, modelled in Dafny

`generateSystemDiagram` takes the nodes and edges of a water-distribution network. Each node has an id, a type tag (`reservoir`, `surgeTank`, `flowBoundary`, `junction` or anything else), a position and a data payload. Each edge has a source id, a target id and optional data. The function renders the network as an SVG drawing inside an HTML page.

This project models the drawing as a flat sequence of abstract SVG element records rather than as text. The sequence is:

1. the `<svg>` opening tag;
2. the `<defs>` block declaring the `arrowhead` marker;
3. a line and a label for every edge whose endpoints both exist;
4. one `<g>` group per node;
5. a single `</svg>`.

Coordinates are exact reals, so the glyph offsets and the edge midpoint are exact arithmetic. Optional JS fields are `Option`s.

Modules:

- `Wrappers` holds `Option`.
- `Graph` holds the input records, the first-match node lookup, endpoint resolution and the label fallbacks.
- `Svg` holds the element records, translation and the caption filters.
- `DiagramGenerator` holds the rendering as pure functions: the edge pass, the glyph templates, the node pass and the whole drawing.
- `DiagramProperties` holds lemmas relating those functions to the drawing's layout.
- `DiagramRenderer` holds the same rendering as an imperative builder, the way the TypeScript function builds its string: the edge loop and the node loop each build their part in their own accumulator, and the header, the two parts and the closing tag are then appended in order. It is proved to build exactly the functional drawing.

Two behaviours of the code are worth stating outright:

- **Node caption.** A `nodeNumber` of 0 shows the node's id, because the captions use `nodeNum || node.id` (lines 55, 64, 72, 79, 88), which is JS truthiness. `DisplayRef` models that rule.
- **Duplicate ids.** Node ids are not assumed unique. `nodes.find` takes the first match (line 8), and the model does the same. `FindNodeUniqueIds` states what uniqueness would add.

All layout statements below ("one svg root", "one group per node", "edges before nodes") are about the sequence of element records. The program inserts labels and ids into its markup without escaping, so they hold of the emitted text only when no label or id contains markup (see "Left out").

## Model

| member | source | states |
|---|---|---|
| `Graph.FindIndex` | client/src/lib/diagram-generator.ts:8 | The lookup finds nothing exactly when no node has the id. Otherwise it finds the earliest position whose node has the id. |
| `Graph.FindNode` | client/src/lib/diagram-generator.ts:8 | `find` returns undefined exactly when no node carries the id. Otherwise it returns the first node in input order that carries it. |
| `DiagramRenderer.FindNodeScan` | client/src/lib/diagram-generator.ts:8 | The left-to-right scan stops at the first node with the id. It returns none exactly when no node has the id, and it agrees with `FindNode`. |
| `DiagramProperties.FindNodeUniqueIds` | client/src/lib/diagram-generator.ts:8 | When ids are distinct, looking up any node's own id returns that node. |
| `Graph.ResolvableMembers` | client/src/lib/diagram-generator.ts:21-24 | An edge is among the drawable edges if and only if it is an input edge and both its source and target ids name existing nodes. |
| `Graph.EdgeLabel` | client/src/lib/diagram-generator.ts:40 | The edge label is the data's label when one is given. It is the empty string when the edge has no data or no label. |
| `Graph.NodeLabel` | client/src/lib/diagram-generator.ts:46 | The node label is the data's label when given, otherwise the empty string. |
| `Graph.ResolvableAppend` | client/src/lib/diagram-generator.ts:21-24 | Dropping dangling edges is an order-keeping filter: the drawable edges of a concatenation are those of each part, concatenated in the same order with the same multiplicity. |
| `Graph.Resolvable` | client/src/lib/diagram-generator.ts:21-24 | The drawable edges are a filter of the input edges, never longer than it. Which edges survive is stated by `Graph.ResolvableMembers`. |
| `Graph.IsDummy` | client/src/lib/diagram-generator.ts:31 | `edge.data?.type === 'dummy'`: an edge is dummy exactly when its data's type tag is `dummy`. A `dummy` tag makes it dummy, any other tag does not, and an edge without data or a type tag never is. An edge without data, or without a type, is drawn solid with an arrowhead (see `DiagramProperties.EdgeDrawing`). |
| `DiagramGenerator.EdgeElements` | client/src/lib/diagram-generator.ts:21-41 | An edge yields nothing when an endpoint is missing, and otherwise a line followed by a label. Any arrowhead it references is the declared `arrowhead` marker. |
| `DiagramProperties.EdgeDrawing` | client/src/lib/diagram-generator.ts:21-41 | A dangling edge draws nothing. A resolved edge draws a line from the first source match's position to the first target match's position. The line is dashed with no marker exactly when the type is `dummy`, and otherwise solid with `arrowhead`. The label is the edge label centred at the midpoint, 10 units up. |
| `DiagramRenderer.RenderEdge` | client/src/lib/diagram-generator.ts:21-41 | The body of the edge loop appends nothing exactly when an endpoint is missing. Otherwise it appends the edge's drawing. |
| `DiagramGenerator.EdgePass` | client/src/lib/diagram-generator.ts:21-41 | The edge pass holds two elements per drawable edge and only lines and labels. Every marker a line references is `arrowhead`. |
| `DiagramProperties.EdgePassAppend` | client/src/lib/diagram-generator.ts:21 | The edges are drawn independently and in order: the edge pass of a concatenation is the concatenation of the edge passes. |
| `DiagramProperties.EdgePassPrefix` | client/src/lib/diagram-generator.ts:21-41 | Each loop iteration appends exactly the current edge's elements to what the earlier edges drew. |
| `DiagramProperties.DroppedEdgesContributeNothing` | client/src/lib/diagram-generator.ts:21-24 | Dangling edges leave no trace: drawing all edges gives the same elements as drawing only the drawable ones. |
| `DiagramProperties.EdgePassPairs` | client/src/lib/diagram-generator.ts:21-41 | The k-th drawable edge is drawn by elements 2k and 2k+1 of the edge pass. |
| `DiagramRenderer.RenderEdges` | client/src/lib/diagram-generator.ts:21-41 | The edge loop builds exactly the edge pass. |
| `DiagramGenerator.DisplayRef` | client/src/lib/diagram-generator.ts:47-88 | The "Node …" caption shows the id exactly when `nodeNumber` is undefined or 0 (JS falsy). Otherwise it shows the number itself. |
| `DiagramGenerator.ElevShown` | client/src/lib/diagram-generator.ts:48 | The "Elev: …" caption is blank exactly when the elevation is undefined. Otherwise it shows the elevation itself, including 0. |
| `DiagramGenerator.NodeGlyph` | client/src/lib/diagram-generator.ts:44-93 | Every node, whatever its type tag, is drawn as one non-empty group. |
| `DiagramGenerator.ReservoirGlyph` | client/src/lib/diagram-generator.ts:50-58 | The reservoir template is one group of four elements: a shape and three texts. Its shape is stated by `DiagramProperties.GlyphShape`, its texts by `DiagramProperties.ReservoirCaptions`, its caption placement by `DiagramProperties.ReservoirPlacement`, and its rigid movement by `DiagramProperties.ReservoirTranslates`. |
| `DiagramGenerator.SurgeTankGlyph` | client/src/lib/diagram-generator.ts:59-66 | The surge tank template is one group of three elements: a shape and two texts. See `DiagramProperties.GlyphShape`, `DiagramProperties.SurgeTankCaptions`, `DiagramProperties.SurgeTankPlacement` and `DiagramProperties.SurgeTankTranslates` for its shape, texts, caption placement and movement. |
| `DiagramGenerator.FlowBoundaryGlyph` | client/src/lib/diagram-generator.ts:67-74 | The flow boundary template is one group of three elements: a triangle and two texts. See `DiagramProperties.GlyphShape`, `DiagramProperties.FlowBoundaryCaptions`, `DiagramProperties.FlowBoundaryPlacement` and `DiagramProperties.FlowBoundaryTranslates` for its shape, texts, caption placement and movement. |
| `DiagramGenerator.JunctionGlyph` | client/src/lib/diagram-generator.ts:75-83 | The junction template is one group of four elements: a circle and three texts. See `DiagramProperties.GlyphShape`, `DiagramProperties.JunctionCaptions`, `DiagramProperties.JunctionPlacement` and `DiagramProperties.JunctionTranslates` for its shape, texts, caption placement and movement. |
| `DiagramGenerator.DefaultGlyph` | client/src/lib/diagram-generator.ts:84-92 | The fallback template is one group of three elements: a circle and two texts. See `DiagramProperties.GlyphShape`, `DiagramProperties.DefaultCaptions`, `DiagramProperties.DefaultPlacement` and `DiagramProperties.DefaultTranslates` for its shape, texts, caption placement and movement. |
| `DiagramProperties.GlyphShape` | client/src/lib/diagram-generator.ts:50-92 | The first element of a node's group is its shape, and the type tag chooses it. Reservoir: 50×40 rectangle centred on the node. Surge tank: 40×80 rectangle centred on the node. Flow boundary: triangle (x,y−10), (x+20,y), (x,y+10). Junction: circle of radius 6 around the node. Any other tag: circle of radius 5 around the node. |
| `DiagramProperties.GlyphCaptions` | client/src/lib/diagram-generator.ts:46-92 | Every group carries exactly one "Node …" caption. An "Elev: …" caption appears on every template except the surge tank's and the flow boundary's. Reservoirs and flow boundaries show the node label, surge tanks show "ST" and junctions show "Junction". |
| `DiagramProperties.ReservoirCaptions` | client/src/lib/diagram-generator.ts:50-58 | The reservoir template shows the label, one node caption and one elevation caption. |
| `DiagramProperties.SurgeTankCaptions` | client/src/lib/diagram-generator.ts:59-66 | The surge tank template shows "ST" and one node caption, with no elevation. |
| `DiagramProperties.FlowBoundaryCaptions` | client/src/lib/diagram-generator.ts:67-74 | The flow boundary template shows the label and one node caption, with no elevation. |
| `DiagramProperties.JunctionCaptions` | client/src/lib/diagram-generator.ts:75-83 | The junction template shows "Junction", one node caption and one elevation caption. |
| `DiagramProperties.DefaultCaptions` | client/src/lib/diagram-generator.ts:84-92 | The fallback template shows one node caption and one elevation caption, with no plain text. |
| `DiagramProperties.CaptionPlacement` | client/src/lib/diagram-generator.ts:50-92 | Where each node's texts sit relative to its shape, by type tag (SVG's y axis points down; a text's y is its baseline). Reservoir: label inside the rectangle, node caption above it, elevation caption below it. Surge tank: "ST" inside, node caption below. Flow boundary: label level with the triangle and node caption under it, both start-anchored to its right. Junction: node caption, "Junction", elevation caption stacked in that order below the circle. Any other tag: node caption over elevation caption, both above the circle. Centred templates centre every text on the shape. |
| `DiagramProperties.ReservoirPlacement` | client/src/lib/diagram-generator.ts:53-56 | The label is centred inside the 50×40 rectangle, the "Node …" caption is centred above it and the "Elev: …" caption centred below it. |
| `DiagramProperties.SurgeTankPlacement` | client/src/lib/diagram-generator.ts:62-64 | "ST" is centred inside the 40×80 rectangle and the "Node …" caption is centred below it. |
| `DiagramProperties.FlowBoundaryPlacement` | client/src/lib/diagram-generator.ts:70-72 | Both texts are start-anchored to the right of the triangle's rightmost vertex. The label's baseline is within the triangle's height and the "Node …" caption sits under the label. |
| `DiagramProperties.JunctionPlacement` | client/src/lib/diagram-generator.ts:78-81 | The "Node …" caption, "Junction" and the "Elev: …" caption are centred on the circle and stacked in that order below it. |
| `DiagramProperties.DefaultPlacement` | client/src/lib/diagram-generator.ts:87-89 | The "Node …" caption sits over the "Elev: …" caption, both centred on the circle and above it. |
| `DiagramProperties.GlyphTranslates` | client/src/lib/diagram-generator.ts:50-92 | Every glyph is drawn at fixed offsets from the node's position: moving the node by (dx, dy) moves every element of its group by (dx, dy). |
| `DiagramProperties.ReservoirTranslates` | client/src/lib/diagram-generator.ts:50-58 | The reservoir template moves rigidly with its position. |
| `DiagramProperties.SurgeTankTranslates` | client/src/lib/diagram-generator.ts:59-66 | The surge tank template moves rigidly with its position. |
| `DiagramProperties.FlowBoundaryTranslates` | client/src/lib/diagram-generator.ts:67-74 | The flow boundary template, triangle included, moves rigidly with its position. |
| `DiagramProperties.JunctionTranslates` | client/src/lib/diagram-generator.ts:75-83 | The junction template moves rigidly with its position. |
| `DiagramProperties.DefaultTranslates` | client/src/lib/diagram-generator.ts:84-92 | The fallback template moves rigidly with its position. |
| `DiagramGenerator.NodePass` | client/src/lib/diagram-generator.ts:44-93 | Among the element records, the node pass holds exactly one group per node and nothing else. |
| `DiagramProperties.NodePassAppend` | client/src/lib/diagram-generator.ts:44 | The nodes are drawn independently and in order: the node pass of a concatenation is the concatenation of the node passes. |
| `DiagramProperties.NodePassPrefix` | client/src/lib/diagram-generator.ts:44-93 | Each loop iteration appends exactly the current node's group. |
| `DiagramProperties.NodePassPointwise` | client/src/lib/diagram-generator.ts:44-93 | Group k of the node pass is node k's glyph. |
| `DiagramRenderer.RenderNodes` | client/src/lib/diagram-generator.ts:44-93 | The node loop builds exactly the node pass. |
| `DiagramGenerator.Header` | client/src/lib/diagram-generator.ts:11-18 | The drawing opens with a 1300×750 `<svg>` tag, followed by one marker declaration named `arrowhead` with a three-point polygon. `DiagramProperties.SingleSvgRoot` states its exact points. |
| `DiagramGenerator.GenerateSystemDiagram` | client/src/lib/diagram-generator.ts:11-95 | The drawing has 2 + 2·(drawable edges) + (nodes) + 1 elements. It opens with a 1300×750 `<svg>`, then the marker declaration, and ends with `</svg>`. |
| `DiagramRenderer.RenderSystemDiagram` | client/src/lib/diagram-generator.ts:10-95 | Building the drawing by appending the header, the edge loop's markup, the node loop's markup and the closing tag gives exactly the functional drawing. |
| `DiagramProperties.DiagramSections` | client/src/lib/diagram-generator.ts:11-95 | The edge pass starts at output position 2, and the node pass follows it immediately. |
| `DiagramProperties.EdgeLayout` | client/src/lib/diagram-generator.ts:21-41 | The k-th drawable edge, in input order, is drawn by output elements 2k+2 and 2k+3. |
| `DiagramProperties.NodeLayout` | client/src/lib/diagram-generator.ts:44-93 | Node k, in input order, is drawn by the group at output position 2 + 2R + k, where R is the number of drawable edges. |
| `DiagramProperties.SingleSvgRoot` | client/src/lib/diagram-generator.ts:11-95 | Among the element records there is exactly one svg root: the opening tag first, the `arrowhead` marker with points (0,0), (10,3), (0,6) second, the closing tag last, and only lines, labels and groups in between. |
| `DiagramProperties.EdgesBeforeNodes` | client/src/lib/diagram-generator.ts:21-93 | Among the element records, every line and edge label comes before every node group, so pipes render beneath the glyphs. |
| `DiagramProperties.EdgeSection` | client/src/lib/diagram-generator.ts:21-41 | Lines and labels occur only at positions 2 to 2 + 2R − 1. |
| `DiagramProperties.NodeSection` | client/src/lib/diagram-generator.ts:44-93 | Node groups occur only after the edge section, at positions 2 + 2R up to the closing tag, where R is the number of drawable edges. |
| `DiagramProperties.MarkersResolve` | client/src/lib/diagram-generator.ts:13-33 | Every `marker-end` a line carries names the marker declared in the header. |
| `DiagramProperties.EmptyDiagram` | client/src/lib/diagram-generator.ts:11-95 | Empty input still yields the complete header and the closing tag, and nothing else. |
| `DiagramProperties.ReservoirScenario` | client/src/lib/diagram-generator.ts:50-58 | A lone reservoir "N1" at (100,100) labelled "Lake", numbered 1, at elevation 250 draws a rectangle at (75,80) of size 50×40. Its texts are "Lake", "Node 1" and "Elev: 250". |
| `DiagramProperties.DummyEdgeScenario` | client/src/lib/diagram-generator.ts:21-41 | A dummy edge between two existing nodes draws a dashed line with no marker, and an empty label at the midpoint, 10 units up. |

## Left out

- The HTML page around the drawing (lines 97-121) is a constant wrapper with the drawing inserted once. It is not modelled.
- The `Blob` construction and its MIME type (lines 123-124) are a browser API. The model stops at the drawing.
- The edge line's styling is not constant: line 32 chooses, per edge, either grey (`#95a5a6`), width 2 and dashed (`5,5`) for a dummy edge, or blue (`#3498db`), width 3 and solid for any other. The `dashed` flag stands for that whole choice; the colour and width literals themselves are not modelled.
- The node, text and marker styling is constant: fill and stroke colours, stroke widths, font sizes and weights, `preserveAspectRatio`, and the marker's size and reference point. These literals are dropped from the element records.
- Strings are inserted into the markup unescaped: edge labels (line 40), node labels (lines 54, 71) and node ids (lines 55, 64, 72, 79, 88). A label such as `</text></g></svg>` therefore changes the structure of the emitted text. In the model every label and id is one `Plain` or `NodeCaption` value. So `SingleSvgRoot`, `EdgesBeforeNodes`, `NodePass` and the layout lemmas describe the element records, and they describe the emitted text only for labels and ids that contain no markup.
- The elements are abstract records, not text. JS number-to-string formatting, the exact text of the markup and IEEE float rounding of the midpoint are not modelled: coordinates are exact reals.
- The node and edge record definitions live in `./store`, which is not part of this model. Only the fields the generator reads are modelled.
- `null` or `NaN` values for `nodeNumber` and `elevation` are not modelled. An elevation is either undefined (`None`) or a number, and a `nodeNumber` is undefined or an integer.
- Non-string labels are not modelled; a label is undefined or a string. An empty label is modelled: `'' || ''` is `''`.
- A missing `node.data` is not modelled, since the source would throw there. `node.data` is always present.
- A missing `node.type` is not modelled; it is a string, and an unknown tag takes the fallback template.
