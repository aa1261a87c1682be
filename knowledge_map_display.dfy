/**
 * The deterministic part of the knowledge-map display: converting a map's nodes
 * and edges into graph-widget elements, the fallback grid layout, and the node
 * style lookup. Random start positions are the `draw` parameter.
 */
module KnowledgeMapDisplay {
  import opened Wrappers
  import opened KnowledgeMapping

  datatype Position = Position(x: real, y: real)

  /** The `data` payload of a widget node: the map node's label and kind. */
  datatype NodeData = NodeData(labelText: string, kind: NodeKind)

  /** A widget node; `position` is absent when the node has none yet. */
  datatype FlowNode = FlowNode(id: string, nodeType: string, data: NodeData, position: Option<Position>)

  /** A widget edge: the map edge's fields plus the drawing style `edgeType`. */
  datatype FlowEdge = FlowEdge(
    id: string,
    source: string,
    target: string,
    labelText: Option<string>,
    animated: Option<bool>,
    edgeType: string)

  datatype Layout = Layout(nodes: seq<FlowNode>, edges: seq<FlowEdge>)

  // ---- Converting a map into widget elements ----

  const CustomNodeType: string := "custom"
  const SmoothStepEdgeType: string := "smoothstep"

  /** One map node as a widget node of the custom type, placed at `drawn`. */
  function ToFlowNode(n: KnowledgeNode, drawn: Position): (f: FlowNode)
    ensures f.nodeType == CustomNodeType && f.position == Some(drawn)
  {
    FlowNode(n.id, CustomNodeType, NodeData(n.labelText, n.kind), Some(drawn))
  }

  /** The map node a widget node shows. */
  function FromFlowNode(f: FlowNode): KnowledgeNode {
    KnowledgeNode(f.id, f.data.kind, f.data.labelText)
  }

  /** Node conversion keeps `id` and copies `label` and `type` into `data`: nothing of the node is lost. */
  lemma NodeConversionRoundTrip(n: KnowledgeNode, drawn: Position)
    ensures FromFlowNode(ToFlowNode(n, drawn)) == n
  {
  }

  /** One map edge as a smooth-step widget edge. */
  function ToFlowEdge(e: KnowledgeEdge): (f: FlowEdge)
    ensures f.edgeType == SmoothStepEdgeType
  {
    FlowEdge(e.id, e.source, e.target, e.labelText, e.animated, SmoothStepEdgeType)
  }

  function FromFlowEdge(f: FlowEdge): KnowledgeEdge {
    KnowledgeEdge(f.id, f.source, f.target, f.labelText, f.animated)
  }

  /** Edge conversion keeps `id`, `source`, `target`, `label` and `animated`. */
  lemma EdgeConversionRoundTrip(e: KnowledgeEdge)
    ensures FromFlowEdge(ToFlowEdge(e)) == e
  {
  }

  /**
   * The initial widget nodes: none without a map, otherwise one per map node in
   * order, node `i` placed at the `i`-th random draw `draw(i)`.
   */
  function InitialNodes(m: Option<KnowledgeMap>, draw: nat -> Position): (r: seq<FlowNode>)
    ensures m.None? ==> r == []
    ensures m.Some? ==> |r| == |m.value.nodes|
  {
    match m
    case None => []
    case Some(km) => seq(|km.nodes|, i requires 0 <= i < |km.nodes| => ToFlowNode(km.nodes[i], draw(i)))
  }

  /** The initial widget edges: none without a map, otherwise one per map edge in order. */
  function InitialEdges(m: Option<KnowledgeMap>): (r: seq<FlowEdge>)
    ensures m.None? ==> r == []
    ensures m.Some? ==> |r| == |m.value.edges|
  {
    match m
    case None => []
    case Some(km) => seq(|km.edges|, i requires 0 <= i < |km.edges| => ToFlowEdge(km.edges[i]))
  }

  /** The widget elements describe exactly the map's nodes and edges, in the map's order. */
  lemma InitialElementsShowMap(km: KnowledgeMap, draw: nat -> Position)
    ensures var nodes := InitialNodes(Some(km), draw);
      && |nodes| == |km.nodes|
      && forall i :: 0 <= i < |nodes| ==> FromFlowNode(nodes[i]) == km.nodes[i] && nodes[i].position == Some(draw(i))
    ensures var edges := InitialEdges(Some(km));
      && |edges| == |km.edges|
      && forall i :: 0 <= i < |edges| ==> FromFlowEdge(edges[i]) == km.edges[i] && edges[i].edgeType == SmoothStepEdgeType
  {
    var nodes := InitialNodes(Some(km), draw);
    forall i | 0 <= i < |nodes| ensures FromFlowNode(nodes[i]) == km.nodes[i] && nodes[i].position == Some(draw(i)) {
      assert nodes[i] == ToFlowNode(km.nodes[i], draw(i));
    }
  }

  // ---- The fallback grid layout ----

  const NodeWidth: int := 172
  const NodeHeight: int := 36
  /** `Math.floor(800 / (nodeWidth + 20))`; operands are positive, so integer division is the floor. */
  const NodesPerRow: int := 800 / (NodeWidth + 20)
  const ColumnStep: int := NodeWidth + 50
  const RowStep: int := NodeHeight + 50

  /** The grid cell of the node at `index`: column `index % 4`, row `index / 4`. */
  function GridPosition(index: nat): (p: Position)
    ensures p.x in {0.0, 222.0, 444.0, 666.0}
    ensures p.y == ((index / 4) * 86) as real
  {
    Position(((index % NodesPerRow) * ColumnStep) as real, ((index / NodesPerRow) * RowStep) as real)
  }

  /** Rows never go up: a later index is placed at the same height or lower. */
  lemma GridRowsDescend(i: nat, j: nat)
    requires i <= j
    ensures GridPosition(i).y <= GridPosition(j).y
  {
    assert i / 4 <= j / 4;
  }

  /** No two indices share a grid cell. */
  lemma GridCellsDistinct(i: nat, j: nat)
    requires GridPosition(i) == GridPosition(j)
    ensures i == j
  {
    assert i % 4 == j % 4;
    assert i / 4 == j / 4;
  }

  /** `{ ...node, position: node.position || <grid cell> }`. */
  function PlaceNode(node: FlowNode, index: nat): (r: FlowNode)
    ensures r.position.Some?
  {
    node.(position := if node.position.Some? then node.position else Some(GridPosition(index)))
  }

  /** `getLayoutedElements`. */
  function GetLayoutedElements(nodes: seq<FlowNode>, edges: seq<FlowEdge>): (r: Layout)
    ensures r.edges == edges
    ensures |r.nodes| == |nodes|
    ensures forall i :: 0 <= i < |nodes| ==> r.nodes[i].(position := nodes[i].position) == nodes[i]
    ensures forall i :: 0 <= i < |nodes| ==> r.nodes[i].position.Some?
  {
    if |nodes| == 0 then Layout(nodes, edges)
    else Layout(seq(|nodes|, i requires 0 <= i < |nodes| => PlaceNode(nodes[i], i)), edges)
  }

  /**
   * A node that has a position keeps it; a node without one gets the grid cell
   * of its index, `x = (i % 4) * 222`, `y = (i / 4) * 86`.
   */
  lemma LayoutPositions(nodes: seq<FlowNode>, edges: seq<FlowEdge>, i: nat)
    requires i < |nodes|
    ensures var p := GetLayoutedElements(nodes, edges).nodes[i].position;
      && (nodes[i].position.Some? ==> p == nodes[i].position)
      && (nodes[i].position.None? ==> p == Some(Position(((i % 4) * 222) as real, ((i / 4) * 86) as real)))
  {
  }

  /** An empty node list hands back the input unchanged. */
  lemma EmptyLayoutIsIdentity(edges: seq<FlowEdge>)
    ensures GetLayoutedElements([], edges) == Layout([], edges)
  {
  }

  /** Laying out an already laid-out graph changes nothing. */
  lemma LayoutIdempotent(nodes: seq<FlowNode>, edges: seq<FlowEdge>)
    ensures var once := GetLayoutedElements(nodes, edges);
      GetLayoutedElements(once.nodes, once.edges) == once
  {
    var once := GetLayoutedElements(nodes, edges);
    var twice := GetLayoutedElements(once.nodes, once.edges);
    assert twice.nodes == once.nodes by {
      forall i | 0 <= i < |once.nodes| ensures twice.nodes[i] == once.nodes[i] {
        assert twice.nodes[i].(position := once.nodes[i].position) == once.nodes[i];
      }
    }
  }

  /**
   * The nodes built from a map already carry their random positions, so the
   * layout leaves them as they are and the grid is never used for them.
   */
  lemma LayoutKeepsDrawnPositions(m: Option<KnowledgeMap>, draw: nat -> Position)
    ensures var nodes := InitialNodes(m, draw);
      GetLayoutedElements(nodes, InitialEdges(m)) == Layout(nodes, InitialEdges(m))
  {
    var nodes := InitialNodes(m, draw);
    var laid := GetLayoutedElements(nodes, InitialEdges(m));
    assert laid.nodes == nodes by {
      forall i | 0 <= i < |nodes| ensures laid.nodes[i] == nodes[i] {
        assert nodes[i] == ToFlowNode(m.value.nodes[i], draw(i));
        assert laid.nodes[i].(position := nodes[i].position) == nodes[i];
      }
    }
  }

  // ---- Node styles ----

  datatype Style = Style(
    background: string,
    color: string,
    border: string,
    padding: string,
    borderRadius: string,
    fontSize: string,
    textAlign: string)

  /** The style of each kind; the five differ only in their colours. */
  function KindStyle(kind: NodeKind): Style {
    match kind
    case Person => Style("#a3e635", "#1a2e05", "1px solid #4d7c0f", "5px 10px", "3px", "12px", "center")
    case Action => Style("#60a5fa", "#1e3a8a", "1px solid #1d4ed8", "5px 10px", "3px", "12px", "center")
    case Topic => Style("#facc15", "#713f12", "1px solid #a16207", "5px 10px", "3px", "12px", "center")
    case Timeline => Style("#fca5a5", "#7f1d1d", "1px solid #b91c1c", "5px 10px", "3px", "12px", "center")
    case Context => Style("#d1d5db", "#1f2937", "1px solid #4b5563", "5px 10px", "3px", "12px", "center")
  }

  /** The `nodeStyles` record, keyed by the kind names. */
  const NodeStyles: map<string, Style> := map[
    "person" := KindStyle(Person),
    "action" := KindStyle(Action),
    "topic" := KindStyle(Topic),
    "timeline" := KindStyle(Timeline),
    "context" := KindStyle(Context)]

  /** `nodeStyles[type] || nodeStyles.context`. */
  function StyleFor(typeName: string): (s: Style)
    ensures typeName in NodeStyles ==> s == NodeStyles[typeName]
    ensures typeName !in NodeStyles ==> s == KindStyle(Context)
  {
    if typeName in NodeStyles then NodeStyles[typeName] else NodeStyles["context"]
  }

  /** The custom node's style, looked up by the name of its kind: always that kind's own style. */
  function CustomNodeStyle(data: NodeData): (s: Style)
    ensures s == KindStyle(data.kind)
  {
    StyleFor(KindName(data.kind))
  }

  /** The style table has an entry for exactly the five kind names, each holding that kind's style. */
  lemma NodeStylesKeyedByKinds(name: string)
    ensures name in NodeStyles <==> KindOfName(name).Some?
    ensures name in NodeStyles ==> NodeStyles[name] == KindStyle(KindOfName(name).value)
  {
  }

  /** A type with no entry falls back to the context style. */
  lemma UnknownTypeFallsBackToContext(typeName: string)
    requires KindOfName(typeName).None?
    ensures StyleFor(typeName) == KindStyle(Context)
  {
  }

  /** The mini-map colour: `nodeStyles[type]?.background || '#ccc'`. */
  function MiniMapColor(typeName: string): (c: string)
    ensures typeName !in NodeStyles ==> c == "#ccc"
  {
    if typeName in NodeStyles && NodeStyles[typeName].background != "" then NodeStyles[typeName].background
    else "#ccc"
  }

  /** Every known kind shows its own background colour in the mini-map, and the five colours differ. */
  lemma MiniMapColorsDistinct(a: NodeKind, b: NodeKind)
    ensures MiniMapColor(KindName(a)) == KindStyle(a).background
    ensures a != b ==> MiniMapColor(KindName(a)) != MiniMapColor(KindName(b))
  {
  }
}
