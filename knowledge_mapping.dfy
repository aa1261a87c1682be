/**
 * The knowledge-map stage: action items in, a description plus graph out.
 * The remote completion call is the `gateway` parameter.
 */
module KnowledgeMapping {
  import opened Wrappers
  import opened Completion
  import opened JsStrings
  import opened Extraction

  /** The `type` enum of a node. */
  datatype NodeKind = Person | Action | Topic | Timeline | Context

  /** The enum's string value; it reads back as the same kind, so no two kinds share a name. */
  function KindName(kind: NodeKind): (name: string)
    ensures KindOfName(name) == Some(kind)
  {
    match kind
    case Person => "person"
    case Action => "action"
    case Topic => "topic"
    case Timeline => "timeline"
    case Context => "context"
  }

  /** The enum member a string names, if any. */
  function KindOfName(name: string): Option<NodeKind> {
    if name == "person" then Some(Person)
    else if name == "action" then Some(Action)
    else if name == "topic" then Some(Topic)
    else if name == "timeline" then Some(Timeline)
    else if name == "context" then Some(Context)
    else None
  }

  /** Only the five enum strings name a kind. */
  lemma KindOfNameInverse(name: string, kind: NodeKind)
    requires KindOfName(name) == Some(kind)
    ensures KindName(kind) == name
  {
  }

  datatype KnowledgeNode = KnowledgeNode(id: string, kind: NodeKind, labelText: string)

  /** A directed relationship; `label` and `animated` may be absent. */
  datatype KnowledgeEdge = KnowledgeEdge(
    id: string,
    source: string,
    target: string,
    labelText: Option<string>,
    animated: Option<bool>)

  datatype KnowledgeMap = KnowledgeMap(
    mapDescription: string,
    nodes: seq<KnowledgeNode>,
    edges: seq<KnowledgeEdge>)

  datatype MapInput = MapInput(actionItems: seq<ActionItem>)

  const NoItemsDescription: string := "No action items provided to generate a knowledge map."
  const FailedDescription: string := "Failed to generate knowledge map."
  const ErrorDescriptionPrefix: string := "Error generating knowledge map: "
  const UnknownErrorMessage: string := "Unknown error"

  /** A map carrying only a description, with no nodes and no edges. */
  function DescriptionOnly(description: string): KnowledgeMap {
    KnowledgeMap(description, [], [])
  }

  /** Every edge's endpoints name nodes of the same map. */
  predicate EdgesReferToNodes(m: KnowledgeMap) {
    forall e :: e in m.edges ==>
      (exists n :: n in m.nodes && n.id == e.source) && (exists n :: n in m.nodes && n.id == e.target)
  }

  // ---- The mapping prompt ----

  /**
   * The positional id the prompt gives the item at 0-based index `index`:
   * `action-` followed by the index in canonical decimal.
   */
  function ActionId(index: nat): (id: string)
    ensures |id| > 7 && id[..7] == "action-" && CanonicalDecimal(id[7..])
  {
    "action-" + NatToDecimal(index)
  }

  /** Reads the index back out of a positional id. */
  function ActionIndexOf(id: string): Option<nat> {
    if |id| > 7 && id[..7] == "action-" && AllDigits(id[7..]) then Some(DecimalValue(id[7..])) else None
  }

  lemma ActionIdRoundTrip(index: nat)
    ensures ActionIndexOf(ActionId(index)) == Some(index)
  {
    var id := ActionId(index);
    assert id[7..] == NatToDecimal(index);
    DecimalRoundTrip(index);
  }

  /** Every `action-` id with a canonical index is the positional id of that index. */
  lemma ActionIdOfCanonical(id: string)
    requires |id| > 7 && id[..7] == "action-" && CanonicalDecimal(id[7..])
    ensures ActionIndexOf(id).Some? && ActionId(ActionIndexOf(id).value) == id
  {
    CanonicalDecimalIsRendering(id[7..]);
    assert id == id[..7] + id[7..];
  }

  /** Distinct positions get distinct ids. */
  lemma ActionIdInjective(i: nat, j: nat)
    requires ActionId(i) == ActionId(j)
    ensures i == j
  {
    ActionIdRoundTrip(i);
    ActionIdRoundTrip(j);
  }

  /** An action item together with the positional id the prompt shows for it. */
  datatype LabelledItem = LabelledItem(id: string, item: ActionItem)

  /** The `{{#each actionItems}}` iteration: each item paired with `action-{{@index}}`. */
  function LabelActionItems(items: seq<ActionItem>): (r: seq<LabelledItem>)
    ensures |r| == |items|
  {
    seq(|items|, i requires 0 <= i < |items| => LabelledItem(ActionId(i), items[i]))
  }

  /** Labelling keeps the items in list order and names the one at index `i` `action-<i>`. */
  lemma LabelsArePositional(items: seq<ActionItem>, i: nat)
    requires i < |items|
    ensures LabelActionItems(items)[i].item == items[i]
    ensures LabelActionItems(items)[i].id == ActionId(i)
    ensures ActionIndexOf(LabelActionItems(items)[i].id) == Some(i)
  {
    ActionIdRoundTrip(i);
  }

  /** For `n` items there are `n` pairwise-distinct ids. */
  lemma LabelsAreDistinct(items: seq<ActionItem>, i: nat, j: nat)
    requires i < |items| && j < |items| && i != j
    ensures LabelActionItems(items)[i].id != LabelActionItems(items)[j].id
  {
    if ActionId(i) == ActionId(j) {
      ActionIdInjective(i, j);
    }
  }

  /**
   * How Handlebars renders a double-brace field: HTML escaping, and what an
   * absent optional field becomes, are library behaviour and left as a parameter.
   */
  type FieldRenderer = Option<string> -> string

  /** The label the template writes after an item's action: ` (Action ID: <id>)`. */
  function IdTag(id: string): string {
    " (Action ID: " + id + ")"
  }

  /** The text the `{{#each}}` body produces for one labelled item: its five lines. */
  function ItemBlock(li: LabelledItem, field: FieldRenderer): string {
    "- Action: " + field(Some(li.item.action)) + IdTag(li.id) + ItemFields(li.item, field)
  }

  /** The rest of an item block after the id tag: the line end and the other four lines. */
  function ItemFields(item: ActionItem, field: FieldRenderer): string {
    "\n"
    + "  Assignee: " + field(item.assignee) + "\n"
    + "  Assigner: " + field(item.assigner) + "\n"
    + "  Timeline: " + field(item.timeline) + "\n"
    + "  Context: " + field(Some(item.context)) + "\n"
  }

  /** An item block shows the item's id right after its action text. */
  lemma ItemBlockShowsId(li: LabelledItem, field: FieldRenderer)
    ensures Contains(ItemBlock(li, field), IdTag(li.id))
  {
    ContainsInfix("- Action: " + field(Some(li.item.action)), IdTag(li.id), ItemFields(li.item, field));
  }

  /** The template text before the `{{#each}}` block (its standalone tag line renders as nothing). */
  const MapPromptPrefix: string := "Analyze the following list of extracted action items from a meeting transcript. Create a knowledge map that synthesizes this information, providing both a textual summary and structured data for visualization.\n\nAction Items:\n"

  /** The template text after the `{{/each}}` line, to the end of the template. */
  const MapPromptSuffix: string := "\nInstructions:\n1.  **Identify Key Entities:** People (Assignees, Assigners), specific Actions, important Topics/Concepts derived from the Context, and Timelines/Deadlines. Create unique IDs for each distinct entity (e.g., 'person-john_doe', 'action-0', 'timeline-friday', 'topic-budget'). Use the provided Action IDs (action-0, action-1, etc.) for action nodes. Normalize person names for IDs (e.g., lowercase, replace space with underscore).\n2.  **Describe Relationships:** Determine the connections between these entities. Examples: Who assigned what to whom? What is the deadline for an action? Which context is an action related to? Are actions linked by topic?\n3.  **Generate Textual Description (\"mapDescription\"):** Write a clear, concise summary of the analysis. Use Markdown for formatting (lists, bold). Highlight key relationships, assignments, deadlines, and potential themes.\n4.  **Generate Structured Data (\"nodes\" and \"edges\"):**\n    -   **Nodes:** Create a list of nodes. Each node object must have:\n        -   `id`: The unique entity ID (e.g., 'person-jane_smith', 'action-1', 'timeline-next_week', 'topic-report_updates').\n        -   `type`: The category ('person', 'action', 'topic', 'timeline', 'context'). Create 'context' nodes if the context itself is a significant point of reference.\n        -   `label`: The display text (e.g., 'Jane Smith', 'Update Report', 'Next Week', 'Discuss Budget Allocation').\n    -   **Edges:** Create a list of edges connecting the nodes. Each edge object must have:\n        -   `id`: A unique edge ID (e.g., 'edge-assigner-action-0', 'edge-action-0-assignee', 'edge-action-0-timeline', 'edge-action-0-context').\n        -   `source`: The ID of the starting node.\n        -   `target`: The ID of the ending node.\n        -   `label`: (Optional) A short description of the relationship (e.g., 'assigns', 'assigned to', 'due', 'context', 'related topic').\n        -   `animated`: (Optional) Set to true for assignment edges (assigner -> action, action -> assignee).\n\nEnsure the output is a valid JSON object strictly adhering to the KnowledgeMapOutputSchema structure, containing \"mapDescription\", \"nodes\", and \"edges\". If no relevant entities or relationships can be extracted, return empty lists for nodes/edges and an appropriate mapDescription. Base the map *only* on the provided action items.\n"

  function ItemBlocks(items: seq<ActionItem>, field: FieldRenderer): (blocks: seq<string>)
    ensures |blocks| == |items|
  {
    var labelled := LabelActionItems(items);
    seq(|items|, i requires 0 <= i < |items| => ItemBlock(labelled[i], field))
  }

  /** The rendered mapping prompt: the fixed instructions around the joined item blocks. */
  function MappingPrompt(items: seq<ActionItem>, field: FieldRenderer): (p: string)
    ensures |p| >= |MapPromptPrefix| + |MapPromptSuffix|
    ensures p[..|MapPromptPrefix|] == MapPromptPrefix
    ensures p[|p| - |MapPromptSuffix|..] == MapPromptSuffix
    ensures items == [] ==> p == MapPromptPrefix + MapPromptSuffix
  {
    var joined := Concat(ItemBlocks(items, field));
    FramedSlices(MapPromptPrefix, joined, MapPromptSuffix);
    assert items == [] ==> joined == "";
    MapPromptPrefix + joined + MapPromptSuffix
  }

  /** The prompt lists the item at index `i` under the id `action-<i>`. */
  lemma MappingPromptTagsEachItem(items: seq<ActionItem>, field: FieldRenderer, i: nat)
    requires i < |items|
    ensures Contains(MappingPrompt(items, field), ItemBlock(LabelledItem(ActionId(i), items[i]), field))
    ensures Contains(MappingPrompt(items, field), IdTag(ActionId(i)))
  {
    var blocks := ItemBlocks(items, field);
    var block := ItemBlock(LabelledItem(ActionId(i), items[i]), field);
    assert blocks[i] == block;
    ConcatContainsPart(blocks, i);
    ContainsInfix(MapPromptPrefix, Concat(blocks), MapPromptSuffix);
    ContainsTransitive(MappingPrompt(items, field), Concat(blocks), block);
    ItemBlockShowsId(LabelledItem(ActionId(i), items[i]), field);
    ContainsTransitive(MappingPrompt(items, field), block, IdTag(ActionId(i)));
  }

  /** One more item appends its block, tagged with the next index, to the joined blocks. */
  lemma ItemBlocksSnoc(items: seq<ActionItem>, x: ActionItem, field: FieldRenderer)
    ensures Concat(ItemBlocks(items + [x], field))
      == Concat(ItemBlocks(items, field)) + ItemBlock(LabelledItem(ActionId(|items|), x), field)
  {
    var block := ItemBlock(LabelledItem(ActionId(|items|), x), field);
    var longer := ItemBlocks(items + [x], field);
    assert longer == ItemBlocks(items, field) + [block] by {
      forall i | 0 <= i < |longer| ensures longer[i] == (ItemBlocks(items, field) + [block])[i] {
        if i < |items| {
          assert (items + [x])[i] == items[i];
        } else {
          assert (items + [x])[i] == x;
        }
      }
    }
    ConcatSnoc(ItemBlocks(items, field), block);
  }

  /**
   * The blocks follow the list order and nothing else lies between the fixed
   * texts: one more item puts its block, tagged with the next index, just
   * before the instructions.
   */
  lemma MappingPromptSnoc(items: seq<ActionItem>, x: ActionItem, field: FieldRenderer)
    ensures MappingPrompt(items + [x], field)
      == MapPromptPrefix + Concat(ItemBlocks(items, field))
         + ItemBlock(LabelledItem(ActionId(|items|), x), field) + MapPromptSuffix
  {
    var joined := Concat(ItemBlocks(items, field));
    var block := ItemBlock(LabelledItem(ActionId(|items|), x), field);
    ItemBlocksSnoc(items, x, field);
    FramedRegroup(MapPromptPrefix, joined, block, MapPromptSuffix);
  }

  // ---- The flow and its wrapper ----

  /** The message the `catch` shows: an `Error`'s message, otherwise "Unknown error". */
  function ThrownMessage(thrown: Thrown): string {
    match thrown
    case ErrorInstance(message) => message
    case OtherValue => UnknownErrorMessage
  }

  /** `output ?? <failed map>` inside `try`, and the error map from `catch`. */
  function SettleMap(outcome: Outcome<KnowledgeMap>): (m: KnowledgeMap)
    ensures outcome.Output? ==> m == outcome.value
    ensures outcome.NoOutput? ==> m == DescriptionOnly(FailedDescription)
    ensures outcome.Threw? ==> m == DescriptionOnly(ErrorDescriptionPrefix + ThrownMessage(outcome.thrown))
  {
    match outcome
    case Output(value) => value
    case NoOutput => DescriptionOnly(FailedDescription)
    case Threw(thrown) => DescriptionOnly(ErrorDescriptionPrefix + ThrownMessage(thrown))
  }

  /** `generateKnowledgeMapFlow`: renders the prompt, awaits the gateway once, settles the outcome. */
  function GenerateKnowledgeMapFlow(input: MapInput, field: FieldRenderer, gateway: Gateway<KnowledgeMap>): (r: Run<KnowledgeMap>)
    ensures r.calls == [MappingPrompt(input.actionItems, field)]
  {
    var p := MappingPrompt(input.actionItems, field);
    Run(SettleMap(gateway(p)), [p])
  }

  /** `generateKnowledgeMap`: the empty-list check in front of the flow. */
  function GenerateKnowledgeMap(input: MapInput, field: FieldRenderer, gateway: Gateway<KnowledgeMap>): (r: Run<KnowledgeMap>)
    ensures input.actionItems == [] <==> r.calls == []
    ensures |r.calls| <= 1
  {
    if |input.actionItems| == 0 then Run(DescriptionOnly(NoItemsDescription), [])
    else GenerateKnowledgeMapFlow(input, field, gateway)
  }

  /** An empty list gives the fixed explanatory map and the gateway is never called. */
  lemma EmptyItemsShortCircuit(input: MapInput, field: FieldRenderer, gateway: Gateway<KnowledgeMap>)
    requires input.actionItems == []
    ensures GenerateKnowledgeMap(input, field, gateway) == Run(KnowledgeMap(NoItemsDescription, [], []), [])
  {
  }

  /** A non-empty list is sent to the gateway once, as the mapping prompt. */
  lemma NonEmptyItemsDelegate(input: MapInput, field: FieldRenderer, gateway: Gateway<KnowledgeMap>)
    requires input.actionItems != []
    ensures GenerateKnowledgeMap(input, field, gateway) == GenerateKnowledgeMapFlow(input, field, gateway)
    ensures GenerateKnowledgeMap(input, field, gateway).calls == [MappingPrompt(input.actionItems, field)]
  {
  }

  /** A non-null output is returned exactly as given: descriptions, nodes and edges are not touched. */
  lemma MapOutputReturnedUnchanged(input: MapInput, field: FieldRenderer, gateway: Gateway<KnowledgeMap>, output: KnowledgeMap)
    requires input.actionItems != []
    requires gateway(MappingPrompt(input.actionItems, field)) == Output(output)
    ensures GenerateKnowledgeMap(input, field, gateway).result == output
  {
  }

  /** A null output gives the "Failed..." map. */
  lemma NoOutputGivesFailedMap(input: MapInput, field: FieldRenderer, gateway: Gateway<KnowledgeMap>)
    requires input.actionItems != []
    requires gateway(MappingPrompt(input.actionItems, field)) == NoOutput
    ensures GenerateKnowledgeMap(input, field, gateway).result == KnowledgeMap(FailedDescription, [], [])
  {
  }

  /**
   * A thrown value gives the "Error..." map: the description is the fixed prefix
   * followed by the `Error`'s message, or by "Unknown error" for any other value.
   */
  lemma ThrownGivesErrorMap(input: MapInput, field: FieldRenderer, gateway: Gateway<KnowledgeMap>, thrown: Thrown)
    requires input.actionItems != []
    requires gateway(MappingPrompt(input.actionItems, field)) == Threw(thrown)
    ensures var m := GenerateKnowledgeMap(input, field, gateway).result;
      && m.nodes == [] && m.edges == []
      && m.mapDescription[..|ErrorDescriptionPrefix|] == ErrorDescriptionPrefix
      && m.mapDescription[|ErrorDescriptionPrefix|..]
         == (if thrown.ErrorInstance? then thrown.message else "Unknown error")
  {
  }

  /**
   * A map with any node or edge can only be the gateway's own output: the
   * short-circuit, the null output and the error all give an empty graph.
   */
  lemma GraphOnlyFromGatewayOutput(input: MapInput, field: FieldRenderer, gateway: Gateway<KnowledgeMap>)
    ensures var m := GenerateKnowledgeMap(input, field, gateway).result;
      m.nodes != [] || m.edges != [] ==>
        input.actionItems != [] && gateway(MappingPrompt(input.actionItems, field)) == Output(m)
  {
  }

  /** Every path other than a gateway output carries a fixed description or the error description. */
  lemma FallbackDescriptions(input: MapInput, field: FieldRenderer, gateway: Gateway<KnowledgeMap>)
    ensures var m := GenerateKnowledgeMap(input, field, gateway).result;
      var outcome := gateway(MappingPrompt(input.actionItems, field));
      input.actionItems == [] || !outcome.Output? ==>
        || m == DescriptionOnly(NoItemsDescription)
        || m == DescriptionOnly(FailedDescription)
        || m == DescriptionOnly(ErrorDescriptionPrefix + ThrownMessage(outcome.thrown))
  {
  }

  /** A gateway that answers every prompt with one dangling edge. */
  function DanglingGateway(p: string): Outcome<KnowledgeMap> {
    Output(KnowledgeMap("m", [KnowledgeNode("a", Action, "A")], [KnowledgeEdge("e1", "a", "b", None, None)]))
  }

  /**
   * Edges are not filtered: an edge whose target names no node is handed back,
   * so the stage adds no referential-integrity guarantee.
   */
  lemma DanglingEdgeSurvives(item: ActionItem, field: FieldRenderer)
    ensures var m := GenerateKnowledgeMap(MapInput([item]), field, DanglingGateway).result;
      && m.edges == [KnowledgeEdge("e1", "a", "b", None, None)]
      && !EdgesReferToNodes(m)
  {
    var m := GenerateKnowledgeMap(MapInput([item]), field, DanglingGateway).result;
    assert m.edges[0] in m.edges;
    assert forall n :: n in m.nodes ==> n.id == "a";
  }

  /** A blank transcript runs through both stages without a single gateway call. */
  lemma BlankTranscriptPipeline(
      input: ExtractInput, field: FieldRenderer,
      extractGateway: Gateway<ExtractOutput>, mapGateway: Gateway<KnowledgeMap>)
    requires AllWhitespace(input.transcript)
    ensures var items := ExtractActionItems(input, extractGateway);
      var m := GenerateKnowledgeMap(MapInput(items.result.actionItems), field, mapGateway);
      items.calls == [] && m.calls == [] && m.result == DescriptionOnly(NoItemsDescription)
  {
    BlankTranscriptShortCircuits(input, extractGateway);
  }
}
