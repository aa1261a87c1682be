# ActionExtractor core, modelled in Dafny

ActionExtractor takes a meeting transcript and asks a remote language model for
two things: a list of action items (task, assignee, assigner, timeline, context),
and a "knowledge map" built from those items (a markdown description plus a
graph of people, actions, topics and timelines). A display component then turns
the map's graph into nodes and edges for a graph widget.

This project models the three pieces of that pipeline that have logic of their
own:

- **Extraction stage** (`extraction.dfy`, module `Extraction`). It covers the
  `ActionItem` record, the blank-transcript check built on JavaScript `trim()`,
  and the extraction prompt (fixed text, the transcript inserted verbatim, fixed
  text). It also covers the flow's fallback: a null output or a thrown error
  becomes `{ actionItems: [] }`.
- **Mapping stage** (`knowledge_mapping.dfy`, module `KnowledgeMapping`). It
  covers the node, edge and map records and the empty-list check. It covers the
  mapping prompt, which labels item *i* with the positional id `action-<i>`. It
  also covers the flow's three non-success maps: no items, "Failed…" and
  "Error…: message".
- **Display conversion and layout** (`knowledge_map_display.dfy`, module
  `KnowledgeMapDisplay`). It covers converting map nodes and edges into widget
  nodes and edges, and the fallback grid layout `getLayoutedElements`. It also
  covers the node-style lookup with its `context` fallback and the mini-map
  colour.

Shared modules: `Wrappers` (an `Option` type for absent fields), `Completion`
(the gateway abstraction) and `JsStrings` (JavaScript `trim()`, decimal
rendering of an index, joining template parts).

**The completion service** is foreign code. It is a parameter
`gateway: string -> Outcome<T>`. It maps each rendered prompt to what awaiting
the prompt yields: `Output(value)`, `NoOutput` (a null output) or
`Threw(thrown)`. Here `thrown` is an `Error` with its message, or any other
value. Each public operation returns a `Run(result, calls)`. `calls` lists the
prompts sent to the gateway, so "the gateway was not consulted" is stated as
`calls == []`. It is also stated as "the result is the same for every gateway".

Dafny reserves the word `label`. Fields the source calls `label` are named
`labelText` here.

Three behaviours of the code are worth stating outright, since a reader might
expect otherwise:

- **Dangling edges.** The mapping flow returns the model's edges unfiltered
  (`src/ai/flows/generate-knowledge-map.ts:128`), so an edge naming a missing
  node survives. `DanglingEdgeSurvives` shows such an edge coming back out.
- **Empty `action` fields.** `action` is a plain `z.string()`
  (`src/ai/flows/extract-action-items.ts:24`) and may be empty; the model allows it.
- **Error messages from extraction.** The extraction flow discards a gateway
  error's message and returns an empty list
  (`src/ai/flows/extract-action-items.ts:86-89`). Only the mapping flow puts the
  message into its result.

## Model

| member | source | states |
|---|---|---|
| `JsStrings.TrimStart` | src/ai/flows/extract-action-items.ts:40 | the left part of `trim()` returns a suffix of its input, no longer than the input |
| `JsStrings.TrimEnd` | src/ai/flows/extract-action-items.ts:40 | the right part of `trim()` returns a prefix of its input, no longer than the input |
| `JsStrings.Trim` | src/ai/flows/extract-action-items.ts:40 | `trim()` returns a contiguous slice of its input, starting where the leading whitespace ends |
| `JsStrings.TrimIsWhitespaceFreeSlice` | src/ai/flows/extract-action-items.ts:40 | only whitespace lies before and after the slice `trim()` returns, and the slice neither starts nor ends with whitespace |
| `JsStrings.TrimEmptyIff` | src/ai/flows/extract-action-items.ts:40 | `s.trim() === ''` holds exactly when every character of `s` is ECMAScript whitespace or a line terminator |
| `JsStrings.NatToDecimal` | src/ai/flows/generate-knowledge-map.ts:88 | `@index` renders as at least one decimal digit, exactly one when the index is below 10, and starts with `0` only for index 0 (no leading zero) |
| `JsStrings.CanonicalDecimalIsRendering` | src/ai/flows/generate-knowledge-map.ts:88 | every digit string without a leading zero is the rendering of its own value, so the rendering is exactly `String(n)` and no other spelling of `n` |
| `JsStrings.DecimalRoundTrip` | src/ai/flows/generate-knowledge-map.ts:88 | reading a rendered index back as a decimal number gives the index |
| `JsStrings.ConcatContainsPart` | src/ai/flows/generate-knowledge-map.ts:87-93 | the text of each iteration of `{{#each}}` appears in the joined output |
| `Extraction.IsBlank` | src/ai/flows/extract-action-items.ts:40 | the guard (`!transcript`, or `transcript.trim() === ''`) holds exactly when `trim()` gives the empty string; the `!transcript` half adds nothing for a string |
| `Extraction.BlankIffAllWhitespace` | src/ai/flows/extract-action-items.ts:40 | the blank guard (empty, or empty after `trim()`) holds exactly for transcripts made only of whitespace, including the empty transcript |
| `Extraction.ExtractionPrompt` | src/ai/flows/extract-action-items.ts:58-71 | the prompt is the fixed prefix ending in `Transcript:`, then the transcript unchanged (triple braces, no escaping), then the fixed suffix |
| `Extraction.PromptRoundTrip` | src/ai/flows/extract-action-items.ts:68 | the transcript can be read back out of its prompt |
| `Extraction.PromptInjective` | src/ai/flows/extract-action-items.ts:58-71 | different transcripts give different prompts |
| `Extraction.SettleExtraction` | src/ai/flows/extract-action-items.ts:82-90 | a non-null output is returned as it is; a null output or a thrown error gives `{ actionItems: [] }` |
| `Extraction.ExtractActionItemsFlow` | src/ai/flows/extract-action-items.ts:81-91 | the flow sends exactly one prompt, the extraction prompt of the input transcript |
| `Extraction.ExtractActionItems` | src/ai/flows/extract-action-items.ts:38-44 | the gateway is called exactly when the transcript is not blank, and at most once |
| `Extraction.BlankTranscriptShortCircuits` | src/ai/flows/extract-action-items.ts:40-42 | an all-whitespace transcript gives `{ actionItems: [] }` with no gateway call |
| `Extraction.BlankTranscriptIgnoresGateway` | src/ai/flows/extract-action-items.ts:40-42 | for a blank transcript every gateway gives the same result |
| `Extraction.NonBlankTranscriptDelegates` | src/ai/flows/extract-action-items.ts:43 | a transcript with a non-whitespace character goes to the flow, which sends its prompt once and settles the gateway's outcome for it |
| `Extraction.ResultDependsOnlyOnPromptOutcome` | src/ai/flows/extract-action-items.ts:38-44 | two gateways that agree on this transcript's prompt give the same result |
| `Extraction.OutputReturnedUnchanged` | src/ai/flows/extract-action-items.ts:85 | for a non-blank transcript a non-null output is returned unchanged: same items, same order, same fields |
| `Extraction.FailureYieldsNoItems` | src/ai/flows/extract-action-items.ts:85-89 | a null output or a thrown error gives `{ actionItems: [] }`; no failure propagates |
| `Extraction.EmptyResultIff` | src/ai/flows/extract-action-items.ts:40-89 | the result is empty exactly when the transcript is blank, the gateway gave no output or threw, or the gateway returned an empty list |
| `KnowledgeMapping.KindName` | src/ai/flows/generate-knowledge-map.ts:31 | each of the five `type` enum values reads back (through `KindOfName`) as its own kind, so no two kinds share a name |
| `KnowledgeMapping.KindOfNameInverse` | src/ai/flows/generate-knowledge-map.ts:31 | `KindOfName` accepts only the five enum strings `person`, `action`, `topic`, `timeline`, `context`, each as the kind `KindName` gives that string |
| `KnowledgeMapping.ActionId` | src/ai/flows/generate-knowledge-map.ts:88 | the id is `action-` followed by the index as a decimal with no leading zero |
| `KnowledgeMapping.ActionIdOfCanonical` | src/ai/flows/generate-knowledge-map.ts:88 | every `action-<digits>` id without a leading zero is the positional id of the index it spells |
| `KnowledgeMapping.ActionIdRoundTrip` | src/ai/flows/generate-knowledge-map.ts:88 | the index can be read back out of the id `action-<index>` |
| `KnowledgeMapping.ActionIdInjective` | src/ai/flows/generate-knowledge-map.ts:88 | distinct positions get distinct `action-<index>` ids |
| `KnowledgeMapping.LabelActionItems` | src/ai/flows/generate-knowledge-map.ts:87-88 | the `{{#each}}` iteration labels as many items as there are |
| `KnowledgeMapping.LabelsArePositional` | src/ai/flows/generate-knowledge-map.ts:87-88 | the item at 0-based position *i* keeps its place and is labelled `action-<i>` |
| `KnowledgeMapping.LabelsAreDistinct` | src/ai/flows/generate-knowledge-map.ts:87-88 | for *n* items the *n* ids are pairwise distinct |
| `KnowledgeMapping.ItemBlockShowsId` | src/ai/flows/generate-knowledge-map.ts:88-92 | an item's block (`ItemBlock`: its action line, then the four `ItemFields` lines) shows `(Action ID: <id>)` |
| `KnowledgeMapping.MappingPrompt` | src/ai/flows/generate-knowledge-map.ts:84-112 | the prompt starts with the fixed text before the `{{#each}}` block and ends with the fixed instructions after it; with no items it is those two texts alone |
| `KnowledgeMapping.MappingPromptSnoc` | src/ai/flows/generate-knowledge-map.ts:87-93 | the `{{#each}}` blocks appear in list order with nothing else between the fixed texts: one more item puts its block, tagged `action-<n>` for the new last index *n*, right before the instructions; with `MappingPrompt` for the empty list this fixes the whole prompt |
| `KnowledgeMapping.MappingPromptTagsEachItem` | src/ai/flows/generate-knowledge-map.ts:84-112 | the rendered mapping prompt contains each item's block, under the id `action-<i>` for the item at position *i* |
| `KnowledgeMapping.SettleMap` | src/ai/flows/generate-knowledge-map.ts:125-137 | a non-null output is returned as it is; a null output gives "Failed to generate knowledge map."; a thrown value gives "Error generating knowledge map: " plus its message; the last two have no nodes or edges |
| `KnowledgeMapping.GenerateKnowledgeMapFlow` | src/ai/flows/generate-knowledge-map.ts:117-138 | the flow sends exactly one prompt, the mapping prompt of the input items |
| `KnowledgeMapping.GenerateKnowledgeMap` | src/ai/flows/generate-knowledge-map.ts:62-72 | the gateway is called exactly when the item list is non-empty, and at most once |
| `KnowledgeMapping.EmptyItemsShortCircuit` | src/ai/flows/generate-knowledge-map.ts:64-70 | an empty list gives "No action items provided to generate a knowledge map." with no nodes and no edges, and no gateway call |
| `KnowledgeMapping.NonEmptyItemsDelegate` | src/ai/flows/generate-knowledge-map.ts:71 | a non-empty list goes to the flow, which sends the mapping prompt once |
| `KnowledgeMapping.MapOutputReturnedUnchanged` | src/ai/flows/generate-knowledge-map.ts:128 | a non-null output is returned exactly as given, with nodes and edges unfiltered |
| `KnowledgeMapping.NoOutputGivesFailedMap` | src/ai/flows/generate-knowledge-map.ts:128 | a null output gives "Failed to generate knowledge map." with no nodes or edges |
| `KnowledgeMapping.ThrownGivesErrorMap` | src/ai/flows/generate-knowledge-map.ts:129-136 | a thrown value gives "Error generating knowledge map: " followed by the `Error`'s message, or by "Unknown error" for a non-`Error` value (`ThrownMessage`, line 133), with no nodes or edges |
| `KnowledgeMapping.GraphOnlyFromGatewayOutput` | src/ai/flows/generate-knowledge-map.ts:64-136 | a result with any node or edge is the gateway's own output for a non-empty list; the short-circuit, null and error paths all have an empty graph |
| `KnowledgeMapping.FallbackDescriptions` | src/ai/flows/generate-knowledge-map.ts:64-136 | on every path other than a gateway output, the map is one of the three description-only maps |
| `KnowledgeMapping.DanglingEdgeSurvives` | src/ai/flows/generate-knowledge-map.ts:128 | an output edge that points at a missing node is returned as it is, so the stage adds no referential-integrity guarantee |
| `KnowledgeMapping.BlankTranscriptPipeline` | src/ai/flows/generate-knowledge-map.ts:64-70 | a blank transcript fed through both stages makes no gateway call and ends in the "No action items…" map |
| `KnowledgeMapDisplay.ToFlowNode` | src/components/knowledge-map-display.tsx:95-100 | a converted node has the type `custom` and its drawn position |
| `KnowledgeMapDisplay.NodeConversionRoundTrip` | src/components/knowledge-map-display.tsx:95-100 | node conversion keeps `id` and copies `label` and `type` into `data`: the map node can be read back unchanged |
| `KnowledgeMapDisplay.ToFlowEdge` | src/components/knowledge-map-display.tsx:106-113 | a converted edge has the type `smoothstep` |
| `KnowledgeMapDisplay.EdgeConversionRoundTrip` | src/components/knowledge-map-display.tsx:106-113 | edge conversion keeps `id`, `source`, `target`, `label` and `animated` unchanged |
| `KnowledgeMapDisplay.InitialNodes` | src/components/knowledge-map-display.tsx:92-101 | no map gives no nodes; otherwise there is one widget node per map node |
| `KnowledgeMapDisplay.InitialEdges` | src/components/knowledge-map-display.tsx:103-114 | no map gives no edges; otherwise there is one widget edge per map edge |
| `KnowledgeMapDisplay.InitialElementsShowMap` | src/components/knowledge-map-display.tsx:92-114 | the widget nodes and edges show exactly the map's nodes and edges, in order; node *i* sits at the *i*-th random draw |
| `KnowledgeMapDisplay.GridPosition` | src/components/knowledge-map-display.tsx:52-62 | a computed `x` is one of 0, 222, 444, 666 (there are 4 columns); `y` is `(i / 4) * 86` |
| `KnowledgeMapDisplay.GridRowsDescend` | src/components/knowledge-map-display.tsx:57 | a computed `y` never decreases as the index grows |
| `KnowledgeMapDisplay.GridCellsDistinct` | src/components/knowledge-map-display.tsx:57-58 | two different indices never get the same grid cell |
| `KnowledgeMapDisplay.PlaceNode` | src/components/knowledge-map-display.tsx:59-63 | after placing, a node always has a position |
| `KnowledgeMapDisplay.GetLayoutedElements` | src/components/knowledge-map-display.tsx:46-67 | edges come back as given; node count and order are kept; every field other than `position` is kept; every node ends up with a position |
| `KnowledgeMapDisplay.LayoutPositions` | src/components/knowledge-map-display.tsx:56-64 | a node with a position keeps it; a node without one at index *i* gets `x = (i % 4) * 222`, `y = (i / 4) * 86` |
| `KnowledgeMapDisplay.EmptyLayoutIsIdentity` | src/components/knowledge-map-display.tsx:47-49 | an empty node list returns the input nodes and edges unchanged |
| `KnowledgeMapDisplay.LayoutIdempotent` | src/components/knowledge-map-display.tsx:56-64 | laying out an already laid-out graph changes nothing |
| `KnowledgeMapDisplay.LayoutKeepsDrawnPositions` | src/components/knowledge-map-display.tsx:99 | nodes built from a map already have random positions, so the layout never uses the grid for them |
| `KnowledgeMapDisplay.StyleFor` | src/components/knowledge-map-display.tsx:79 | a type with a style entry gets that entry; any other type gets the `context` style |
| `KnowledgeMapDisplay.NodeStylesKeyedByKinds` | src/components/knowledge-map-display.tsx:70-76 | `nodeStyles` has an entry for exactly the five kind names, each holding that kind's style (`KindStyle`) |
| `KnowledgeMapDisplay.CustomNodeStyle` | src/components/knowledge-map-display.tsx:79 | a custom node of any of the five kinds is drawn in that kind's own style |
| `KnowledgeMapDisplay.UnknownTypeFallsBackToContext` | src/components/knowledge-map-display.tsx:79 | a type name outside the enum falls back to the `context` style (inherited `Object.prototype` names aside, see Left out) |
| `KnowledgeMapDisplay.MiniMapColor` | src/components/knowledge-map-display.tsx:200 | a type without a style entry is shown as `#ccc` in the mini-map |
| `KnowledgeMapDisplay.MiniMapColorsDistinct` | src/components/knowledge-map-display.tsx:70-76 | each kind shows its own background in the mini-map, and no two kinds share a colour |

## Left out

- The remote model call, `ai.definePrompt` and `ai.defineFlow`: foreign library code. The call is the `gateway` parameter. The output schema handed to it is not modelled.
- zod's runtime validation: library code. The model's records are already typed, so malformed model output is not modelled. It arrives as a thrown value.
- Handlebars HTML-escaping and the rendering of absent optional fields in the mapping prompt: library behaviour. They are the `field` parameter (`FieldRenderer`).
- Handlebars' standalone-line rule: the model assumes the `{{#each}}` and `{{/each}}` lines render as nothing. This is how Handlebars treats a block tag alone on its line.
- The literal text of the mapping prompt: it is taken as written. `src/ai/flows/generate-knowledge-map.ts:101-109` holds unescaped backticks inside the TypeScript template literal, and those would end the literal early. The model does not guess what the build actually sends.
- Mapping-prompt constants: `MapPromptPrefix` and `MapPromptSuffix` give the instructions' text, but no property is proved about that text beyond where the item blocks sit.
- Non-string transcripts and non-array item lists that `!input.transcript` and `!input.actionItems` would also catch: the inputs are typed. Only the empty-string and empty-list cases of those guards are modelled.
- `Math.random()` start positions (`src/components/knowledge-map-display.tsx:99`): nondeterministic. They are the `draw` parameter, and their range `[0, 400)` is not constrained.
- StyleFor: names inherited from `Object.prototype`, such as `constructor` or `toString`, are truthy lookups in JavaScript and do not fall back to the `context` style. The model's table holds only its five own keys, so it does not capture that; type names come from the enum.
- UnknownTypeFallsBackToContext: for the same reason, the fallback it states does not cover names inherited from `Object.prototype`.
- The unused `direction` argument of `getLayoutedElements`, the React hooks (`useMemo`, `useNodesState`, `useEffect`), markdown rendering, JSX and CSS: UI.
- `console.error` logging in both flows: a side effect with no contract.
- `src/app/page.tsx`, `src/components/transcript-uploader.tsx`, `src/components/text-input-area.tsx`, `src/components/action-items-display.tsx`, `src/ai/flows/summarize-transcript.ts` and `next.config.ts`: UI state, file I/O, a single forwarding call, and build configuration. They are not part of this model. Overlapping requests from the page are concurrency and are not modelled.
