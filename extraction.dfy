/**
 * The action-item extraction stage: transcript in, list of action items out.
 * The remote completion call is the `gateway` parameter.
 */
module Extraction {
  import opened Wrappers
  import opened Completion
  import opened JsStrings

  /** One extracted commitment; `assignee`, `assigner` and `timeline` may be absent. */
  datatype ActionItem = ActionItem(
    action: string,
    assignee: Option<string>,
    assigner: Option<string>,
    timeline: Option<string>,
    context: string)

  datatype ExtractInput = ExtractInput(transcript: string)

  datatype ExtractOutput = ExtractOutput(actionItems: seq<ActionItem>)

  /** `{ actionItems: [] }`, the answer on every path that does not return the gateway's output. */
  const NoActionItems: ExtractOutput := ExtractOutput([])

  /** The prompt template up to the triple-brace `transcript` slot. */
  const PromptPrefix: string := "You are an AI assistant specialized in analyzing meeting transcripts to extract actionable tasks. Carefully read the provided transcript and identify all sentences or phrases that represent a specific action item, task, or commitment.\n\nFor each action item identified, extract the following details:\n1.  **action**: The core task or action to be performed.\n2.  **assignee**: The individual or group responsible for executing the action item. If not mentioned, leave this field empty.\n3.  **assigner**: The individual who assigned the task or made the request. This might be the speaker or another person mentioned. If not clear, leave this field empty.\n4.  **timeline**: Any specified deadline, due date, or timeframe (e.g., \"by Friday\", \"next week\", \"EOD\", \"before the next meeting\"). If no timeline is mentioned, leave this field empty.\n5.  **context**: The sentence or direct surrounding phrase where the action item was mentioned.\n\nTranscript:\n"

  /** The prompt template after the `transcript` slot, to the end of the template. */
  const PromptSuffix: string := "\n\nPresent the extracted information as a JSON object containing a list named \"actionItems\". Each object in the list should represent one action item and have the fields: \"action\", \"assignee\", \"assigner\", \"timeline\", and \"context\". Ensure the output strictly adheres to the JSON format. If no action items are found, return an empty \"actionItems\" list.\n"

  /**
   * The blank check, `!transcript || transcript.trim() === ''`. The empty string
   * trims to itself, so the first disjunct adds nothing.
   */
  predicate IsBlank(transcript: string)
    ensures IsBlank(transcript) <==> Trim(transcript) == ""
  {
    transcript == "" || Trim(transcript) == ""
  }

  /** A transcript is blank exactly when each of its characters is JavaScript whitespace. */
  lemma BlankIffAllWhitespace(transcript: string)
    ensures IsBlank(transcript) <==> AllWhitespace(transcript)
  {
    TrimEmptyIff(transcript);
  }

  /**
   * The rendered extraction prompt. The triple-brace slot inserts the transcript
   * without escaping, so the prompt is the fixed prefix, the transcript as it is,
   * then the fixed suffix.
   */
  function ExtractionPrompt(transcript: string): (p: string)
    ensures |p| == |PromptPrefix| + |transcript| + |PromptSuffix|
    ensures p[..|PromptPrefix|] == PromptPrefix
    ensures p[|PromptPrefix|..|PromptPrefix| + |transcript|] == transcript
    ensures p[|PromptPrefix| + |transcript|..] == PromptSuffix
  {
    PromptPrefix + transcript + PromptSuffix
  }

  /** Reads the transcript back out of a rendered extraction prompt, if it is one. */
  function TranscriptOfPrompt(p: string): Option<string> {
    if |p| >= |PromptPrefix| + |PromptSuffix|
       && p[..|PromptPrefix|] == PromptPrefix
       && p[|p| - |PromptSuffix|..] == PromptSuffix
    then Some(p[|PromptPrefix|..|p| - |PromptSuffix|])
    else None
  }

  /** The transcript can be recovered from the prompt: nothing of it is lost or altered. */
  lemma PromptRoundTrip(transcript: string)
    ensures TranscriptOfPrompt(ExtractionPrompt(transcript)) == Some(transcript)
  {
  }

  /** Different transcripts give different prompts. */
  lemma PromptInjective(a: string, b: string)
    requires ExtractionPrompt(a) == ExtractionPrompt(b)
    ensures a == b
  {
    PromptRoundTrip(a);
    PromptRoundTrip(b);
  }

  /** `output ?? { actionItems: [] }` inside `try`, and `{ actionItems: [] }` from `catch`. */
  function SettleExtraction(outcome: Outcome<ExtractOutput>): (r: ExtractOutput)
    ensures outcome.Output? ==> r == outcome.value
    ensures !outcome.Output? ==> r == NoActionItems
  {
    match outcome
    case Output(o) => o
    case NoOutput => NoActionItems
    case Threw(_) => NoActionItems
  }

  /** `extractActionItemsFlow`: renders the prompt, awaits the gateway once, settles the outcome. */
  function ExtractActionItemsFlow(input: ExtractInput, gateway: Gateway<ExtractOutput>): (r: Run<ExtractOutput>)
    ensures r.calls == [ExtractionPrompt(input.transcript)]
  {
    var p := ExtractionPrompt(input.transcript);
    Run(SettleExtraction(gateway(p)), [p])
  }

  /** `extractActionItems`: the blank check in front of the flow. */
  function ExtractActionItems(input: ExtractInput, gateway: Gateway<ExtractOutput>): (r: Run<ExtractOutput>)
    ensures IsBlank(input.transcript) <==> r.calls == []
    ensures |r.calls| <= 1
  {
    if IsBlank(input.transcript) then Run(NoActionItems, [])
    else ExtractActionItemsFlow(input, gateway)
  }

  /** An all-whitespace transcript yields no items and the gateway is never called. */
  lemma BlankTranscriptShortCircuits(input: ExtractInput, gateway: Gateway<ExtractOutput>)
    requires AllWhitespace(input.transcript)
    ensures ExtractActionItems(input, gateway) == Run(NoActionItems, [])
  {
    BlankIffAllWhitespace(input.transcript);
  }

  /** For a blank transcript no gateway behaviour can change the answer. */
  lemma BlankTranscriptIgnoresGateway(input: ExtractInput, g1: Gateway<ExtractOutput>, g2: Gateway<ExtractOutput>)
    requires AllWhitespace(input.transcript)
    ensures ExtractActionItems(input, g1) == ExtractActionItems(input, g2)
  {
    BlankTranscriptShortCircuits(input, g1);
    BlankTranscriptShortCircuits(input, g2);
  }

  /**
   * A transcript with a non-whitespace character is handed to the flow, which sends
   * exactly its prompt once; the answer depends only on the gateway's outcome for it.
   */
  lemma NonBlankTranscriptDelegates(input: ExtractInput, gateway: Gateway<ExtractOutput>, i: nat)
    requires i < |input.transcript| && !IsJsWhitespace(input.transcript[i])
    ensures ExtractActionItems(input, gateway) == ExtractActionItemsFlow(input, gateway)
    ensures ExtractActionItems(input, gateway).calls == [ExtractionPrompt(input.transcript)]
    ensures ExtractActionItems(input, gateway).result == SettleExtraction(gateway(ExtractionPrompt(input.transcript)))
  {
    BlankIffAllWhitespace(input.transcript);
  }

  /** Two gateways that agree on this transcript's prompt give the same answer. */
  lemma ResultDependsOnlyOnPromptOutcome(input: ExtractInput, g1: Gateway<ExtractOutput>, g2: Gateway<ExtractOutput>)
    requires g1(ExtractionPrompt(input.transcript)) == g2(ExtractionPrompt(input.transcript))
    ensures ExtractActionItems(input, g1) == ExtractActionItems(input, g2)
  {
  }

  /** A non-null gateway output is returned as it is: same items, same order, same field values. */
  lemma OutputReturnedUnchanged(input: ExtractInput, gateway: Gateway<ExtractOutput>, output: ExtractOutput)
    requires !IsBlank(input.transcript)
    requires gateway(ExtractionPrompt(input.transcript)) == Output(output)
    ensures ExtractActionItems(input, gateway).result == output
  {
  }

  /** A null output or a thrown value degrades to `{ actionItems: [] }`; nothing propagates. */
  lemma FailureYieldsNoItems(input: ExtractInput, gateway: Gateway<ExtractOutput>)
    requires !gateway(ExtractionPrompt(input.transcript)).Output?
    ensures ExtractActionItems(input, gateway).result == NoActionItems
  {
  }

  /**
   * An empty answer means one of three things: the transcript was blank, the gateway
   * gave no output or threw, or the gateway itself returned an empty list.
   */
  lemma EmptyResultIff(input: ExtractInput, gateway: Gateway<ExtractOutput>)
    ensures var outcome := gateway(ExtractionPrompt(input.transcript));
      ExtractActionItems(input, gateway).result.actionItems == []
      <==> IsBlank(input.transcript) || !outcome.Output? || outcome.value.actionItems == []
  {
  }
}
