/**
 * The non-streaming path as functions: the backend's streamed records are
 * collected (text concatenated, tool-call entries in first-seen order, the
 * last finish reason, usage counters) and turned into one response message.
 * The class in aggregator.dfy is proved to follow these functions.
 */
module AggregateSpec {
  import opened Wrappers
  import opened Json
  import opened Text
  import opened JsonScan
  import opened Usage
  import opened Records

  /** One collected tool call: id and name (if any delta carried one) and the arguments so far. */
  datatype AggEntry = AggEntry(id: Option<string>, name: Option<string>, arguments: string)

  const NewEntry := AggEntry(None, None, "")

  /** `fullText`, the tool-call map (keys in first-seen order, and the entries),
      the last non-empty finish reason, and the usage counters. */
  datatype Collected = Collected(text: string, order: seq<int>, entries: map<int, AggEntry>,
                                 finishReason: Option<string>, usage: Usage)

  const Empty := Collected("", [], map[], None, Zero)

  /** The order lists each key once and the keys are those of the map. */
  ghost predicate WellFormed(c: Collected) {
    && (forall i, j :: 0 <= i < j < |c.order| ==> c.order[i] != c.order[j])
    && (forall k :: k in c.entries <==> k in c.order)
  }

  function EntryOf(c: Collected, index: int): AggEntry {
    if index in c.entries then c.entries[index] else NewEntry
  }

  /** One tool-call delta: the entry is created on first sighting, a non-empty
      id or name overwrites the stored one, the arguments slice is appended. */
  function AbsorbToolCall(c: Collected, tc: ToolCallDelta): (r: Collected)
    ensures r.text == c.text && r.finishReason == c.finishReason && r.usage == c.usage
    ensures r.order == (if tc.index in c.entries then c.order else c.order + [tc.index])
    ensures r.entries.Keys == c.entries.Keys + {tc.index}
    ensures forall k :: k in c.entries && k != tc.index ==> r.entries[k] == c.entries[k]
    ensures var before := EntryOf(c, tc.index);
            var after := r.entries[tc.index];
            && after.arguments == before.arguments + tc.arguments
            && after.id == (if tc.id != "" then Some(tc.id) else before.id)
            && after.name == (if tc.name != "" then Some(tc.name) else before.name)
  {
    var before := EntryOf(c, tc.index);
    var after := AggEntry(
      if tc.id != "" then Some(tc.id) else before.id,
      if tc.name != "" then Some(tc.name) else before.name,
      before.arguments + tc.arguments);
    c.(order := if tc.index in c.entries then c.order else c.order + [tc.index],
       entries := c.entries[tc.index := after])
  }

  function AbsorbAll(c: Collected, tcs: seq<ToolCallDelta>): (r: Collected)
    ensures r.text == c.text && r.finishReason == c.finishReason && r.usage == c.usage
    decreases |tcs|
  {
    if tcs == [] then c else AbsorbToolCall(AbsorbAll(c, tcs[..|tcs| - 1]), tcs[|tcs| - 1])
  }

  /** One decoded record: usage merged, text appended, tool-call deltas
      absorbed, and a non-empty finish reason remembered. */
  function RecordStep(c: Collected, chunk: Chunk): (r: Collected)
    ensures r.text == c.text + chunk.content
    ensures r.finishReason == (if chunk.finishReason != "" then Some(chunk.finishReason) else c.finishReason)
    ensures r.usage == (if chunk.usage.Some? then Merge(c.usage, chunk.usage.value) else c.usage)
  {
    var c1 := if chunk.usage.Some? then c.(usage := Merge(c.usage, chunk.usage.value)) else c;
    var c2 := c1.(text := c1.text + chunk.content);
    var c3 := AbsorbAll(c2, chunk.toolCalls);
    if chunk.finishReason != "" then c3.(finishReason := Some(chunk.finishReason)) else c3
  }

  /** One line: only decodable `data: ` records count; `[DONE]` is skipped
      and the batch goes on. */
  function LineStep(c: Collected, line: string, decode: string -> Option<Chunk>): (r: Collected)
    ensures !Classify(line).Payload? ==> r == c
    ensures c.text <= r.text
  {
    match Classify(line)
    case Skipped => c
    case Done => c
    case Payload(payload) =>
      match decode(payload)
      case None => c
      case Some(chunk) => RecordStep(c, chunk)
  }

  /** The lines of one read, in order; text is only ever appended to. */
  function LinesStep(c: Collected, lines: seq<string>, decode: string -> Option<Chunk>): (r: Collected)
    ensures c.text <= r.text
    decreases |lines|
  {
    if lines == [] then c else LineStep(LinesStep(c, lines[..|lines| - 1], decode), lines[|lines| - 1], decode)
  }

  /** The collected state and the retained partial line after some reads. */
  datatype Collection = Collection(collected: Collected, buffer: string)

  function Reads(chunks: seq<string>, decode: string -> Option<Chunk>): (r: Collection)
    ensures '\n' !in r.buffer
    ensures chunks != [] ==> Reads(chunks[..|chunks| - 1], decode).collected.text <= r.collected.text
    decreases |chunks|
  {
    if chunks == [] then Collection(Empty, "")
    else
      var prev := Reads(chunks[..|chunks| - 1], decode);
      var framed := Frame(prev.buffer + chunks[|chunks| - 1]);
      Collection(LinesStep(prev.collected, framed.lines, decode), framed.rest)
  }

  // ---- The response ----

  datatype ContentBlock =
    | TextContent(text: string)
    | ToolUseContent(id: Option<string>, name: Option<string>, input: Json)

  /** The response message; its id (built from the clock) is left out. */
  datatype Response = Response(content: seq<ContentBlock>, model: string, stopReason: Option<string>,
                               inputTokens: nat, outputTokens: nat)

  /** A tool call's input: the decoded arguments when they pass the one-shot
      completeness check and decode, the raw argument string otherwise. */
  function ToolInput(arguments: string, parseArgs: string -> Option<Json>): (r: Json)
    ensures IsCompleteJson(arguments) && parseArgs(arguments).Some? ==> r == parseArgs(arguments).value
    ensures !IsCompleteJson(arguments) || parseArgs(arguments).None? ==> r == JString(arguments)
  {
    if IsCompleteJson(arguments) then
      match parseArgs(arguments)
      case Some(v) => v
      case None => JString(arguments)
    else JString(arguments)
  }

  function ToolBlock(e: AggEntry, parseArgs: string -> Option<Json>): ContentBlock {
    ToolUseContent(e.id, e.name, ToolInput(e.arguments, parseArgs))
  }

  /** The tool_use blocks of the entries listed in `order`, skipping empty arguments. */
  function ToolBlocks(c: Collected, order: seq<int>, parseArgs: string -> Option<Json>): seq<ContentBlock>
    decreases |order|
  {
    if order == [] then []
    else
      var e := EntryOf(c, order[|order| - 1]);
      ToolBlocks(c, order[..|order| - 1], parseArgs) + (if e.arguments != "" then [ToolBlock(e, parseArgs)] else [])
  }

  /** The backend's finish reason in the client's terms: `tool_calls` is
      `tool_use`, `stop` is `end_turn`, anything else (or none) is passed on. */
  function StopReason(finish: Option<string>): (r: Option<string>)
    ensures finish == Some("tool_calls") ==> r == Some("tool_use")
    ensures finish == Some("stop") ==> r == Some("end_turn")
    ensures finish != Some("tool_calls") && finish != Some("stop") ==> r == finish
  {
    match finish
    case Some(reason) =>
      if reason == "tool_calls" then Some("tool_use")
      else if reason == "stop" then Some("end_turn")
      else finish
    case None => None
  }

  /** The response: a text block first exactly when text was collected, then the
      tool blocks; the client's model name, the mapped stop reason and the counters. */
  function BuildResponse(c: Collected, model: string, parseArgs: string -> Option<Json>): (r: Response)
    ensures r.model == model && r.stopReason == StopReason(c.finishReason)
    ensures r.inputTokens == c.usage.prompt && r.outputTokens == c.usage.completion
  {
    Response((if c.text != "" then [TextContent(c.text)] else []) + ToolBlocks(c, c.order, parseArgs),
             model, StopReason(c.finishReason), c.usage.prompt, c.usage.completion)
  }
}
