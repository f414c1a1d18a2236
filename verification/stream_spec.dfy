/**
 * The streaming translator's behaviour as functions: one connection's cycle
 * state (text block opened, tool-call entries in first-seen order, usage
 * counters) and the client events each line of backend output produces.
 * The class in stream_translator.dfy is proved to follow these functions.
 */
module StreamSpec {
  import opened Wrappers
  import opened Json
  import opened JsonScan
  import opened Usage
  import opened Records

  /** The client's streamed events (the wire encoding is left out). */
  datatype Event =
      /** content_block_start, index 0, an empty text block */
    | TextBlockStart
      /** content_block_delta, index 0, text_delta */
    | TextDelta(text: string)
      /** content_block_start of a fully decoded tool_use block */
    | ToolUseBlockStart(index: int, id: Option<string>, name: Option<string>, input: Json)
    | BlockStop(index: int)
    | MessageDelta(stopReason: string, outputTokens: nat)
    | MessageStop

  /** One tool call being streamed: sticky id and name, the arguments so far,
      and the brace scanner's state over them. */
  datatype ToolEntry = ToolEntry(id: Option<string>, name: Option<string>, arguments: string, scan: ScanState)

  const NewEntry := ToolEntry(None, None, "", Start)

  /** The state of one connection: `hasContentStarted`, the tool-call map
      (its keys in first-seen order, and the entries), and the usage counters. */
  datatype Cycle = Cycle(textStarted: bool, order: seq<int>, entries: map<int, ToolEntry>, usage: Usage)

  const Initial := Cycle(false, [], map[], Zero)

  /** The state after some input, the events it produced, and whether a
      `[DONE]` line ended the current batch of lines. */
  datatype Emitted = Emitted(cycle: Cycle, events: seq<Event>, stopped: bool)

  /** The order lists each key once, the keys are those of the map, and each
      entry's scanner state is that of one pass over its arguments. */
  ghost predicate WellFormed(c: Cycle) {
    && (forall i, j :: 0 <= i < j < |c.order| ==> c.order[i] != c.order[j])
    && (forall k :: k in c.entries <==> k in c.order)
    && (forall k :: k in c.entries ==> c.entries[k].scan == ScanFrom(Start, c.entries[k].arguments))
  }

  function EntryOf(c: Cycle, index: int): ToolEntry {
    if index in c.entries then c.entries[index] else NewEntry
  }

  /** One tool-call delta: the entry is created on first sighting, a non-empty
      id or name overwrites the stored one, the arguments slice is appended
      and the scanner advanced over exactly that slice. */
  function AbsorbToolCall(c: Cycle, tc: ToolCallDelta): (r: Cycle)
    ensures r.textStarted == c.textStarted && r.usage == c.usage
    ensures r.order == (if tc.index in c.entries then c.order else c.order + [tc.index])
    ensures r.entries.Keys == c.entries.Keys + {tc.index}
    ensures forall k :: k in c.entries && k != tc.index ==> r.entries[k] == c.entries[k]
    ensures tc.index !in c.entries ==> r.entries[tc.index].arguments == tc.arguments
    ensures var before := EntryOf(c, tc.index);
            var after := r.entries[tc.index];
            && after.arguments == before.arguments + tc.arguments
            && after.id == (if tc.id != "" then Some(tc.id) else before.id)
            && after.name == (if tc.name != "" then Some(tc.name) else before.name)
            && after.scan == ScanFrom(before.scan, tc.arguments)
  {
    var before := EntryOf(c, tc.index);
    var after := ToolEntry(
      if tc.id != "" then Some(tc.id) else before.id,
      if tc.name != "" then Some(tc.name) else before.name,
      before.arguments + tc.arguments,
      ScanFrom(before.scan, tc.arguments));
    assert tc.index !in c.entries ==> before.arguments + tc.arguments == tc.arguments;
    c.(order := if tc.index in c.entries then c.order else c.order + [tc.index],
       entries := c.entries[tc.index := after])
  }

  function AbsorbAll(c: Cycle, tcs: seq<ToolCallDelta>): (r: Cycle)
    ensures r.textStarted == c.textStarted && r.usage == c.usage
    decreases |tcs|
  {
    if tcs == [] then c else AbsorbToolCall(AbsorbAll(c, tcs[..|tcs| - 1]), tcs[|tcs| - 1])
  }

  /** The events for one entry when `tool_calls` finishes: a start carrying the
      decoded input immediately followed by a stop, both at the entry's index,
      when its arguments are non-empty, its scan is balanced outside strings
      and they decode; nothing otherwise. */
  function ClosedToolUse(index: int, e: ToolEntry, parseArgs: string -> Option<Json>): (r: seq<Event>)
    ensures r != [] <==> e.arguments != "" && StreamReady(e.scan) && parseArgs(e.arguments).Some?
    ensures r != [] ==> r == [ToolUseBlockStart(index, e.id, e.name, parseArgs(e.arguments).value), BlockStop(index)]
  {
    if e.arguments != "" && e.scan.depth == 0 && !e.scan.inString then
      match parseArgs(e.arguments)
      case Some(input) => [ToolUseBlockStart(index, e.id, e.name, input), BlockStop(index)]
      case None => []
    else []
  }

  /** The entries visited in first-seen order: tool_use starts and stops only, at most a pair per entry. */
  function ToolUseEvents(c: Cycle, order: seq<int>, parseArgs: string -> Option<Json>): (r: seq<Event>)
    ensures |r| <= 2 * |order|
    decreases |order|
  {
    if order == [] then []
    else ToolUseEvents(c, order[..|order| - 1], parseArgs)
         + ClosedToolUse(order[|order| - 1], EntryOf(c, order[|order| - 1]), parseArgs)
  }

  /** message_delta with the stop reason and the output tokens so far, then message_stop. */
  function Terminal(stopReason: string, c: Cycle): (r: seq<Event>)
    ensures |r| == 2 && r[0] == MessageDelta(stopReason, c.usage.completion) && r[1] == MessageStop
  {
    [MessageDelta(stopReason, c.usage.completion), MessageStop]
  }

  /** What a finish_reason emits: `tool_calls` closes the complete tool calls
      (never the text block), `stop` closes the text block if it was opened;
      both end with message_delta and message_stop. Anything else emits nothing. */
  function FinishEvents(c: Cycle, reason: string, parseArgs: string -> Option<Json>): (r: seq<Event>)
    ensures r == [] <==> reason != "tool_calls" && reason != "stop"
  {
    if reason == "tool_calls" then ToolUseEvents(c, c.order, parseArgs) + Terminal("tool_use", c)
    else if reason == "stop" then (if c.textStarted then [BlockStop(0)] else []) + Terminal("end_turn", c)
    else []
  }

  function MergeUsage(c: Cycle, chunk: Chunk): Cycle {
    match chunk.usage
    case Some(report) => c.(usage := Merge(c.usage, report))
    case None => c
  }

  /** Text content opens the text block once and is forwarded as one delta. */
  function TextEvents(c: Cycle, content: string): (r: seq<Event>)
    ensures r == [] <==> content == ""
    ensures r != [] ==> r[|r| - 1] == TextDelta(content) && (r[0] == TextBlockStart <==> !c.textStarted)
    ensures |r| <= 2
  {
    if content == "" then [] else (if c.textStarted then [] else [TextBlockStart]) + [TextDelta(content)]
  }

  function AfterText(c: Cycle, content: string): Cycle {
    if content == "" then c else c.(textStarted := true)
  }

  /** One decoded record: usage first, then text, then tool-call deltas, then the finish signal. */
  function RecordStep(c: Cycle, chunk: Chunk, parseArgs: string -> Option<Json>): (r: Emitted)
    ensures !r.stopped
    ensures r.cycle.usage == (if chunk.usage.Some? then Merge(c.usage, chunk.usage.value) else c.usage)
    ensures r.cycle.textStarted == (c.textStarted || chunk.content != "")
    ensures r.events == TextEvents(c, chunk.content) + FinishEvents(r.cycle, chunk.finishReason, parseArgs)
  {
    var c1 := MergeUsage(c, chunk);
    var c2 := AfterText(c1, chunk.content);
    var c3 := AbsorbAll(c2, chunk.toolCalls);
    Emitted(c3, TextEvents(c1, chunk.content) + FinishEvents(c3, chunk.finishReason, parseArgs), false)
  }

  /** One line: non-data lines and undecodable payloads change nothing; `[DONE]`
      always emits the end_turn terminal pair and ends the batch. */
  function LineStep(c: Cycle, line: string, decode: string -> Option<Chunk>, parseArgs: string -> Option<Json>): (r: Emitted)
    ensures !Classify(line).Payload? ==> r.cycle == c
  {
    match Classify(line)
    case Skipped => Emitted(c, [], false)
    case Done => Emitted(c, Terminal("end_turn", c), true)
    case Payload(payload) =>
      match decode(payload)
      case None => Emitted(c, [], false)
      case Some(chunk) => RecordStep(c, chunk, parseArgs)
  }

  /** The lines of one read, in order, up to and including the first `[DONE]`. */
  function LinesStep(c: Cycle, lines: seq<string>, decode: string -> Option<Chunk>, parseArgs: string -> Option<Json>): Emitted
    decreases |lines|
  {
    if lines == [] then Emitted(c, [], false)
    else
      var prev := LinesStep(c, lines[..|lines| - 1], decode, parseArgs);
      if prev.stopped then prev
      else
        var next := LineStep(prev.cycle, lines[|lines| - 1], decode, parseArgs);
        Emitted(next.cycle, prev.events + next.events, next.stopped)
  }

  /** One connection: every read appended to the retained partial line, framed,
      and its complete lines processed; the last partial line is never processed. */
  datatype Connection = Connection(cycle: Cycle, buffer: string, events: seq<Event>)

  function Reads(chunks: seq<string>, decode: string -> Option<Chunk>, parseArgs: string -> Option<Json>): (r: Connection)
    ensures '\n' !in r.buffer
    // Events once written are never taken back.
    ensures chunks != [] ==> Reads(chunks[..|chunks| - 1], decode, parseArgs).events <= r.events
    decreases |chunks|
  {
    if chunks == [] then Connection(Initial, "", [])
    else
      var prev := Reads(chunks[..|chunks| - 1], decode, parseArgs);
      var framed := Frame(prev.buffer + chunks[|chunks| - 1]);
      var e := LinesStep(prev.cycle, framed.lines, decode, parseArgs);
      Connection(e.cycle, framed.rest, prev.events + e.events)
  }

  /** An entry that the `tool_calls` finish turns into a tool_use block. */
  ghost predicate Closes(e: ToolEntry, parseArgs: string -> Option<Json>) {
    e.arguments != "" && StreamReady(e.scan) && parseArgs(e.arguments).Some?
  }

  function CountTextStarts(evs: seq<Event>): nat
    decreases |evs|
  {
    if evs == [] then 0
    else CountTextStarts(evs[..|evs| - 1]) + (if evs[|evs| - 1].TextBlockStart? then 1 else 0)
  }

  /** Every text delta of `evs` comes after a text block start, counting
      `prior` starts before `evs`. */
  predicate DeltasAfterStart(prior: nat, evs: seq<Event>)
    decreases |evs|
  {
    evs == [] ||
    (&& DeltasAfterStart(prior, evs[..|evs| - 1])
     && (evs[|evs| - 1].TextDelta? ==> prior + CountTextStarts(evs[..|evs| - 1]) > 0))
  }

  /** The index-0 text block is started at most once, exactly when `started`
      says so, and before any text delta. */
  predicate TextDiscipline(evs: seq<Event>, started: bool) {
    CountTextStarts(evs) == (if started then 1 else 0) && DeltasAfterStart(0, evs)
  }
}
