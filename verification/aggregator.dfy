/**
 * The non-streaming path as the gateway runs it: one object per backend call
 * that collects the text, the tool-call map (keys in insertion order), the
 * last finish reason and the usage counters as reads arrive, and builds the
 * response message at the end. Every method is proved to follow the
 * functions of AggregateSpec.
 */
module ResponseAggregator {
  import opened Wrappers
  import opened Json
  import opened Text
  import opened JsonScan
  import opened Usage
  import opened Records
  import opened AggregateSpec
  import opened AggregateProperties

  class Aggregator {
    /** JSON.parse of one record's payload; `None` when it throws. */
    const decode: string -> Option<Chunk>
    /** JSON.parse of accumulated tool-call arguments; `None` when it throws. */
    const parseArgs: string -> Option<Json>

    var buffer: string
    var text: string
    var order: seq<int>
    var entries: map<int, AggEntry>
    var finishReason: Option<string>
    var usage: Usage

    ghost function State(): Collected
      reads this
    {
      Collected(text, order, entries, finishReason, usage)
    }

    /** The retained buffer is one partial line and the tool-call map is consistent. */
    ghost predicate Valid()
      reads this
    {
      '\n' !in buffer && WellFormed(State())
    }

    constructor(decode: string -> Option<Chunk>, parseArgs: string -> Option<Json>)
      ensures this.decode == decode && this.parseArgs == parseArgs
      ensures buffer == "" && State() == Empty
      ensures Valid()
    {
      this.decode := decode;
      this.parseArgs := parseArgs;
      buffer := "";
      text := "";
      order := [];
      entries := map[];
      finishReason := None;
      usage := Zero;
    }

    /** One read from the backend: append it to the buffer, keep the last
        partial line, and collect every complete line in order. */
    method Feed(chunk: string)
      requires Valid()
      modifies this
      ensures Valid()
      ensures var framed := Frame(old(buffer) + chunk);
              buffer == framed.rest && State() == LinesStep(old(State()), framed.lines, decode)
    {
      var framed := Frame(buffer + chunk);
      var lines := framed.lines;
      buffer := framed.rest;
      ghost var c0 := State();
      var i := 0;
      while i < |lines|
        invariant 0 <= i <= |lines|
        invariant buffer == framed.rest
        invariant State() == LinesStep(c0, lines[..i], decode)
      {
        HandleLine(lines[i]);
        assert lines[..i + 1][..i] == lines[..i];
        i := i + 1;
      }
      assert lines[..i] == lines;
      LinesKeepWellFormed(c0, lines, decode);
    }

    /** One line: only `data: ` lines count, `[DONE]` is skipped, an
        undecodable payload is dropped. */
    method HandleLine(line: string)
      modifies this
      ensures State() == LineStep(old(State()), line, decode) && buffer == old(buffer)
    {
      if !StartsWith(line, DataPrefix) {
        return;
      }
      var payload := line[|DataPrefix|..];
      if Trim(payload) == DoneSentinel {
        return;
      }
      match decode(payload)
      case None =>
      case Some(record) =>
        HandleRecord(record);
    }

    /** One decoded record: usage, text, tool-call deltas, finish reason. */
    method HandleRecord(record: Chunk)
      modifies this
      ensures State() == RecordStep(old(State()), record) && buffer == old(buffer)
    {
      if record.usage.Some? {
        usage := Merge(usage, record.usage.value);
      }
      text := text + record.content;
      AccumulateAll(record.toolCalls);
      if record.finishReason != "" {
        finishReason := Some(record.finishReason);
      }
    }

    /** Every tool-call delta of one record, in order. */
    method AccumulateAll(tcs: seq<ToolCallDelta>)
      modifies this
      ensures State() == AbsorbAll(old(State()), tcs) && buffer == old(buffer)
    {
      ghost var c0 := State();
      var j := 0;
      while j < |tcs|
        invariant 0 <= j <= |tcs|
        invariant State() == AbsorbAll(c0, tcs[..j]) && buffer == old(buffer)
      {
        AccumulateToolCall(tcs[j]);
        assert tcs[..j + 1][..j] == tcs[..j];
        j := j + 1;
      }
      assert tcs[..j] == tcs;
    }

    /** One tool-call delta: create the entry on first sighting, let a
        non-empty id or name overwrite, append the arguments slice. */
    method AccumulateToolCall(tc: ToolCallDelta)
      modifies this
      ensures State() == AbsorbToolCall(old(State()), tc) && buffer == old(buffer)
    {
      ghost var expected := AbsorbToolCall(State(), tc);
      if tc.index !in entries {
        entries := entries[tc.index := NewEntry];
        order := order + [tc.index];
      }
      var acc := entries[tc.index];
      if tc.id != "" {
        acc := acc.(id := Some(tc.id));
      }
      if tc.name != "" {
        acc := acc.(name := Some(tc.name));
      }
      acc := acc.(arguments := acc.arguments + tc.arguments);
      entries := entries[tc.index := acc];
      assert entries == expected.entries;
    }

    /** The response message: the text block if any text was collected, then
        one tool_use block per entry with arguments in insertion order, whose
        input is the decoded arguments when they pass `isCompleteJsonString`
        and decode, the raw string otherwise. */
    method Respond(model: string) returns (resp: Response)
      ensures resp == BuildResponse(State(), model, parseArgs)
    {
      ghost var c := State();
      var content: seq<ContentBlock> := if text != "" then [TextContent(text)] else [];
      ghost var head := content;
      var k := 0;
      while k < |order|
        invariant 0 <= k <= |order|
        invariant content == head + ToolBlocks(c, order[..k], parseArgs)
      {
        var idx := order[k];
        var acc := if idx in entries then entries[idx] else NewEntry;
        ToolBlocksSnoc(c, order, k, parseArgs);
        if acc.arguments != "" {
          var input := DecodeInput(acc.arguments, parseArgs);
          BlocksAssociate(head, ToolBlocks(c, order[..k], parseArgs), [ToolUseContent(acc.id, acc.name, input)]);
          content := content + [ToolUseContent(acc.id, acc.name, input)];
        }
        k := k + 1;
      }
      assert order[..k] == order;
      resp := Response(content, model, StopReason(finishReason), usage.prompt, usage.completion);
    }
  }

  /** The input of one tool_use block: the one-shot completeness check, then
      the decode, falling back to the raw arguments string. */
  method DecodeInput(arguments: string, parseArgs: string -> Option<Json>) returns (input: Json)
    ensures input == ToolInput(arguments, parseArgs)
  {
    var complete := IsCompleteJsonString(arguments);
    input := JString(arguments);
    if complete {
      var parsed := parseArgs(arguments);
      if parsed.Some? {
        input := parsed.value;
      }
    }
  }

  lemma ToolBlocksSnoc(c: Collected, order: seq<int>, k: nat, parseArgs: string -> Option<Json>)
    requires k < |order|
    ensures var e := EntryOf(c, order[k]);
            ToolBlocks(c, order[..k + 1], parseArgs)
              == ToolBlocks(c, order[..k], parseArgs) + (if e.arguments != "" then [ToolBlock(e, parseArgs)] else [])
  {
    assert order[..k + 1][..k] == order[..k];
  }

  /** Stated apart so that the loop gets the regrouping as a fact. */
  lemma BlocksAssociate(a: seq<ContentBlock>, b: seq<ContentBlock>, x: seq<ContentBlock>)
    ensures a + b + x == a + (b + x)
  {
  }

  /** A whole non-streamed response: one aggregator fed every read in order,
      then asked for the response. */
  method AggregateStream(chunks: seq<string>, model: string,
                         decode: string -> Option<Chunk>, parseArgs: string -> Option<Json>)
    returns (resp: Response)
    ensures resp == BuildResponse(Reads(chunks, decode).collected, model, parseArgs)
  {
    var a := new Aggregator(decode, parseArgs);
    var i := 0;
    while i < |chunks|
      invariant 0 <= i <= |chunks|
      invariant a.decode == decode && a.parseArgs == parseArgs && a.Valid()
      invariant var r := Reads(chunks[..i], decode);
                a.buffer == r.buffer && a.State() == r.collected
      modifies a
    {
      a.Feed(chunks[i]);
      assert chunks[..i + 1][..i] == chunks[..i];
      i := i + 1;
    }
    assert chunks[..i] == chunks;
    resp := a.Respond(model);
  }
}
