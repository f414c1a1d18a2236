/**
 * What the non-streaming path guarantees, proved about the functions of
 * AggregateSpec: the collected text, finish reason and usage are those of the
 * decoded records in order, `[DONE]` lines change nothing, the tool-call map
 * stays consistent, and the response lists the text block first and then one
 * tool_use block per entry with arguments, in first-seen order.
 */
module AggregateProperties {
  import opened Wrappers
  import opened Json
  import opened Text
  import opened JsonScan
  import opened Usage
  import opened Records
  import opened AggregateSpec

  // ---- The records a batch of lines contributes ----

  /** The record a line contributes: the decoded payload of a `data: ` line
      that is not `[DONE]`, nothing otherwise. */
  function LineRecord(line: string, decode: string -> Option<Chunk>): seq<Chunk> {
    match Classify(line)
    case Payload(payload) => (match decode(payload) case Some(chunk) => [chunk] case None => [])
    case _ => []
  }

  function Decoded(lines: seq<string>, decode: string -> Option<Chunk>): seq<Chunk>
    decreases |lines|
  {
    if lines == [] then [] else Decoded(lines[..|lines| - 1], decode) + LineRecord(lines[|lines| - 1], decode)
  }

  /** The records' contents, concatenated in order. */
  function ConcatContents(rs: seq<Chunk>): string
    decreases |rs|
  {
    if rs == [] then "" else ConcatContents(rs[..|rs| - 1]) + rs[|rs| - 1].content
  }

  /** The last non-empty finish reason among the records. */
  function LastFinish(rs: seq<Chunk>): Option<string>
    decreases |rs|
  {
    if rs == [] then None
    else if rs[|rs| - 1].finishReason != "" then Some(rs[|rs| - 1].finishReason)
    else LastFinish(rs[..|rs| - 1])
  }

  /** The usage objects the records carry, in order. */
  function Reports(rs: seq<Chunk>): seq<UsageReport>
    decreases |rs|
  {
    if rs == [] then []
    else Reports(rs[..|rs| - 1]) + (if rs[|rs| - 1].usage.Some? then [rs[|rs| - 1].usage.value] else [])
  }

  /** The text, finish reason and usage of `r` follow from those of `c` and the records `rs`. */
  ghost predicate CollectedFrom(c: Collected, rs: seq<Chunk>, r: Collected) {
    && r.text == c.text + ConcatContents(rs)
    && r.finishReason == LastFinish(rs).OrElse(c.finishReason)
    && r.usage == MergeAll(c.usage, Reports(rs))
  }

  /** Over any batch of lines, the collected text is the old text followed by
      every decoded record's content in order, the finish reason is the last
      non-empty one (or the old one), and the usage counters are the old ones
      with every reported usage merged in order. */
  lemma {:induction false} LinesCollectInOrder(c: Collected, lines: seq<string>, decode: string -> Option<Chunk>)
    ensures CollectedFrom(c, Decoded(lines, decode), LinesStep(c, lines, decode))
    decreases |lines|
  {
    if lines == [] {
      assert c.text + "" == c.text;
    } else {
      var init := lines[..|lines| - 1];
      LinesCollectInOrder(c, init, decode);
      NextLineCollected(c, Decoded(init, decode), LinesStep(c, init, decode), lines[|lines| - 1], decode);
    }
  }

  lemma NextLineCollected(c: Collected, before: seq<Chunk>, prev: Collected, line: string, decode: string -> Option<Chunk>)
    requires CollectedFrom(c, before, prev)
    ensures CollectedFrom(c, before + LineRecord(line, decode), LineStep(prev, line, decode))
  {
    var extra := LineRecord(line, decode);
    if extra == [] {
      assert before + extra == before;
    } else {
      var chunk := extra[0];
      assert LineStep(prev, line, decode) == RecordStep(prev, chunk);
      NextRecordCollected(c, before, prev, chunk);
    }
  }

  lemma NextRecordCollected(c: Collected, before: seq<Chunk>, prev: Collected, chunk: Chunk)
    requires CollectedFrom(c, before, prev)
    ensures CollectedFrom(c, before + [chunk], RecordStep(prev, chunk))
  {
    assert (before + [chunk])[..|before + [chunk]| - 1] == before && (before + [chunk])[|before + [chunk]| - 1] == chunk;
    assert ConcatContents(before + [chunk]) == ConcatContents(before) + chunk.content;
    assert c.text + ConcatContents(before) + chunk.content == c.text + (ConcatContents(before) + chunk.content);
    var reports := Reports(before);
    if chunk.usage.Some? {
      var more := reports + [chunk.usage.value];
      assert more[..|more| - 1] == reports && more[|more| - 1] == chunk.usage.value;
      assert Reports(before + [chunk]) == reports + [chunk.usage.value];
    } else {
      assert Reports(before + [chunk]) == reports;
    }
  }

  /** A `[DONE]` line leaves the collected state as it was. */
  lemma DoneLineSkipped(c: Collected, line: string, decode: string -> Option<Chunk>)
    requires Classify(line).Done?
    ensures LineStep(c, line, decode) == c
    ensures LineRecord(line, decode) == []
  {
  }

  lemma {:induction false} LinesStepAppend(c: Collected, a: seq<string>, b: seq<string>, decode: string -> Option<Chunk>)
    ensures LinesStep(c, a + b, decode) == LinesStep(LinesStep(c, a, decode), b, decode)
    decreases |b|
  {
    if b == [] {
      assert a + b == a;
    } else {
      assert (a + b)[..|a + b| - 1] == a + b[..|b| - 1];
      LinesStepAppend(c, a, b[..|b| - 1], decode);
    }
  }

  /** Unlike the streaming path, a `[DONE]` line does not end the batch:
      the lines after it are collected as if it were not there. */
  lemma DoneLineIsTransparent(c: Collected, a: seq<string>, done: string, b: seq<string>, decode: string -> Option<Chunk>)
    requires Classify(done).Done?
    ensures LinesStep(c, a + [done] + b, decode) == LinesStep(c, a + b, decode)
  {
    LinesStepAppend(c, a + [done], b, decode);
    LinesStepAppend(c, a, b, decode);
    assert (a + [done])[..|a + [done]| - 1] == a && (a + [done])[|a + [done]| - 1] == done;
  }

  // ---- The tool-call map ----

  lemma AbsorbKeepsWellFormed(c: Collected, tc: ToolCallDelta)
    requires WellFormed(c)
    ensures WellFormed(AbsorbToolCall(c, tc))
  {
    var r := AbsorbToolCall(c, tc);
    if tc.index !in c.entries {
      assert tc.index !in c.order;
      forall i, j | 0 <= i < j < |r.order| ensures r.order[i] != r.order[j] {
        if j == |c.order| {
          assert r.order[i] == c.order[i];
        }
      }
    }
  }

  lemma {:induction false} AbsorbAllKeepsWellFormed(c: Collected, tcs: seq<ToolCallDelta>)
    requires WellFormed(c)
    ensures WellFormed(AbsorbAll(c, tcs))
    decreases |tcs|
  {
    if tcs != [] {
      AbsorbAllKeepsWellFormed(c, tcs[..|tcs| - 1]);
      AbsorbKeepsWellFormed(AbsorbAll(c, tcs[..|tcs| - 1]), tcs[|tcs| - 1]);
    }
  }

  /** Entries are never dropped, and an entry keeps its place in the order. */
  lemma {:induction false} AbsorbAllOnlyGrows(c: Collected, tcs: seq<ToolCallDelta>)
    ensures var r := AbsorbAll(c, tcs);
            && |c.order| <= |r.order| && r.order[..|c.order|] == c.order
            && c.entries.Keys <= r.entries.Keys
            && forall k :: k in c.entries ==> |c.entries[k].arguments| <= |r.entries[k].arguments|
    decreases |tcs|
  {
    if tcs != [] {
      var prev := AbsorbAll(c, tcs[..|tcs| - 1]);
      AbsorbAllOnlyGrows(c, tcs[..|tcs| - 1]);
      var r := AbsorbAll(c, tcs);
      assert r.order[..|prev.order|] == prev.order;
      assert r.order[..|c.order|] == prev.order[..|c.order|];
    }
  }

  lemma RecordKeepsWellFormed(c: Collected, chunk: Chunk)
    requires WellFormed(c)
    ensures WellFormed(RecordStep(c, chunk))
  {
    var c1 := if chunk.usage.Some? then c.(usage := Merge(c.usage, chunk.usage.value)) else c;
    AbsorbAllKeepsWellFormed(c1.(text := c1.text + chunk.content), chunk.toolCalls);
  }

  lemma {:induction false} LinesKeepWellFormed(c: Collected, lines: seq<string>, decode: string -> Option<Chunk>)
    requires WellFormed(c)
    ensures WellFormed(LinesStep(c, lines, decode))
    decreases |lines|
  {
    if lines != [] {
      LinesKeepWellFormed(c, lines[..|lines| - 1], decode);
      LineKeepsWellFormed(LinesStep(c, lines[..|lines| - 1], decode), lines[|lines| - 1], decode);
    }
  }

  lemma LineKeepsWellFormed(c: Collected, line: string, decode: string -> Option<Chunk>)
    requires WellFormed(c)
    ensures WellFormed(LineStep(c, line, decode))
  {
    match Classify(line)
    case Skipped =>
    case Done =>
    case Payload(payload) =>
      match decode(payload)
      case None =>
      case Some(chunk) =>
        RecordKeepsWellFormed(c, chunk);
  }

  /** After any reads, the retained buffer is one partial line and the map is consistent. */
  lemma {:induction false} ReadsKeepInvariants(chunks: seq<string>, decode: string -> Option<Chunk>)
    ensures var r := Reads(chunks, decode);
            '\n' !in r.buffer && WellFormed(r.collected)
    decreases |chunks|
  {
    if chunks != [] {
      var prev := Reads(chunks[..|chunks| - 1], decode);
      ReadsKeepInvariants(chunks[..|chunks| - 1], decode);
      LinesKeepWellFormed(prev.collected, Frame(prev.buffer + chunks[|chunks| - 1]).lines, decode);
    }
  }

  // ---- The response ----

  /** The keys of `order` whose entries have non-empty arguments, in order. */
  function WithArguments(c: Collected, order: seq<int>): (r: seq<int>)
    ensures forall i :: i in r <==> i in order && EntryOf(c, i).arguments != ""
    ensures |order| == 1 ==> r == (if EntryOf(c, order[0]).arguments != "" then order else [])
    decreases |order|
  {
    if order == [] then []
    else
      var last := order[|order| - 1];
      WithArguments(c, order[..|order| - 1]) + (if EntryOf(c, last).arguments != "" then [last] else [])
  }

  lemma KeysAssociate(x: seq<int>, y: seq<int>, z: seq<int>)
    ensures x + y + z == x + (y + z)
  {
  }

  /** Keeping the keys with arguments commutes with concatenation; with the
      one-key case this makes the kept keys a subsequence of the order. */
  lemma {:induction false} WithArgumentsAppend(c: Collected, a: seq<int>, b: seq<int>)
    ensures WithArguments(c, a + b) == WithArguments(c, a) + WithArguments(c, b)
    decreases |b|
  {
    if b == [] {
      assert a + b == a;
    } else {
      var init := b[..|b| - 1];
      var last := b[|b| - 1];
      assert (a + b)[..|a + b| - 1] == a + init;
      assert (a + b)[|a + b| - 1] == last;
      WithArgumentsAppend(c, a, init);
      var tail := if EntryOf(c, last).arguments != "" then [last] else [];
      assert WithArguments(c, a + b) == WithArguments(c, a) + WithArguments(c, init) + tail;
      assert WithArguments(c, b) == WithArguments(c, init) + tail;
      KeysAssociate(WithArguments(c, a), WithArguments(c, init), tail);
    }
  }

  /** The tool_use blocks are exactly one block per entry with arguments, in
      the order the entries were first seen. */
  lemma {:induction false} ToolBlocksFollowOrder(c: Collected, order: seq<int>, parseArgs: string -> Option<Json>)
    ensures var blocks := ToolBlocks(c, order, parseArgs);
            var keys := WithArguments(c, order);
            && |blocks| == |keys|
            && forall k :: 0 <= k < |keys| ==> blocks[k] == ToolBlock(EntryOf(c, keys[k]), parseArgs)
    decreases |order|
  {
    if order != [] {
      ToolBlocksFollowOrder(c, order[..|order| - 1], parseArgs);
    }
  }

  /** The response: the text block first exactly when text was collected,
      then the tool_use blocks in first-seen order, one per entry with
      arguments; the stop reason mapped from the last finish reason, and the
      prompt and completion counters as input and output tokens. */
  lemma ResponseShape(c: Collected, model: string, parseArgs: string -> Option<Json>)
    ensures var r := BuildResponse(c, model, parseArgs);
            var keys := WithArguments(c, c.order);
            var offset := if c.text != "" then 1 else 0;
            && (c.text != "" ==> r.content[0] == TextContent(c.text))
            && |r.content| == offset + |keys|
            && (forall k :: offset <= k < |r.content| ==> r.content[k].ToolUseContent?)
            && (forall k :: 0 <= k < |keys| ==> r.content[offset + k] == ToolBlock(EntryOf(c, keys[k]), parseArgs))
            && r.model == model
            && r.stopReason == StopReason(c.finishReason)
            && r.inputTokens == c.usage.prompt && r.outputTokens == c.usage.completion
  {
    var r := BuildResponse(c, model, parseArgs);
    var head: seq<ContentBlock> := if c.text != "" then [TextContent(c.text)] else [];
    var blocks := ToolBlocks(c, c.order, parseArgs);
    var keys := WithArguments(c, c.order);
    ToolBlocksFollowOrder(c, c.order, parseArgs);
    assert r.content == head + blocks;
    forall k | 0 <= k < |keys| ensures r.content[|head| + k] == ToolBlock(EntryOf(c, keys[k]), parseArgs) {
      assert r.content[|head| + k] == blocks[k];
    }
    forall k | |head| <= k < |r.content| ensures r.content[k].ToolUseContent? {
      assert r.content[k] == blocks[k - |head|];
    }
  }

  /** A tool call whose arguments pass the one-shot check and decode carries
      the decoded value; one that does not carries its raw arguments. */
  lemma ToolInputFallsBackToRaw(arguments: string, parseArgs: string -> Option<Json>)
    ensures ToolInput(arguments, parseArgs) == JString(arguments)
            || (IsCompleteJson(arguments) && Some(ToolInput(arguments, parseArgs)) == parseArgs(arguments))
  {
  }

  /** A response for text "Hi" and one complete tool call ending in `tool_calls`. */
  lemma CompleteToolCallResponseExample(parseArgs: string -> Option<Json>, input: Json)
    requires parseArgs("{\"a\":\"}\"}") == Some(input)
    ensures var entry := AggEntry(Some("call_1"), Some("f"), "{\"a\":\"}\"}");
            var c := Collected("Hi", [0], map[0 := entry], Some("tool_calls"), Usage(5, 3, 8));
            BuildResponse(c, "m", parseArgs)
            == Response([TextContent("Hi"), ToolUseContent(Some("call_1"), Some("f"), input)], "m", Some("tool_use"), 5, 3)
  {
    QuotedBraceExample();
    var entry := AggEntry(Some("call_1"), Some("f"), "{\"a\":\"}\"}");
    var c := Collected("Hi", [0], map[0 := entry], Some("tool_calls"), Usage(5, 3, 8));
    assert [0][..0] == [];
    assert ToolBlocks(c, [0], parseArgs) == [ToolUseContent(Some("call_1"), Some("f"), input)];
  }

  /** Arguments still open at the end are passed on as the raw string. */
  lemma IncompleteToolCallResponseExample(parseArgs: string -> Option<Json>)
    ensures var entry := AggEntry(Some("call_1"), Some("f"), "{\"a\":1,");
            var c := Collected("", [0], map[0 := entry], None, Zero);
            BuildResponse(c, "m", parseArgs)
            == Response([ToolUseContent(Some("call_1"), Some("f"), JString("{\"a\":1,"))], "m", None, 0, 0)
  {
    OpenObjectExample();
    var entry := AggEntry(Some("call_1"), Some("f"), "{\"a\":1,");
    var c := Collected("", [0], map[0 := entry], None, Zero);
    assert [0][..0] == [];
    assert ToolBlocks(c, [0], parseArgs) == [ToolUseContent(Some("call_1"), Some("f"), JString("{\"a\":1,"))];
  }
}
