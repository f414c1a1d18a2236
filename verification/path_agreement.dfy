/**
 * How the streaming translator and the non-streaming aggregator relate when
 * both read the same backend lines: they build the same tool-call entries
 * and usage counters, the text deltas streamed add up to the text
 * collected, and both map `tool_calls` and `stop` to the same stop reason.
 * They differ on incomplete tool calls: the streaming path writes nothing
 * for them, the aggregator passes the raw arguments string on.
 */
module PathAgreement {
  import opened Wrappers
  import opened Json
  import opened JsonScan
  import opened Records
  import S = StreamSpec
  import A = AggregateSpec
  import SP = StreamProperties

  predicate SameEntry(e: S.ToolEntry, f: A.AggEntry) {
    e.id == f.id && e.name == f.name && e.arguments == f.arguments
  }

  /** The two accumulators hold the same tool calls in the same order, and the same usage. */
  ghost predicate Agree(s: S.Cycle, a: A.Collected) {
    && s.order == a.order
    && s.entries.Keys == a.entries.Keys
    && (forall k :: k in s.entries ==> SameEntry(s.entries[k], a.entries[k]))
    && s.usage == a.usage
  }

  /** The text carried by the text deltas of `evs`, in order. */
  function DeltaText(evs: seq<S.Event>): string
    decreases |evs|
  {
    if evs == [] then ""
    else DeltaText(evs[..|evs| - 1]) + (if evs[|evs| - 1].TextDelta? then evs[|evs| - 1].text else "")
  }

  lemma {:induction false} DeltaTextAppend(a: seq<S.Event>, b: seq<S.Event>)
    ensures DeltaText(a + b) == DeltaText(a) + DeltaText(b)
    decreases |b|
  {
    if b != [] {
      var last := b[|b| - 1];
      var t := if last.TextDelta? then last.text else "";
      assert (a + b)[..|a + b| - 1] == a + b[..|b| - 1];
      assert (a + b)[|a + b| - 1] == last;
      DeltaTextAppend(a, b[..|b| - 1]);
      assert DeltaText(a + b) == DeltaText(a) + DeltaText(b[..|b| - 1]) + t;
      assert DeltaText(b) == DeltaText(b[..|b| - 1]) + t;
      assert DeltaText(a) + DeltaText(b[..|b| - 1]) + t == DeltaText(a) + (DeltaText(b[..|b| - 1]) + t);
    } else {
      assert a + b == a;
    }
  }

  lemma {:induction false} NoTextMeansNoDeltaText(evs: seq<S.Event>)
    requires SP.NoTextEvents(evs)
    ensures DeltaText(evs) == ""
    decreases |evs|
  {
    if evs != [] {
      NoTextMeansNoDeltaText(evs[..|evs| - 1]);
    }
  }

  lemma InitialAgree()
    ensures Agree(S.Initial, A.Empty)
  {
  }

  lemma AbsorbAgrees(s: S.Cycle, a: A.Collected, tc: ToolCallDelta)
    requires Agree(s, a)
    ensures Agree(S.AbsorbToolCall(s, tc), A.AbsorbToolCall(a, tc))
  {
    assert SameEntry(S.EntryOf(s, tc.index), A.EntryOf(a, tc.index));
  }

  lemma {:induction false} AbsorbAllAgrees(s: S.Cycle, a: A.Collected, tcs: seq<ToolCallDelta>)
    requires Agree(s, a)
    ensures Agree(S.AbsorbAll(s, tcs), A.AbsorbAll(a, tcs))
    decreases |tcs|
  {
    if tcs != [] {
      AbsorbAllAgrees(s, a, tcs[..|tcs| - 1]);
      AbsorbAgrees(S.AbsorbAll(s, tcs[..|tcs| - 1]), A.AbsorbAll(a, tcs[..|tcs| - 1]), tcs[|tcs| - 1]);
    }
  }

  /** One record: both paths absorb it alike, and the streamed text deltas
      carry exactly the record's text. */
  lemma RecordAgrees(s: S.Cycle, a: A.Collected, chunk: Chunk, parseArgs: string -> Option<Json>)
    requires Agree(s, a)
    ensures var e := S.RecordStep(s, chunk, parseArgs);
            var r := A.RecordStep(a, chunk);
            Agree(e.cycle, r) && a.text + DeltaText(e.events) == r.text
  {
    var c1 := S.MergeUsage(s, chunk);
    var c2 := S.AfterText(c1, chunk.content);
    var a1 := if chunk.usage.Some? then a.(usage := Usage.Merge(a.usage, chunk.usage.value)) else a;
    var a2 := a1.(text := a1.text + chunk.content);
    assert Agree(c2, a2);
    AbsorbAllAgrees(c2, a2, chunk.toolCalls);
    var c3 := S.AbsorbAll(c2, chunk.toolCalls);
    var text := S.TextEvents(c1, chunk.content);
    var finish := S.FinishEvents(c3, chunk.finishReason, parseArgs);
    SP.FinishEventsHaveNoText(c3, chunk.finishReason, parseArgs);
    NoTextMeansNoDeltaText(finish);
    DeltaTextAppend(text, finish);
    TextEventsCarryContent(c1, chunk.content);
  }

  /** The text events of a record carry exactly its content as delta text. */
  lemma TextEventsCarryContent(c: S.Cycle, content: string)
    ensures DeltaText(S.TextEvents(c, content)) == content
  {
    if content != "" {
      var opening: seq<S.Event> := if c.textStarted then [] else [S.TextBlockStart];
      assert S.TextEvents(c, content) == opening + [S.TextDelta(content)];
      DeltaTextAppend(opening, [S.TextDelta(content)]);
      assert DeltaText(opening) == "";
      assert DeltaText([S.TextDelta(content)]) == DeltaText([]) + content;
    }
  }

  /** One line that is not `[DONE]`: the streaming path does not stop, and
      both paths absorb the line alike. */
  lemma LineAgrees(s: S.Cycle, a: A.Collected, line: string,
                   decode: string -> Option<Chunk>, parseArgs: string -> Option<Json>)
    requires Agree(s, a) && !Classify(line).Done?
    ensures var e := S.LineStep(s, line, decode, parseArgs);
            var r := A.LineStep(a, line, decode);
            && !e.stopped
            && Agree(e.cycle, r)
            && a.text + DeltaText(e.events) == r.text
  {
    match Classify(line)
    case Skipped =>
      assert S.LineStep(s, line, decode, parseArgs) == S.Emitted(s, [], false);
      assert A.LineStep(a, line, decode) == a;
    case Payload(payload) =>
      match decode(payload)
      case None =>
        assert S.LineStep(s, line, decode, parseArgs) == S.Emitted(s, [], false);
        assert A.LineStep(a, line, decode) == a;
      case Some(chunk) =>
        assert S.LineStep(s, line, decode, parseArgs) == S.RecordStep(s, chunk, parseArgs);
        assert A.LineStep(a, line, decode) == A.RecordStep(a, chunk);
        RecordAgrees(s, a, chunk, parseArgs);
  }

  /** A batch of lines with no `[DONE]` among them: the streaming path does
      not stop, both paths absorb the lines alike, and the streamed text
      deltas add up to the text the aggregator collects. */
  lemma {:induction false} LinesAgree(s: S.Cycle, a: A.Collected, lines: seq<string>,
                                      decode: string -> Option<Chunk>, parseArgs: string -> Option<Json>)
    requires Agree(s, a)
    requires forall i :: 0 <= i < |lines| ==> !Classify(lines[i]).Done?
    ensures var e := S.LinesStep(s, lines, decode, parseArgs);
            var r := A.LinesStep(a, lines, decode);
            && !e.stopped
            && Agree(e.cycle, r)
            && a.text + DeltaText(e.events) == r.text
    decreases |lines|
  {
    if lines != [] {
      var init := lines[..|lines| - 1];
      var line := lines[|lines| - 1];
      assert forall i :: 0 <= i < |init| ==> init[i] == lines[i];
      LinesAgree(s, a, init, decode, parseArgs);
      var prev := S.LinesStep(s, init, decode, parseArgs);
      var r := A.LinesStep(a, init, decode);
      var next := S.LineStep(prev.cycle, line, decode, parseArgs);
      LineAgrees(prev.cycle, r, line, decode, parseArgs);
      DeltaTextAppend(prev.events, next.events);
      TextAssociate(a.text, DeltaText(prev.events), DeltaText(next.events));
    }
  }

  /** Stated apart so that the induction step gets the regrouping as a fact. */
  lemma TextAssociate(x: string, y: string, z: string)
    ensures x + y + z == x + (y + z)
  {
  }

  /** `tool_calls` and `stop` end the stream with the stop reason the
      aggregator reports for them. */
  lemma StopReasonsAgree(c: S.Cycle, reason: string, parseArgs: string -> Option<Json>)
    requires reason == "tool_calls" || reason == "stop"
    ensures var stop := A.StopReason(Some(reason));
            var evs := S.FinishEvents(c, reason, parseArgs);
            && stop.Some?
            && |evs| >= 2
            && evs[|evs| - 2] == S.MessageDelta(stop.value, c.usage.completion)
            && evs[|evs| - 1] == S.MessageStop
  {
  }

  /** A tool call whose arguments are complete and decode becomes the same
      block on both paths. */
  lemma CompleteCallAgrees(s: S.Cycle, a: A.Collected, k: int, parseArgs: string -> Option<Json>)
    requires S.WellFormed(s) && Agree(s, a) && k in s.entries
    requires IsCompleteJson(a.entries[k].arguments) && parseArgs(a.entries[k].arguments).Some?
    ensures var f := a.entries[k];
            var v := parseArgs(f.arguments).value;
            && S.ClosedToolUse(k, s.entries[k], parseArgs) == [S.ToolUseBlockStart(k, f.id, f.name, v), S.BlockStop(k)]
            && A.ToolBlock(f, parseArgs) == A.ToolUseContent(f.id, f.name, v)
  {
  }

  /** A tool call whose arguments are not balanced yet: the streaming path
      writes nothing for it, the aggregator passes the raw string on. */
  lemma IncompleteCallDiverges(s: S.Cycle, a: A.Collected, k: int, parseArgs: string -> Option<Json>)
    requires S.WellFormed(s) && Agree(s, a) && k in s.entries
    requires a.entries[k].arguments != "" && !StreamReady(s.entries[k].scan)
    ensures var f := a.entries[k];
            && S.ClosedToolUse(k, s.entries[k], parseArgs) == []
            && A.ToolBlock(f, parseArgs) == A.ToolUseContent(f.id, f.name, JString(f.arguments))
  {
  }
}
