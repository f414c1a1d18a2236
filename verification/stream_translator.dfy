/**
 * The streaming translator as the gateway runs it: one object per backend
 * call that holds the retained partial line, the text-block flag, the
 * tool-call accumulator (keys in insertion order) and the usage counters,
 * and appends client events as each read arrives. Every method is proved to
 * follow the functions of StreamSpec, so the properties proved about those
 * functions in StreamProperties hold of the events it writes.
 */
module StreamTranslator {
  import opened Wrappers
  import opened Json
  import opened Text
  import opened JsonScan
  import opened Usage
  import opened Records
  import opened StreamSpec
  import opened StreamProperties

  class Translator {
    /** JSON.parse of one record's payload; `None` when it throws. */
    const decode: string -> Option<Chunk>
    /** JSON.parse of accumulated tool-call arguments; `None` when it throws. */
    const parseArgs: string -> Option<Json>

    var buffer: string
    var textStarted: bool
    var order: seq<int>
    var entries: map<int, ToolEntry>
    var usage: Usage
    /** Every event written to the client so far, in order. */
    var events: seq<Event>

    ghost function State(): Cycle
      reads this
    {
      Cycle(textStarted, order, entries, usage)
    }

    /** The retained buffer is one partial line, the accumulator is consistent,
        and the text block has been opened at most once, before any delta. */
    ghost predicate Valid()
      reads this
    {
      && '\n' !in buffer
      && WellFormed(State())
      && TextDiscipline(events, textStarted)
    }

    constructor(decode: string -> Option<Chunk>, parseArgs: string -> Option<Json>)
      ensures this.decode == decode && this.parseArgs == parseArgs
      ensures buffer == "" && State() == Initial && events == []
      ensures Valid()
    {
      this.decode := decode;
      this.parseArgs := parseArgs;
      buffer := "";
      textStarted := false;
      order := [];
      entries := map[];
      usage := Zero;
      events := [];
      new;
      assert TextDiscipline([], false);
    }

    /** One read from the backend: append it to the buffer, keep the last
        partial line, and handle the complete lines in order until `[DONE]`. */
    method Feed(chunk: string)
      requires Valid()
      modifies this
      ensures Valid()
      ensures var framed := Frame(old(buffer) + chunk);
              var e := LinesStep(old(State()), framed.lines, decode, parseArgs);
              && buffer == framed.rest
              && State() == e.cycle
              && events == old(events) + e.events
    {
      var framed := Frame(buffer + chunk);
      var lines := framed.lines;
      buffer := framed.rest;
      ghost var c0 := State();
      ghost var ev0 := events;
      var i := 0;
      while i < |lines|
        invariant 0 <= i <= |lines|
        invariant buffer == framed.rest
        invariant var e := LinesStep(c0, lines[..i], decode, parseArgs);
                  State() == e.cycle && events == ev0 + e.events && !e.stopped
      {
        ghost var prev := LinesStep(c0, lines[..i], decode, parseArgs);
        var stop := HandleLine(lines[i]);
        EventsAssociate(ev0, prev.events, LineStep(prev.cycle, lines[i], decode, parseArgs).events);
        LinesStepSnoc(c0, lines, i, decode, parseArgs);
        i := i + 1;
        if stop {
          LinesAfterDoneDropped(c0, lines, i, decode, parseArgs);
          break;
        }
      }
      if i == |lines| {
        assert lines[..i] == lines;
      }
      LinesKeepInvariants(c0, ev0, lines, decode, parseArgs);
    }

    /** One line: only `data: ` lines count; `[DONE]` writes the end_turn
        terminal pair and ends the batch; an undecodable payload is dropped. */
    method HandleLine(line: string) returns (stop: bool)
      modifies this
      ensures var e := LineStep(old(State()), line, decode, parseArgs);
              State() == e.cycle && events == old(events) + e.events && stop == e.stopped
      ensures buffer == old(buffer)
    {
      ghost var c := State();
      if !StartsWith(line, DataPrefix) {
        NonDataLineIgnored(c, line, decode, parseArgs);
        return false;
      }
      var payload := line[|DataPrefix|..];
      if Trim(payload) == DoneSentinel {
        DoneAlwaysTerminates(c, line, decode, parseArgs);
        events := events + [MessageDelta("end_turn", usage.completion), MessageStop];
        return true;
      }
      match decode(payload)
      case None =>
        UndecodablePayloadIgnored(c, line, decode, parseArgs);
        return false;
      case Some(record) =>
        PayloadLine(c, line, payload, record, decode, parseArgs);
        HandleRecord(record);
        return false;
    }

    /** One decoded record: usage, then text, then tool-call deltas, then the finish signal. */
    method HandleRecord(record: Chunk)
      modifies this
      ensures var e := RecordStep(old(State()), record, parseArgs);
              State() == e.cycle && events == old(events) + e.events
      ensures buffer == old(buffer)
    {
      ghost var ev0 := events;
      if record.usage.Some? {
        usage := Merge(usage, record.usage.value);
      }
      ghost var c1 := State();
      WriteText(record.content);
      AccumulateAll(record.toolCalls);
      Finish(record.finishReason);
      assert ev0 + TextEvents(c1, record.content) + FinishEvents(State(), record.finishReason, parseArgs) == ev0 + (TextEvents(c1, record.content) + FinishEvents(State(), record.finishReason, parseArgs));
    }

    /** Text content opens the index-0 text block on first sight and is forwarded as one delta. */
    method WriteText(content: string)
      modifies this
      ensures State() == AfterText(old(State()), content) && buffer == old(buffer)
      ensures events == old(events) + TextEvents(old(State()), content)
    {
      if content != "" {
        if !textStarted {
          events := events + [TextBlockStart];
          textStarted := true;
        }
        events := events + [TextDelta(content)];
      }
    }

    /** Every tool-call delta of one record, in order. */
    method AccumulateAll(tcs: seq<ToolCallDelta>)
      modifies this
      ensures State() == AbsorbAll(old(State()), tcs)
      ensures events == old(events) && buffer == old(buffer)
    {
      ghost var c0 := State();
      var j := 0;
      while j < |tcs|
        invariant 0 <= j <= |tcs|
        invariant State() == AbsorbAll(c0, tcs[..j])
        invariant events == old(events) && buffer == old(buffer)
      {
        AccumulateToolCall(tcs[j]);
        assert tcs[..j + 1][..j] == tcs[..j];
        j := j + 1;
      }
      assert tcs[..j] == tcs;
    }

    /** The finish signal of one record: `tool_calls` writes the complete tool
        calls and the tool_use terminal pair, `stop` closes the text block if
        open and writes the end_turn terminal pair, anything else writes nothing. */
    method Finish(reason: string)
      modifies this
      ensures State() == old(State()) && buffer == old(buffer)
      ensures events == old(events) + FinishEvents(State(), reason, parseArgs)
    {
      if reason == "tool_calls" {
        EmitToolUses();
        events := events + [MessageDelta("tool_use", usage.completion), MessageStop];
      } else if reason == "stop" {
        if textStarted {
          events := events + [BlockStop(0)];
        }
        events := events + [MessageDelta("end_turn", usage.completion), MessageStop];
      }
    }

    /** Walk the accumulator in insertion order and write a start/stop pair for
        every entry whose arguments are non-empty, balanced and decodable. */
    method EmitToolUses()
      modifies this
      ensures State() == old(State()) && buffer == old(buffer)
      ensures events == old(events) + ToolUseEvents(State(), order, parseArgs)
    {
      var k := 0;
      while k < |order|
        invariant 0 <= k <= |order|
        invariant State() == old(State()) && buffer == old(buffer)
        invariant events == old(events) + ToolUseEvents(State(), order[..k], parseArgs)
      {
        var idx := order[k];
        var acc := if idx in entries then entries[idx] else NewEntry;
        assert acc == EntryOf(State(), idx);
        if acc.arguments != "" && acc.scan.depth == 0 && !acc.scan.inString {
          var input := parseArgs(acc.arguments);
          if input.Some? {
            events := events + [ToolUseBlockStart(idx, acc.id, acc.name, input.value), BlockStop(idx)];
          }
        }
        assert order[..k + 1][..k] == order[..k];
        k := k + 1;
      }
      assert order[..k] == order;
    }

    /** One tool-call delta: create the entry on first sighting, let a non-empty
        id or name overwrite, append the arguments slice and advance the
        entry's scanner over that slice only. */
    method AccumulateToolCall(tc: ToolCallDelta)
      modifies this
      ensures State() == AbsorbToolCall(old(State()), tc)
      ensures events == old(events) && buffer == old(buffer)
    {
      ghost var c0 := State();
      ghost var expected := AbsorbToolCall(c0, tc);
      ghost var before := EntryOf(c0, tc.index);
      if tc.index !in entries {
        entries := entries[tc.index := NewEntry];
        order := order + [tc.index];
      }
      var acc := entries[tc.index];
      assert acc == before;
      acc := ExtendEntry(acc, tc);
      assert acc == expected.entries[tc.index];
      entries := entries[tc.index := acc];
      assert order == expected.order;
      assert entries == expected.entries;
    }
  }

  /** One delta applied to its entry: a non-empty id or name overwrites, a
      non-empty slice is appended and scanned from the stored state. */
  method ExtendEntry(acc: ToolEntry, tc: ToolCallDelta) returns (next: ToolEntry)
    ensures next.id == (if tc.id != "" then Some(tc.id) else acc.id)
    ensures next.name == (if tc.name != "" then Some(tc.name) else acc.name)
    ensures next.arguments == acc.arguments + tc.arguments
    ensures next.scan == ScanFrom(acc.scan, tc.arguments)
  {
    next := acc;
    if tc.id != "" {
      next := next.(id := Some(tc.id));
    }
    if tc.name != "" {
      next := next.(name := Some(tc.name));
    }
    if tc.arguments != "" {
      next := next.(arguments := next.arguments + tc.arguments);
      var scan := ScanSlice(next.scan, tc.arguments);
      next := next.(scan := scan);
    } else {
      assert acc.arguments + tc.arguments == acc.arguments;
    }
  }

  /** The incremental scan of one arguments slice, resumed from the entry's
      stored state; unlike the one-shot check it never stops early. */
  method ScanSlice(from: ScanState, args: string) returns (r: ScanState)
    ensures r == ScanFrom(from, args)
  {
    var braceCount, inString, escapeNext := from.depth, from.inString, from.escapeNext;
    var i := 0;
    while i < |args|
      invariant 0 <= i <= |args|
      invariant ScanState(braceCount, inString, escapeNext) == ScanFrom(from, args[..i])
    {
      ScanSnoc(from, args, i);
      braceCount, inString, escapeNext := ScanChar(braceCount, inString, escapeNext, args[i]);
      i := i + 1;
    }
    assert args[..i] == args;
    r := ScanState(braceCount, inString, escapeNext);
  }

  /** A whole streamed response: one translator fed every read in order.
      The events written are those of the specification, and so they keep the
      text discipline. */
  method TranslateStream(chunks: seq<string>, decode: string -> Option<Chunk>, parseArgs: string -> Option<Json>)
    returns (events: seq<Event>)
    ensures events == Reads(chunks, decode, parseArgs).events
    ensures TextDiscipline(events, Reads(chunks, decode, parseArgs).cycle.textStarted)
  {
    var t := new Translator(decode, parseArgs);
    var i := 0;
    while i < |chunks|
      invariant 0 <= i <= |chunks|
      invariant t.decode == decode && t.parseArgs == parseArgs && t.Valid()
      invariant var conn := Reads(chunks[..i], decode, parseArgs);
                t.buffer == conn.buffer && t.State() == conn.cycle && t.events == conn.events
      modifies t
    {
      t.Feed(chunks[i]);
      assert chunks[..i + 1][..i] == chunks[..i];
      i := i + 1;
    }
    assert chunks[..i] == chunks;
    events := t.events;
  }
}
