/**
 * What the streaming translator guarantees, proved about the functions of
 * StreamSpec: the tool-call entries stay consistent, the text block is opened
 * once and before its deltas, completed tool calls come as start/stop pairs
 * in first-seen order, and the fixed event sequences of the finish signals.
 */
module StreamProperties {
  import opened Wrappers
  import opened Json
  import opened Text
  import opened JsonScan
  import opened Usage
  import opened Records
  import opened StreamSpec

  // ---- Tool-call entries ----

  /** One tool-call delta keeps the entries consistent; in particular the
      incremental scan over the slices equals one pass over the arguments. */
  lemma AbsorbKeepsWellFormed(c: Cycle, tc: ToolCallDelta)
    requires WellFormed(c)
    ensures WellFormed(AbsorbToolCall(c, tc))
  {
    var r := AbsorbToolCall(c, tc);
    var before := EntryOf(c, tc.index);
    assert before.scan == ScanFrom(Start, before.arguments) by {
      if tc.index !in c.entries {
        assert before.arguments == [];
      }
    }
    ScanAppend(Start, before.arguments, tc.arguments);
    forall k | k in r.entries ensures r.entries[k].scan == ScanFrom(Start, r.entries[k].arguments) {
    }
    if tc.index !in c.entries {
      assert tc.index !in c.order;
      forall i, j | 0 <= i < j < |r.order| ensures r.order[i] != r.order[j] {
        if j == |c.order| {
          assert r.order[i] == c.order[i];
        }
      }
    }
  }

  /** A record's deltas keep the entries consistent; the aggregator's own
      accumulator has the parallel AggregateProperties.AbsorbAllKeepsWellFormed. */
  lemma {:induction false} AbsorbAllKeepsWellFormed(c: Cycle, tcs: seq<ToolCallDelta>)
    requires WellFormed(c)
    ensures WellFormed(AbsorbAll(c, tcs))
    decreases |tcs|
  {
    if tcs != [] {
      AbsorbAllKeepsWellFormed(c, tcs[..|tcs| - 1]);
      AbsorbKeepsWellFormed(AbsorbAll(c, tcs[..|tcs| - 1]), tcs[|tcs| - 1]);
    }
  }

  /** Scanning an entry's slices as they arrive gives the same scanner state as
      one pass over the concatenated arguments, for every entry of a record. */
  lemma RecordKeepsWellFormed(c: Cycle, chunk: Chunk, parseArgs: string -> Option<Json>)
    requires WellFormed(c)
    ensures WellFormed(RecordStep(c, chunk, parseArgs).cycle)
  {
    AbsorbAllKeepsWellFormed(AfterText(MergeUsage(c, chunk), chunk.content), chunk.toolCalls);
  }

  lemma LineKeepsWellFormed(c: Cycle, line: string, decode: string -> Option<Chunk>, parseArgs: string -> Option<Json>)
    requires WellFormed(c)
    ensures WellFormed(LineStep(c, line, decode, parseArgs).cycle)
  {
    match Classify(line)
    case Skipped =>
    case Done =>
    case Payload(payload) =>
      if decode(payload).Some? {
        RecordKeepsWellFormed(c, decode(payload).value, parseArgs);
      }
  }

  // ---- Text block discipline ----

  predicate NoTextEvents(evs: seq<Event>) {
    forall k :: 0 <= k < |evs| ==> !evs[k].TextBlockStart? && !evs[k].TextDelta?
  }

  lemma {:induction false} CountTextStartsAppend(a: seq<Event>, b: seq<Event>)
    ensures CountTextStarts(a + b) == CountTextStarts(a) + CountTextStarts(b)
    decreases |b|
  {
    if b == [] {
      assert a + b == a;
    } else {
      var b' := b[..|b| - 1];
      assert (a + b)[..|a + b| - 1] == a + b';
      CountTextStartsAppend(a, b');
    }
  }

  lemma {:induction false} NoTextEventsCountNothing(evs: seq<Event>)
    requires NoTextEvents(evs)
    ensures CountTextStarts(evs) == 0
    decreases |evs|
  {
    if evs != [] {
      NoTextEventsCountNothing(evs[..|evs| - 1]);
    }
  }

  lemma {:induction false} CountedStartIsPresent(evs: seq<Event>)
    requires CountTextStarts(evs) > 0
    ensures TextBlockStart in evs
    decreases |evs|
  {
    if !evs[|evs| - 1].TextBlockStart? {
      CountedStartIsPresent(evs[..|evs| - 1]);
    }
  }

  /** Read back: under the discipline the text block is started at most once,
      and every text delta has a text block start before it. */
  lemma {:induction false} DisciplineMeansStartBeforeDelta(evs: seq<Event>, started: bool)
    requires TextDiscipline(evs, started)
    ensures CountTextStarts(evs) <= 1
    ensures forall j :: 0 <= j < |evs| && evs[j].TextDelta? ==> TextBlockStart in evs[..j]
  {
    forall j | 0 <= j < |evs| && evs[j].TextDelta? ensures TextBlockStart in evs[..j] {
      assert evs == evs[..j + 1] + evs[j + 1..];
      DeltasAfterStartAppend(0, evs[..j + 1], evs[j + 1..]);
      assert evs[..j + 1][..j] == evs[..j];
      CountedStartIsPresent(evs[..j]);
    }
  }

  lemma {:induction false} ToolUseEventsHaveNoText(c: Cycle, order: seq<int>, parseArgs: string -> Option<Json>)
    ensures NoTextEvents(ToolUseEvents(c, order, parseArgs))
    decreases |order|
  {
    if order != [] {
      ToolUseEventsHaveNoText(c, order[..|order| - 1], parseArgs);
    }
  }

  lemma FinishEventsHaveNoText(c: Cycle, reason: string, parseArgs: string -> Option<Json>)
    ensures NoTextEvents(FinishEvents(c, reason, parseArgs))
  {
    ToolUseEventsHaveNoText(c, c.order, parseArgs);
  }

  lemma {:induction false} DeltasAfterStartAppend(prior: nat, a: seq<Event>, b: seq<Event>)
    ensures DeltasAfterStart(prior, a + b)
            <==> DeltasAfterStart(prior, a) && DeltasAfterStart(prior + CountTextStarts(a), b)
    decreases |b|
  {
    if b == [] {
      assert a + b == a;
    } else {
      var b' := b[..|b| - 1];
      assert (a + b)[..|a + b| - 1] == a + b';
      DeltasAfterStartAppend(prior, a, b');
      CountTextStartsAppend(a, b');
    }
  }

  lemma {:induction false} NoTextDeltasAfterStart(prior: nat, evs: seq<Event>)
    requires NoTextEvents(evs)
    ensures DeltasAfterStart(prior, evs)
    decreases |evs|
  {
    if evs != [] {
      NoTextDeltasAfterStart(prior, evs[..|evs| - 1]);
    }
  }

  /** Appending events without text keeps the discipline. */
  lemma AppendNoTextKeepsDiscipline(evs: seq<Event>, more: seq<Event>, started: bool)
    requires TextDiscipline(evs, started) && NoTextEvents(more)
    ensures TextDiscipline(evs + more, started)
  {
    CountTextStartsAppend(evs, more);
    NoTextEventsCountNothing(more);
    DeltasAfterStartAppend(0, evs, more);
    NoTextDeltasAfterStart(CountTextStarts(evs), more);
  }

  /** Text content opens the text block only if it was not open, and before its delta. */
  lemma TextKeepsDiscipline(evs: seq<Event>, c: Cycle, content: string)
    requires TextDiscipline(evs, c.textStarted)
    ensures TextDiscipline(evs + TextEvents(c, content), AfterText(c, content).textStarted)
  {
    var text := TextEvents(c, content);
    if content == "" {
      assert evs + text == evs;
    } else {
      CountTextStartsAppend(evs, text);
      DeltasAfterStartAppend(0, evs, text);
      if c.textStarted {
        assert text == [TextDelta(content)] && text[..0] == [];
      } else {
        assert text == [TextBlockStart, TextDelta(content)];
        assert text[..1] == [TextBlockStart] && text[..1][..0] == [];
        assert CountTextStarts(text[..1]) == 1;
      }
      assert DeltasAfterStart(CountTextStarts(evs), text);
    }
  }

  /** A record keeps the discipline: its text events do, and its finish events hold no text. */
  lemma RecordKeepsTextDiscipline(c: Cycle, evs: seq<Event>, chunk: Chunk, parseArgs: string -> Option<Json>)
    requires TextDiscipline(evs, c.textStarted)
    ensures var e := RecordStep(c, chunk, parseArgs);
            TextDiscipline(evs + e.events, e.cycle.textStarted)
  {
    var c1 := MergeUsage(c, chunk);
    var c2 := AfterText(c1, chunk.content);
    var c3 := AbsorbAll(c2, chunk.toolCalls);
    var text := TextEvents(c1, chunk.content);
    var finish := FinishEvents(c3, chunk.finishReason, parseArgs);
    TextKeepsDiscipline(evs, c1, chunk.content);
    FinishEventsHaveNoText(c3, chunk.finishReason, parseArgs);
    AppendNoTextKeepsDiscipline(evs + text, finish, c3.textStarted);
    assert evs + text + finish == evs + (text + finish);
  }

  /** What a line amounts to: a decoded record's step, or no change of state
      and no text events. */
  lemma LineOutcome(c: Cycle, line: string, decode: string -> Option<Chunk>, parseArgs: string -> Option<Json>)
    returns (record: Option<Chunk>)
    ensures record.Some? ==> LineStep(c, line, decode, parseArgs) == RecordStep(c, record.value, parseArgs)
    ensures record.None? ==> var e := LineStep(c, line, decode, parseArgs);
                             e.cycle == c && (e.events == [] || e.events == Terminal("end_turn", c))
  {
    var kind := Classify(line);
    if kind.Payload? {
      record := decode(kind.text);
    } else {
      record := None;
    }
  }

  lemma LineKeepsTextDiscipline(c: Cycle, evs: seq<Event>, line: string, decode: string -> Option<Chunk>, parseArgs: string -> Option<Json>)
    requires TextDiscipline(evs, c.textStarted)
    ensures var e := LineStep(c, line, decode, parseArgs);
            TextDiscipline(evs + e.events, e.cycle.textStarted)
  {
    var record := LineOutcome(c, line, decode, parseArgs);
    if record.Some? {
      RecordKeepsTextDiscipline(c, evs, record.value, parseArgs);
    } else {
      QuietStepKeepsDiscipline(c, evs, LineStep(c, line, decode, parseArgs));
    }
  }

  /** A step that keeps the cycle and writes nothing or only the end_turn pair. */
  lemma QuietStepKeepsDiscipline(c: Cycle, evs: seq<Event>, e: Emitted)
    requires TextDiscipline(evs, c.textStarted)
    requires e.cycle == c && (e.events == [] || e.events == Terminal("end_turn", c))
    ensures TextDiscipline(evs + e.events, e.cycle.textStarted)
  {
    assert NoTextEvents(e.events);
    AppendNoTextKeepsDiscipline(evs, e.events, c.textStarted);
  }

  /** Over any batch of lines, consistency of the entries and the text discipline are kept. */
  lemma {:induction false} LinesKeepInvariants(c: Cycle, evs: seq<Event>, lines: seq<string>,
                                               decode: string -> Option<Chunk>, parseArgs: string -> Option<Json>)
    requires WellFormed(c) && TextDiscipline(evs, c.textStarted)
    ensures var e := LinesStep(c, lines, decode, parseArgs);
            WellFormed(e.cycle) && TextDiscipline(evs + e.events, e.cycle.textStarted)
    decreases |lines|
  {
    if lines == [] {
      assert evs + [] == evs;
    } else {
      var prev := LinesStep(c, lines[..|lines| - 1], decode, parseArgs);
      LinesKeepInvariants(c, evs, lines[..|lines| - 1], decode, parseArgs);
      if !prev.stopped {
        NextLineKeepsInvariants(prev, evs, lines[|lines| - 1], decode, parseArgs);
      }
    }
  }

  lemma NextLineKeepsInvariants(prev: Emitted, evs: seq<Event>, line: string,
                                decode: string -> Option<Chunk>, parseArgs: string -> Option<Json>)
    requires WellFormed(prev.cycle) && TextDiscipline(evs + prev.events, prev.cycle.textStarted)
    ensures var next := LineStep(prev.cycle, line, decode, parseArgs);
            WellFormed(next.cycle) && TextDiscipline(evs + (prev.events + next.events), next.cycle.textStarted)
  {
    LineKeepsWellFormed(prev.cycle, line, decode, parseArgs);
    LineKeepsTextDiscipline(prev.cycle, evs + prev.events, line, decode, parseArgs);
    EventsAssociate(evs, prev.events, LineStep(prev.cycle, line, decode, parseArgs).events);
  }

  /** One more line of a batch that has not stopped is one more line step. */
  lemma LinesStepSnoc(c: Cycle, lines: seq<string>, i: nat, decode: string -> Option<Chunk>, parseArgs: string -> Option<Json>)
    requires i < |lines|
    ensures var prev := LinesStep(c, lines[..i], decode, parseArgs);
            var next := LineStep(prev.cycle, lines[i], decode, parseArgs);
            LinesStep(c, lines[..i + 1], decode, parseArgs)
            == if prev.stopped then prev else Emitted(next.cycle, prev.events + next.events, next.stopped)
  {
    assert lines[..i + 1][..i] == lines[..i];
  }

  /** Over a whole connection: the retained buffer holds no newline, the entries
      stay consistent, and the text block is opened at most once and before any delta. */
  lemma {:induction false} ConnectionKeepsInvariants(chunks: seq<string>, decode: string -> Option<Chunk>, parseArgs: string -> Option<Json>)
    ensures var conn := Reads(chunks, decode, parseArgs);
            && '\n' !in conn.buffer
            && WellFormed(conn.cycle)
            && TextDiscipline(conn.events, conn.cycle.textStarted)
    decreases |chunks|
  {
    if chunks == [] {
      assert TextDiscipline([], false);
    } else {
      var prev := Reads(chunks[..|chunks| - 1], decode, parseArgs);
      ConnectionKeepsInvariants(chunks[..|chunks| - 1], decode, parseArgs);
      var framed := Frame(prev.buffer + chunks[|chunks| - 1]);
      LinesKeepInvariants(prev.cycle, prev.events, framed.lines, decode, parseArgs);
    }
  }

  // ---- Batches of lines ----

  /** Once a `[DONE]` has ended a batch, the rest of the batch is dropped. */
  lemma {:induction false} LinesAfterDoneDropped(c: Cycle, lines: seq<string>, k: nat,
                                                  decode: string -> Option<Chunk>, parseArgs: string -> Option<Json>)
    requires k <= |lines|
    requires LinesStep(c, lines[..k], decode, parseArgs).stopped
    ensures LinesStep(c, lines, decode, parseArgs) == LinesStep(c, lines[..k], decode, parseArgs)
    decreases |lines| - k
  {
    if k < |lines| {
      assert lines[..|lines| - 1][..k] == lines[..k];
      LinesAfterDoneDropped(c, lines[..|lines| - 1], k, decode, parseArgs);
    } else {
      assert lines[..k] == lines;
    }
  }

  /** A batch ends early exactly when one of its lines is `[DONE]`. */
  lemma {:induction false} LinesStopExactlyAtDone(c: Cycle, lines: seq<string>,
                                                   decode: string -> Option<Chunk>, parseArgs: string -> Option<Json>)
    ensures LinesStep(c, lines, decode, parseArgs).stopped <==> exists k :: 0 <= k < |lines| && Classify(lines[k]).Done?
    decreases |lines|
  {
    if lines != [] {
      var init := lines[..|lines| - 1];
      var prev := LinesStep(c, init, decode, parseArgs);
      var last := lines[|lines| - 1];
      LinesStopExactlyAtDone(c, init, decode, parseArgs);
      if prev.stopped {
        var k :| 0 <= k < |init| && Classify(init[k]).Done?;
        assert lines[k] == init[k];
      } else {
        LineStopsExactlyAtDone(prev.cycle, last, decode, parseArgs);
        forall k | 0 <= k < |init|
          ensures lines[k] == init[k] && !Classify(lines[k]).Done?
        {
        }
      }
    }
  }

  /** One line ends the batch exactly when it is `[DONE]`. */
  lemma LineStopsExactlyAtDone(c: Cycle, line: string, decode: string -> Option<Chunk>, parseArgs: string -> Option<Json>)
    ensures LineStep(c, line, decode, parseArgs).stopped <==> Classify(line).Done?
  {
  }

  /** Stated apart so that callers with large contexts get the regrouping as a fact. */
  lemma EventsAssociate(a: seq<Event>, b: seq<Event>, c: seq<Event>)
    ensures a + b + c == a + (b + c)
  {
  }

  // ---- Finish signals and single lines ----

  /** Every line that is not a `data: ` line is ignored. */
  lemma NonDataLineIgnored(c: Cycle, line: string, decode: string -> Option<Chunk>, parseArgs: string -> Option<Json>)
    requires !StartsWith(line, DataPrefix)
    ensures LineStep(c, line, decode, parseArgs) == Emitted(c, [], false)
  {
  }

  /** An undecodable payload emits nothing, changes nothing, and the batch goes on. */
  lemma UndecodablePayloadIgnored(c: Cycle, line: string, decode: string -> Option<Chunk>, parseArgs: string -> Option<Json>)
    requires StartsWith(line, DataPrefix) && Trim(line[|DataPrefix|..]) != DoneSentinel
    requires decode(line[|DataPrefix|..]).None?
    ensures LineStep(c, line, decode, parseArgs) == Emitted(c, [], false)
  {
  }

  /** `[DONE]` always emits message_delta(end_turn) and message_stop, whatever came before. */
  lemma DoneAlwaysTerminates(c: Cycle, line: string, decode: string -> Option<Chunk>, parseArgs: string -> Option<Json>)
    requires StartsWith(line, DataPrefix) && Trim(line[|DataPrefix|..]) == DoneSentinel
    ensures LineStep(c, line, decode, parseArgs)
            == Emitted(c, [MessageDelta("end_turn", c.usage.completion), MessageStop], true)
  {
  }

  /** The `tool_calls` finish emits start/stop pairs, each stop right after its
      start at the same index, one pair per closing entry and none for any other,
      each index at most once. */
  lemma {:induction false} ToolUseEventsArePairs(c: Cycle, order: seq<int>, parseArgs: string -> Option<Json>)
    requires forall i, j :: 0 <= i < j < |order| ==> order[i] != order[j]
    ensures var r := ToolUseEvents(c, order, parseArgs);
      && |r| % 2 == 0
      && (forall k :: 0 <= k < |r| / 2 ==>
            && r[2 * k].ToolUseBlockStart?
            && r[2 * k].index in order
            && r[2 * k + 1] == BlockStop(r[2 * k].index)
            && Closes(EntryOf(c, r[2 * k].index), parseArgs))
      && (forall k1, k2 :: 0 <= k1 < k2 < |r| / 2 ==> r[2 * k1].index != r[2 * k2].index)
      && (forall i :: i in order && Closes(EntryOf(c, i), parseArgs) ==>
            ToolUseBlockStart(i, EntryOf(c, i).id, EntryOf(c, i).name,
                              parseArgs(EntryOf(c, i).arguments).value) in r)
    decreases |order|
  {
    if order != [] {
      var init := order[..|order| - 1];
      var last := order[|order| - 1];
      assert forall i, j :: 0 <= i < j < |init| ==> init[i] != init[j] by {
        forall i, j | 0 <= i < j < |init| ensures init[i] != init[j] {
          assert init[i] == order[i] && init[j] == order[j];
        }
      }
      ToolUseEventsArePairs(c, init, parseArgs);
      var prev := ToolUseEvents(c, init, parseArgs);
      var tail := ClosedToolUse(last, EntryOf(c, last), parseArgs);
      assert prev + tail == ToolUseEvents(c, order, parseArgs);
      assert order == init + [last];
      assert last !in init by {
        forall i | 0 <= i < |init| ensures init[i] != last {
          assert init[i] == order[i];
        }
      }
      PairsShapeSnoc(c, prev, tail, init, last, parseArgs);
      PairsDistinctSnoc(c, prev, tail, init, last, parseArgs);
      PairsCoverSnoc(c, prev, tail, init, last, parseArgs);
    }
  }

  ghost predicate PairsShape(c: Cycle, r: seq<Event>, order: seq<int>, parseArgs: string -> Option<Json>) {
    && |r| % 2 == 0
    && (forall k :: 0 <= k < |r| / 2 ==>
          && r[2 * k].ToolUseBlockStart?
          && r[2 * k].index in order
          && r[2 * k + 1] == BlockStop(r[2 * k].index)
          && Closes(EntryOf(c, r[2 * k].index), parseArgs))
  }

  lemma PairsShapeSnoc(c: Cycle, prev: seq<Event>, tail: seq<Event>, init: seq<int>, last: int, parseArgs: string -> Option<Json>)
    requires PairsShape(c, prev, init, parseArgs)
    requires tail == ClosedToolUse(last, EntryOf(c, last), parseArgs)
    ensures PairsShape(c, prev + tail, init + [last], parseArgs)
  {
    var r := prev + tail;
    forall k | 0 <= k < |r| / 2
      ensures r[2 * k].ToolUseBlockStart? && r[2 * k].index in init + [last]
      ensures r[2 * k + 1] == BlockStop(r[2 * k].index) && Closes(EntryOf(c, r[2 * k].index), parseArgs)
    {
      if 2 * k < |prev| {
        assert r[2 * k] == prev[2 * k] && r[2 * k + 1] == prev[2 * k + 1];
      } else {
        assert r[2 * k] == tail[0] && r[2 * k + 1] == tail[1];
      }
    }
  }

  lemma PairsDistinctSnoc(c: Cycle, prev: seq<Event>, tail: seq<Event>, init: seq<int>, last: int, parseArgs: string -> Option<Json>)
    requires PairsShape(c, prev, init, parseArgs) && last !in init
    requires forall k1, k2 :: 0 <= k1 < k2 < |prev| / 2 ==> prev[2 * k1].index != prev[2 * k2].index
    requires tail == ClosedToolUse(last, EntryOf(c, last), parseArgs)
    ensures var r := prev + tail;
            forall k1, k2 :: 0 <= k1 < k2 < |r| / 2 ==> r[2 * k1].index != r[2 * k2].index
  {
    var r := prev + tail;
    forall k1, k2 | 0 <= k1 < k2 < |r| / 2 ensures r[2 * k1].index != r[2 * k2].index {
      if 2 * k2 >= |prev| {
        assert r[2 * k1] == prev[2 * k1];
        assert r[2 * k2] == tail[0];
      } else {
        assert r[2 * k1] == prev[2 * k1] && r[2 * k2] == prev[2 * k2];
      }
    }
  }

  lemma PairsCoverSnoc(c: Cycle, prev: seq<Event>, tail: seq<Event>, init: seq<int>, last: int, parseArgs: string -> Option<Json>)
    requires forall i :: i in init && Closes(EntryOf(c, i), parseArgs) ==>
               ToolUseBlockStart(i, EntryOf(c, i).id, EntryOf(c, i).name, parseArgs(EntryOf(c, i).arguments).value) in prev
    requires tail == ClosedToolUse(last, EntryOf(c, last), parseArgs)
    ensures forall i :: i in init + [last] && Closes(EntryOf(c, i), parseArgs) ==>
              ToolUseBlockStart(i, EntryOf(c, i).id, EntryOf(c, i).name, parseArgs(EntryOf(c, i).arguments).value) in prev + tail
  {
    forall i | i in init + [last] && Closes(EntryOf(c, i), parseArgs)
      ensures ToolUseBlockStart(i, EntryOf(c, i).id, EntryOf(c, i).name, parseArgs(EntryOf(c, i).arguments).value) in prev + tail
    {
      if i in init {
        assert ToolUseBlockStart(i, EntryOf(c, i).id, EntryOf(c, i).name, parseArgs(EntryOf(c, i).arguments).value) in prev;
      } else {
        assert (prev + tail)[|prev|] == tail[0];
      }
    }
  }

  /** A record's events hold one text delta, carrying exactly its content,
      when that content is non-empty, and none otherwise. */
  lemma RecordTextDelta(c: Cycle, chunk: Chunk, parseArgs: string -> Option<Json>)
    ensures var evs := RecordStep(c, chunk, parseArgs).events;
            && (forall k :: 0 <= k < |evs| && evs[k].TextDelta? ==> chunk.content != "" && evs[k] == TextDelta(chunk.content))
            && (chunk.content != "" ==> TextDelta(chunk.content) in evs)
            && (forall k, j :: 0 <= k < |evs| && 0 <= j < |evs| && evs[k].TextDelta? && evs[j].TextDelta? ==> k == j)
  {
    var c1 := MergeUsage(c, chunk);
    var c3 := AbsorbAll(AfterText(c1, chunk.content), chunk.toolCalls);
    FinishEventsHaveNoText(c3, chunk.finishReason, parseArgs);
    var text := TextEvents(c1, chunk.content);
    var finish := FinishEvents(c3, chunk.finishReason, parseArgs);
    var evs := text + finish;
    if chunk.content != "" {
      assert text[|text| - 1] == TextDelta(chunk.content);
      assert evs[|text| - 1] == TextDelta(chunk.content);
    }
  }

  /** On `stop`, the text block is closed exactly when it was opened, then the terminal pair. */
  lemma StopFinishShape(c: Cycle, parseArgs: string -> Option<Json>)
    ensures FinishEvents(c, "stop", parseArgs)
            == (if c.textStarted then [BlockStop(0)] else []) + [MessageDelta("end_turn", c.usage.completion), MessageStop]
    ensures BlockStop(0) in FinishEvents(c, "stop", parseArgs) <==> c.textStarted
  {
  }

  /** On `tool_calls`, the text block is never closed: index 0 is stopped only by a tool call of index 0. */
  lemma ToolCallsFinishLeavesTextOpen(c: Cycle, parseArgs: string -> Option<Json>)
    requires WellFormed(c)
    requires 0 !in c.order
    ensures BlockStop(0) !in FinishEvents(c, "tool_calls", parseArgs)
    ensures FinishEvents(c, "tool_calls", parseArgs)[|FinishEvents(c, "tool_calls", parseArgs)| - 2..]
            == [MessageDelta("tool_use", c.usage.completion), MessageStop]
  {
    var r := ToolUseEvents(c, c.order, parseArgs);
    ToolUsesCloseOnlyTheirIndices(c, c.order, parseArgs);
    var evs := r + Terminal("tool_use", c);
    assert evs[|evs| - 2..] == Terminal("tool_use", c);
  }

  /** The tool_calls finish stops only blocks of indices in the order. */
  lemma {:induction false} ToolUsesCloseOnlyTheirIndices(c: Cycle, order: seq<int>, parseArgs: string -> Option<Json>)
    ensures forall i :: BlockStop(i) in ToolUseEvents(c, order, parseArgs) ==> i in order
    decreases |order|
  {
    if order != [] {
      var init := order[..|order| - 1];
      ToolUsesCloseOnlyTheirIndices(c, init, parseArgs);
      forall i | BlockStop(i) in ToolUseEvents(c, order, parseArgs)
        ensures i in order
      {
        if BlockStop(i) in ToolUseEvents(c, init, parseArgs) {
          assert order[..|order| - 1] == init;
          assert i in init;
        }
      }
    }
  }

  // ---- Scenarios ----

  /** A line classified as a payload that decodes is that record's step. */
  lemma PayloadLine(c: Cycle, line: string, payload: string, chunk: Chunk,
                    decode: string -> Option<Chunk>, parseArgs: string -> Option<Json>)
    requires Classify(line) == Payload(payload) && decode(payload) == Some(chunk)
    ensures LineStep(c, line, decode, parseArgs) == RecordStep(c, chunk, parseArgs)
  {
  }

  /** One more line at the end of a batch. */
  lemma LinesStepPush(c: Cycle, lines: seq<string>, line: string, decode: string -> Option<Chunk>, parseArgs: string -> Option<Json>)
    ensures var prev := LinesStep(c, lines, decode, parseArgs);
            var next := LineStep(prev.cycle, line, decode, parseArgs);
            LinesStep(c, lines + [line], decode, parseArgs)
            == if prev.stopped then prev else Emitted(next.cycle, prev.events + next.events, next.stopped)
  {
    assert (lines + [line])[..|lines|] == lines;
  }

  /** A record carrying only text. */
  lemma TextRecordStep(c: Cycle, text: string, parseArgs: string -> Option<Json>)
    requires text != ""
    ensures RecordStep(c, Chunk(None, text, [], ""), parseArgs) == Emitted(c.(textStarted := true), TextEvents(c, text), false)
  {
    assert AbsorbAll(c.(textStarted := true), []) == c.(textStarted := true);
    assert TextEvents(c, text) + [] == TextEvents(c, text);
  }

  /** A record carrying only one tool-call delta. */
  lemma ToolCallRecordStep(c: Cycle, tc: ToolCallDelta, parseArgs: string -> Option<Json>)
    ensures RecordStep(c, Chunk(None, "", [tc], ""), parseArgs) == Emitted(AbsorbToolCall(c, tc), [], false)
  {
    assert [tc][..0] == [];
    assert AbsorbAll(c, [tc]) == AbsorbToolCall(AbsorbAll(c, []), tc);
  }

  /** A record carrying only a finish reason. */
  lemma FinishRecordStep(c: Cycle, reason: string, parseArgs: string -> Option<Json>)
    ensures RecordStep(c, Chunk(None, "", [], reason), parseArgs) == Emitted(c, FinishEvents(c, reason, parseArgs), false)
  {
    assert [] + FinishEvents(c, reason, parseArgs) == FinishEvents(c, reason, parseArgs);
  }

  /** Two records carrying text, then one finishing with `stop`: the text
      block opens once, both deltas are forwarded as they came, and the block
      is closed before the end_turn pair. PayloadLine and LinesStepPush carry
      this over to payload lines decoding to these records. */
  lemma TextStreamExample(t1: string, t2: string, parseArgs: string -> Option<Json>)
    requires t1 != "" && t2 != ""
    ensures var open := Initial.(textStarted := true);
            && RecordStep(Initial, Chunk(None, t1, [], ""), parseArgs)
               == Emitted(open, [TextBlockStart, TextDelta(t1)], false)
            && RecordStep(open, Chunk(None, t2, [], ""), parseArgs)
               == Emitted(open, [TextDelta(t2)], false)
            && RecordStep(open, Chunk(None, "", [], "stop"), parseArgs).events
               == [BlockStop(0), MessageDelta("end_turn", 0), MessageStop]
  {
    TextRecordStep(Initial, t1, parseArgs);
    TextRecordStep(Initial.(textStarted := true), t2, parseArgs);
    StopRecord(parseArgs);
  }

  lemma StopRecord(parseArgs: string -> Option<Json>)
    ensures var open := Initial.(textStarted := true);
            RecordStep(open, Chunk(None, "", [], "stop"), parseArgs).events
            == [BlockStop(0), MessageDelta("end_turn", 0), MessageStop]
  {
    var open := Initial.(textStarted := true);
    FinishRecordStep(open, "stop", parseArgs);
    assert FinishEvents(open, "stop", parseArgs) == [BlockStop(0)] + [MessageDelta("end_turn", 0), MessageStop];
  }

  /** The two slices `{"x":` and `1}` of one tool call: after the first the
      entry is one level deep, after the second it is balanced again and holds
      the whole arguments, with the id and name of the first delta. */
  lemma SplitArgumentsAbsorbed()
    ensures AbsorbToolCall(Initial, ToolCallDelta(0, "call_1", "f", "{\"x\":"))
            == Initial.(order := [0], entries := map[0 := ToolEntry(Some("call_1"), Some("f"), "{\"x\":", ScanState(1, false, false))])
    ensures AbsorbToolCall(Initial.(order := [0], entries := map[0 := ToolEntry(Some("call_1"), Some("f"), "{\"x\":", ScanState(1, false, false))]),
                           ToolCallDelta(0, "", "", "1}"))
            == Initial.(order := [0], entries := map[0 := ToolEntry(Some("call_1"), Some("f"), "{\"x\":1}", Start)])
  {
    var half := ToolEntry(Some("call_1"), Some("f"), "{\"x\":", ScanState(1, false, false));
    var c1 := Initial.(order := [0], entries := map[0 := half]);
    ScanFiveChars(Start, "{\"x\":");
    assert AbsorbToolCall(Initial, ToolCallDelta(0, "call_1", "f", "{\"x\":")) == c1;
    ScanTwoChars(half.scan, "1}");
    assert "{\"x\":" + "1}" == "{\"x\":1}";
    assert AbsorbToolCall(c1, ToolCallDelta(0, "", "", "1}")).entries[0] == ToolEntry(Some("call_1"), Some("f"), "{\"x\":1}", Start);
  }

  /** Arguments streamed as `{"x":` then `1}` and then `tool_calls`: the scanner
      is balanced again only after the second slice, and the finish writes one
      start/stop pair with the decoded input, then the tool_use terminal pair. */
  lemma ToolCallStreamExample(input: Json, parseArgs: string -> Option<Json>)
    requires parseArgs("{\"x\":1}") == Some(input)
    ensures var half := ToolEntry(Some("call_1"), Some("f"), "{\"x\":", ScanState(1, false, false));
            var whole := ToolEntry(Some("call_1"), Some("f"), "{\"x\":1}", Start);
            var c1 := Initial.(order := [0], entries := map[0 := half]);
            var c2 := Initial.(order := [0], entries := map[0 := whole]);
            && RecordStep(Initial, Chunk(None, "", [ToolCallDelta(0, "call_1", "f", "{\"x\":")], ""), parseArgs)
               == Emitted(c1, [], false)
            && RecordStep(c1, Chunk(None, "", [ToolCallDelta(0, "", "", "1}")], ""), parseArgs)
               == Emitted(c2, [], false)
            && RecordStep(c2, Chunk(None, "", [], "tool_calls"), parseArgs).events
               == [ToolUseBlockStart(0, Some("call_1"), Some("f"), input), BlockStop(0), MessageDelta("tool_use", 0), MessageStop]
  {
    var tc1 := ToolCallDelta(0, "call_1", "f", "{\"x\":");
    var tc2 := ToolCallDelta(0, "", "", "1}");
    var half := ToolEntry(Some("call_1"), Some("f"), "{\"x\":", ScanState(1, false, false));
    var whole := ToolEntry(Some("call_1"), Some("f"), "{\"x\":1}", Start);
    var c1 := Initial.(order := [0], entries := map[0 := half]);
    var c2 := Initial.(order := [0], entries := map[0 := whole]);
    SplitArgumentsAbsorbed();
    assert FinishEvents(c2, "tool_calls", parseArgs)
           == [ToolUseBlockStart(0, Some("call_1"), Some("f"), input), BlockStop(0), MessageDelta("tool_use", 0), MessageStop] by {
      assert [0][..0] == [];
      assert ToolUseEvents(c2, [0], parseArgs) == [ToolUseBlockStart(0, Some("call_1"), Some("f"), input), BlockStop(0)];
    }
    ToolCallRecordStep(Initial, tc1, parseArgs);
    ToolCallRecordStep(c1, tc2, parseArgs);
    FinishRecordStep(c2, "tool_calls", parseArgs);
  }

  /** A tool call whose arguments stop at `{"x":` is still open at the
      `tool_calls` finish, so it emits nothing; only the terminal pair is written. */
  lemma IncompleteToolCallExample(parseArgs: string -> Option<Json>)
    ensures var tc := ToolCallDelta(0, "call_1", "f", "{\"x\":");
            RecordStep(Initial, Chunk(None, "", [tc], "tool_calls"), parseArgs).events
            == [MessageDelta("tool_use", 0), MessageStop]
  {
    var tc := ToolCallDelta(0, "call_1", "f", "{\"x\":");
    ScanFiveChars(Start, "{\"x\":");
    assert [tc][..0] == [];
    var c := AbsorbAll(Initial, [tc]);
    assert c == AbsorbToolCall(AbsorbAll(Initial, []), tc);
    assert c.order == [0] && c.entries[0].scan.depth == 1;
    assert [0][..0] == [];
    assert ToolUseEvents(c, [0], parseArgs) == [];
  }

  lemma ScanTwoChars(s: ScanState, text: string)
    requires |text| == 2
    ensures ScanFrom(s, text) == Step(Step(s, text[0]), text[1])
  {
    ScanSnoc(s, text, 0);
    ScanSnoc(s, text, 1);
    assert text[..0] == [] && text[..2] == text;
  }

  lemma ScanFiveChars(s: ScanState, text: string)
    requires |text| == 5
    ensures ScanFrom(s, text) == Step(Step(Step(Step(Step(s, text[0]), text[1]), text[2]), text[3]), text[4])
  {
    ScanSnoc(s, text, 0);
    ScanSnoc(s, text, 1);
    ScanSnoc(s, text, 2);
    ScanSnoc(s, text, 3);
    ScanSnoc(s, text, 4);
    assert text[..0] == [] && text[..5] == text;
  }
}
