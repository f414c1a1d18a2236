/**
 * The backend's streamed output: newline-framed lines, each either a
 * `data: <json>` record, the `data: [DONE]` sentinel, or something else.
 * A record is given here already decoded (JSON.parse is outside the model).
 */
module Records {
  import opened Wrappers
  import opened Text
  import opened Usage

  /** One entry of `choices[0].delta.tool_calls`; a missing id, name or
      arguments slice is "" (JavaScript treats it as false either way). */
  datatype ToolCallDelta = ToolCallDelta(index: int, id: string, name: string, arguments: string)

  /** A decoded record: its `usage` object, the first choice's delta content
      ("" when absent), its tool-call deltas ([] when absent) and its
      finish_reason ("" when absent or null). */
  datatype Chunk = Chunk(usage: Option<UsageReport>, content: string, toolCalls: seq<ToolCallDelta>, finishReason: string)

  const DataPrefix: string := "data: "
  const DoneSentinel: string := "[DONE]"

  datatype Line = Skipped | Done | Payload(text: string)

  /** Only `data: ` lines count; of those, a payload that trims to `[DONE]` is the sentinel. */
  function Classify(line: string): (r: Line)
    ensures r.Skipped? <==> !StartsWith(line, DataPrefix)
    ensures r.Done? <==> StartsWith(line, DataPrefix) && Trim(line[|DataPrefix|..]) == DoneSentinel
    ensures r.Payload? ==> StartsWith(line, DataPrefix) && r.text == line[|DataPrefix|..] && Trim(r.text) != DoneSentinel
  {
    if !StartsWith(line, DataPrefix) then Skipped
    else
      var payload := line[|DataPrefix|..];
      if Trim(payload) == DoneSentinel then Done else Payload(payload)
  }

  datatype Framed = Framed(lines: seq<string>, rest: string)

  /** `lines = buffer.split("\n"); buffer = lines.pop()`: the complete lines and the
      retained partial line, which together give back the text. */
  function Frame(text: string): (f: Framed)
    ensures '\n' !in f.rest
    ensures forall k :: 0 <= k < |f.lines| ==> '\n' !in f.lines[k]
    ensures Join(f.lines + [f.rest], '\n') == text
  {
    var pieces := Split(text, '\n');
    JoinSplit(text, '\n');
    assert pieces[..|pieces| - 1] + [pieces[|pieces| - 1]] == pieces;
    Framed(pieces[..|pieces| - 1], pieces[|pieces| - 1])
  }

  /** A text without a newline is all retained: no line is processed yet. */
  lemma PartialLineIsRetained(text: string)
    requires '\n' !in text
    ensures Frame(text) == Framed([], text)
  {
    NoSeparatorSplit(text, '\n');
  }
}
