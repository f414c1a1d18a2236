/**
 * `anthropicToFireworks`: the pure mapping from a client request to the
 * backend request. `JSON.stringify` is a parameter: the translator only
 * needs it to re-encode tool inputs and non-string tool results.
 */
module RequestTranslation {
  import opened Wrappers
  import opened Json
  import opened Messages
  import opened Replacements

  /** The text blocks' texts joined in order ("" if there are none). */
  function TextOf(blocks: seq<Block>): string
    decreases |blocks|
  {
    if blocks == [] then ""
    else (if blocks[0].TextBlock? then blocks[0].text else "") + TextOf(blocks[1..])
  }

  /** The tool_use blocks, in order. */
  function ToolUses(blocks: seq<Block>): (r: seq<Block>)
    ensures forall k :: 0 <= k < |r| ==> r[k].ToolUseBlock?
    ensures forall b :: b in blocks && b.ToolUseBlock? <==> b in r
    ensures |blocks| == 1 ==> r == (if blocks[0].ToolUseBlock? then blocks else [])
    decreases |blocks|
  {
    if blocks == [] then []
    else (if blocks[0].ToolUseBlock? then [blocks[0]] else []) + ToolUses(blocks[1..])
  }

  /** The tool_result blocks, in order. */
  function ToolResults(blocks: seq<Block>): (r: seq<Block>)
    ensures forall k :: 0 <= k < |r| ==> r[k].ToolResultBlock?
    ensures forall b :: b in blocks && b.ToolResultBlock? <==> b in r
    ensures |blocks| == 1 ==> r == (if blocks[0].ToolResultBlock? then blocks else [])
    decreases |blocks|
  {
    if blocks == [] then []
    else (if blocks[0].ToolResultBlock? then [blocks[0]] else []) + ToolResults(blocks[1..])
  }

  /** A tool_use block as a backend tool call; its input is re-encoded as a JSON string. */
  function CallFor(b: Block, stringify: Json -> string): (r: BackendToolCall)
    ensures b.ToolUseBlock? ==> r.id == b.id && r.name == b.name && r.arguments == stringify(b.input)
  {
    match b
    case ToolUseBlock(id, name, input) => BackendToolCall(id, name, stringify(input))
    case _ => BackendToolCall("", "", "")
  }

  /** A tool_result's content: a string as is, anything else re-encoded. */
  function ResultString(c: ResultContent, stringify: Json -> string): (r: string)
    ensures c.ResultText? ==> r == c.text
    ensures c.ResultValue? ==> r == stringify(c.value)
  {
    match c
    case ResultText(text) => text
    case ResultValue(v) => stringify(v)
  }

  /** A tool_result block as a backend `tool` message correlated by the tool_use id. */
  function ToolMessageFor(b: Block, stringify: Json -> string): (r: BackendMessage)
    ensures b.ToolResultBlock? ==>
              && r.role == Tool && r.toolCallId == Some(b.toolUseId) && r.toolCalls.None?
              && r.content == ResultString(b.content, stringify)
  {
    match b
    case ToolResultBlock(toolUseId, content) =>
      BackendMessage(Tool, ResultString(content, stringify), Some(toolUseId), None)
    case _ => BackendMessage(Tool, "", None, None)
  }

  function PlainMessage(role: Role, text: string): BackendMessage {
    BackendMessage(role, text, None, None)
  }

  /** One client message as zero or more backend messages (never zero, in fact). */
  function TranslateMessage(m: ClientMessage, stringify: Json -> string): (r: seq<BackendMessage>)
    ensures |r| >= 1
    // String content: one message, same role, same text.
    ensures m.content.StringContent? ==> r == [PlainMessage(m.role, m.content.text)]
    // Assistant with blocks: exactly one message carrying the joined text and one call per tool_use.
    ensures m.role == Assistant && m.content.BlockContent? ==>
      var uses := ToolUses(m.content.blocks);
      && |r| == 1 && r[0].role == Assistant && r[0].toolCallId.None?
      && r[0].content == TextOf(m.content.blocks)
      && (r[0].toolCalls.None? <==> uses == [])
      && (r[0].toolCalls.Some? ==>
            && |r[0].toolCalls.value| == |uses|
            && forall k :: 0 <= k < |uses| ==>
                 r[0].toolCalls.value[k] == BackendToolCall(uses[k].id, uses[k].name, stringify(uses[k].input)))
    // User with blocks: an optional leading user message, then one tool message per tool_result.
    ensures m.role == User && m.content.BlockContent? ==>
      var text := TextOf(m.content.blocks);
      var results := ToolResults(m.content.blocks);
      var lead := if text != "" then 1 else 0;
      if lead + |results| == 0 then r == [PlainMessage(User, "")]
      else
        && |r| == lead + |results|
        && (lead == 1 ==> r[0] == PlainMessage(User, text))
        && forall k :: 0 <= k < |results| ==>
             r[lead + k] == BackendMessage(Tool, ResultString(results[k].content, stringify), Some(results[k].toolUseId), None)
    // A tool-role message with blocks: its joined text only.
    ensures m.role == Tool && m.content.BlockContent? ==> r == [PlainMessage(Tool, TextOf(m.content.blocks))]
  {
    match m.content
    case StringContent(text) => [PlainMessage(m.role, text)]
    case BlockContent(blocks) =>
      if m.role == Assistant then
        var uses := ToolUses(blocks);
        var calls := seq(|uses|, k requires 0 <= k < |uses| => CallFor(uses[k], stringify));
        [BackendMessage(Assistant, TextOf(blocks), None, if |calls| > 0 then Some(calls) else None)]
      else if m.role == User then
        var text := TextOf(blocks);
        var results := ToolResults(blocks);
        var lead := if text != "" then [PlainMessage(User, text)] else [];
        var tools := seq(|results|, k requires 0 <= k < |results| => ToolMessageFor(results[k], stringify));
        if |lead + tools| > 0 then lead + tools else [PlainMessage(User, "")]
      else
        [PlainMessage(m.role, TextOf(blocks))]
  }

  /** The `flatMap` over all client messages: never fewer messages than the client sent. */
  function TranslateMessages(ms: seq<ClientMessage>, stringify: Json -> string): (r: seq<BackendMessage>)
    ensures |r| >= |ms|
    ensures r == [] <==> ms == []
    decreases |ms|
  {
    if ms == [] then [] else TranslateMessage(ms[0], stringify) + TranslateMessages(ms[1..], stringify)
  }

  /** Tool definitions map one to one, in order, with description and schema unchanged. */
  function TranslateTools(tools: seq<ToolDefinition>): (r: seq<BackendTool>)
    ensures |r| == |tools|
    ensures forall k :: 0 <= k < |tools| ==>
              r[k] == BackendTool(tools[k].name, tools[k].description, tools[k].inputSchema)
  {
    seq(|tools|, k requires 0 <= k < |tools| => BackendTool(tools[k].name, tools[k].description, tools[k].inputSchema))
  }

  /** `anthropicToFireworks`: the configured model, the translated messages, streaming
      always on, sampling values by override, else client value, else default. */
  function TranslateRequest(req: ClientRequest, cfg: Overrides, stringify: Json -> string): (r: BackendRequest)
    ensures r.stream
    ensures r.model == cfg.model
    ensures r.messages == TranslateMessages(req.messages, stringify)
    ensures r.maxTokens == (if cfg.maxTokens.Some? then cfg.maxTokens else req.maxTokens)
    ensures r.temperature == (if cfg.temperature.Some? then cfg.temperature else req.temperature)
    ensures cfg.topP.None? ==> r.topP == 1.0
    ensures cfg.frequencyPenalty.None? ==> r.frequencyPenalty == 0.0
    ensures cfg.presencePenalty.None? ==> r.presencePenalty == 0.0
    ensures cfg.topP.Some? ==> r.topP == cfg.topP.value
    ensures cfg.frequencyPenalty.Some? ==> r.frequencyPenalty == cfg.frequencyPenalty.value
    ensures cfg.presencePenalty.Some? ==> r.presencePenalty == cfg.presencePenalty.value
    ensures r.topK == cfg.topK
    ensures r.tools.Some? <==> req.tools.Some?
    ensures req.tools.Some? ==> |r.tools.value| == |req.tools.value|
    ensures req.tools.Some? ==>
              forall k :: 0 <= k < |req.tools.value| ==>
                r.tools.value[k] == BackendTool(req.tools.value[k].name, req.tools.value[k].description,
                                                req.tools.value[k].inputSchema)
  {
    BackendRequest(
      cfg.model,
      TranslateMessages(req.messages, stringify),
      cfg.maxTokens.OrElse(req.maxTokens),
      cfg.temperature.OrElse(req.temperature),
      cfg.topP.GetOr(1.0),
      cfg.topK,
      cfg.frequencyPenalty.GetOr(0.0),
      cfg.presencePenalty.GetOr(0.0),
      true,
      match req.tools
      case Some(tools) => Some(TranslateTools(tools))
      case None => None)
  }

  /** What the handler forwards: the rewritten messages, translated. */
  function ForwardRequest(req: ClientRequest, rules: seq<Rule>, cfg: Overrides, stringify: Json -> string): (r: BackendRequest)
    ensures r.stream && r.model == cfg.model
    ensures r.messages == TranslateMessages(ApplyReplacements(req.messages, rules), stringify)
    // The replacements reach the messages only: every other field is that of the client request's translation.
    ensures r.(messages := []) == TranslateRequest(req, cfg, stringify).(messages := [])
  {
    TranslateRequest(req.(messages := ApplyReplacements(req.messages, rules)), cfg, stringify)
  }

  // ---- Properties ----

  lemma ToolUsesFirst(blocks: seq<Block>)
    requires blocks != []
    ensures ToolUses(blocks) == (if blocks[0].ToolUseBlock? then [blocks[0]] else []) + ToolUses(blocks[1..])
  {
  }

  /** Selecting tool_use blocks commutes with concatenation; with the
      one-block case this fixes the selection's order and count. */
  lemma {:induction false} ToolUsesAppend(a: seq<Block>, b: seq<Block>)
    ensures ToolUses(a + b) == ToolUses(a) + ToolUses(b)
    decreases |a|
  {
    if a != [] {
      var h := if a[0].ToolUseBlock? then [a[0]] else [];
      assert (a + b)[0] == a[0] && (a + b)[1..] == a[1..] + b;
      ToolUsesFirst(a + b);
      ToolUsesFirst(a);
      ToolUsesAppend(a[1..], b);
      BlocksAssociate(h, ToolUses(a[1..]), ToolUses(b));
    } else {
      assert a + b == b;
    }
  }

  lemma ToolResultsFirst(blocks: seq<Block>)
    requires blocks != []
    ensures ToolResults(blocks) == (if blocks[0].ToolResultBlock? then [blocks[0]] else []) + ToolResults(blocks[1..])
  {
  }

  /** Selecting tool_result blocks commutes with concatenation. */
  lemma {:induction false} ToolResultsAppend(a: seq<Block>, b: seq<Block>)
    ensures ToolResults(a + b) == ToolResults(a) + ToolResults(b)
    decreases |a|
  {
    if a != [] {
      var h := if a[0].ToolResultBlock? then [a[0]] else [];
      assert (a + b)[0] == a[0] && (a + b)[1..] == a[1..] + b;
      ToolResultsFirst(a + b);
      ToolResultsFirst(a);
      ToolResultsAppend(a[1..], b);
      BlocksAssociate(h, ToolResults(a[1..]), ToolResults(b));
    } else {
      assert a + b == b;
    }
  }

  lemma BlocksAssociate(x: seq<Block>, y: seq<Block>, z: seq<Block>)
    ensures x + (y + z) == x + y + z
  {
  }

  lemma {:induction false} TextOfAppend(a: seq<Block>, b: seq<Block>)
    ensures TextOf(a + b) == TextOf(a) + TextOf(b)
    decreases |a|
  {
    if a == [] {
      assert a + b == b;
    } else {
      assert (a + b)[1..] == a[1..] + b;
      TextOfAppend(a[1..], b);
    }
  }

  /** Translation distributes over concatenation of the client message list. */
  lemma {:induction false} TranslateMessagesAppend(a: seq<ClientMessage>, b: seq<ClientMessage>, stringify: Json -> string)
    ensures TranslateMessages(a + b, stringify) == TranslateMessages(a, stringify) + TranslateMessages(b, stringify)
    decreases |a|
  {
    if a == [] {
      assert a + b == b;
    } else {
      assert (a + b)[1..] == a[1..] + b;
      TranslateMessagesAppend(a[1..], b, stringify);
    }
  }

  /** A conversation of plain strings maps message for message, roles and texts unchanged. */
  lemma {:induction false} StringMessagesMapOneToOne(ms: seq<ClientMessage>, stringify: Json -> string)
    requires forall i :: 0 <= i < |ms| ==> ms[i].content.StringContent?
    ensures |TranslateMessages(ms, stringify)| == |ms|
    ensures forall i :: 0 <= i < |ms| ==> TranslateMessages(ms, stringify)[i] == PlainMessage(ms[i].role, ms[i].content.text)
    decreases |ms|
  {
    if ms != [] {
      StringMessagesMapOneToOne(ms[1..], stringify);
      var r := TranslateMessages(ms, stringify);
      forall i | 0 <= i < |ms| ensures r[i] == PlainMessage(ms[i].role, ms[i].content.text) {
        if i > 0 {
          assert ms[1..][i - 1] == ms[i];
        }
      }
    }
  }

  lemma {:induction false} NoTextBlocksNoText(blocks: seq<Block>)
    requires forall k :: 0 <= k < |blocks| ==> !blocks[k].TextBlock?
    ensures TextOf(blocks) == ""
    decreases |blocks|
  {
    if blocks != [] {
      NoTextBlocksNoText(blocks[1..]);
    }
  }

  /** A user message made only of tool_result blocks gives one `tool` message per
      result, correlated positionally, and no user message. */
  lemma ToolResultsOnlyUserMessage(blocks: seq<Block>, stringify: Json -> string)
    requires |blocks| > 0 && forall k :: 0 <= k < |blocks| ==> blocks[k].ToolResultBlock?
    ensures var r := TranslateMessage(ClientMessage(User, BlockContent(blocks)), stringify);
      && |r| == |blocks|
      && forall k :: 0 <= k < |blocks| ==>
           r[k].role == Tool && r[k].toolCallId == Some(blocks[k].toolUseId)
  {
    NoTextBlocksNoText(blocks);
    AllResultsAreResults(blocks);
  }

  lemma {:induction false} AllResultsAreResults(blocks: seq<Block>)
    requires forall k :: 0 <= k < |blocks| ==> blocks[k].ToolResultBlock?
    ensures ToolResults(blocks) == blocks
    decreases |blocks|
  {
    if blocks != [] {
      AllResultsAreResults(blocks[1..]);
      assert blocks == [blocks[0]] + blocks[1..];
    }
  }

  /** The replacement step only touches text: the tool_use and tool_result blocks
      a message forwards are the same before and after it. */
  lemma {:induction false} RewriteKeepsToolBlocks(rules: seq<Rule>, blocks: seq<Block>)
    ensures var rewritten := seq(|blocks|, k requires 0 <= k < |blocks| => RewriteBlock(rules, blocks[k]));
      ToolUses(rewritten) == ToolUses(blocks) && ToolResults(rewritten) == ToolResults(blocks)
    decreases |blocks|
  {
    var rewritten := seq(|blocks|, k requires 0 <= k < |blocks| => RewriteBlock(rules, blocks[k]));
    if blocks != [] {
      RewriteKeepsToolBlocks(rules, blocks[1..]);
      var tail := seq(|blocks[1..]|, k requires 0 <= k < |blocks[1..]| => RewriteBlock(rules, blocks[1..][k]));
      assert rewritten[1..] == tail;
    }
  }
}
