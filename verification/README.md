# A verified model of the Fireworks gateway's translation engine

The gateway (`index.ts`) sits between a client that speaks the Anthropic
Messages API and a Fireworks (OpenAI-style) chat-completions backend. For
every request it

- rewrites client messages whose text exactly matches a configured
  replacement rule (`applyReplacements`);
- translates the client request into a backend request
  (`anthropicToFireworks`). Text, tool_use and tool_result blocks become
  flat chat messages with a separate `tool` role and `tool_calls`; the
  backend is always asked to stream;
- reads the backend's server-sent-event stream line by line. It then either
  - translates it on the fly into the client's streamed events
    (`content_block_start`, `content_block_delta`, `content_block_stop`,
    `message_delta`, `message_stop`), or
  - collects it into one response message when the client did not ask
    for streaming.

Both read paths accumulate tool-call fragments per tool-call index. Both
decide whether the accumulated arguments form a complete JSON object with a
brace-balance scanner:

- the one-shot `isCompleteJsonString`;
- an incremental copy of it, run slice by slice inside each entry.

Both paths merge usage reports field by field with `new || old`.

## Modules

| module | file | what it holds |
|---|---|---|
| `Wrappers`, `Json` | wrappers.dfy, json.dfy | `Option`, and JSON values as an opaque tree |
| `Text` | text.dfy | JavaScript `trim` (its whitespace set), `startsWith`, `split`/`join` on one separator |
| `JsonScan` | json_scan.dfy | the scanner state, one step of it, the one-shot check as a method, and the facts about them |
| `Usage` | usage.dfy | the usage counters and the `new \|\| old` merge |
| `Messages`, `Replacements`, `RequestTranslation` | messages.dfy, replacements.dfy, request_translation.dfy | the request side |
| `Records` | records.dfy | one decoded backend record, line framing and line classification |
| `StreamSpec`, `StreamProperties` | stream_spec.dfy, stream_properties.dfy | the streaming translator as functions, and what is proved about them |
| `StreamTranslator` | stream_translator.dfy | the streaming translator as a class whose `Feed` appends events, proved against `StreamSpec` |
| `AggregateSpec`, `AggregateProperties` | aggregate_spec.dfy, aggregate_properties.dfy | the non-streaming aggregator as functions, and what is proved about them |
| `ResponseAggregator` | aggregator.dfy | the aggregator as a class, proved against `AggregateSpec` |
| `PathAgreement` | path_agreement.dfy | how the two read paths agree, and where they differ |
| `Gateway` | gateway.dfy | the handler choosing the read path from the client's `stream` flag |

Calls into code the model cannot see are parameters:

- `JSON.parse` of a record payload is `decode: string -> Option<Chunk>`, with
  `None` for a parse that throws;
- `JSON.parse` of tool arguments is `parseArgs: string -> Option<Json>`;
- `JSON.stringify` is `stringify: Json -> string`.

JavaScript's falsy values are modelled as follows:

- the empty string for absent content, id, name, arguments and finish reason;
- the empty list for absent tool calls;
- `Option<nat>` for the usage fields, where 0 is falsy.

### Behaviour as the code has it

The model follows the code in these places, where a plain reading of the
gateway's intent would expect something else:

- The incremental scanner has no negative-depth latch
  (`index.ts:644-648`); the one-shot check has one (`index.ts:447`). So
  `}{` is ready by the streaming test but not complete by the one-shot check
  (`JsonScan.ReversedBracesExample`).
- A `[DONE]` line always writes `message_delta(end_turn)` and
  `message_stop`, even after a finish signal already wrote them. Its `break`
  ends only the current batch of lines; the next read is processed as usual
  (`StreamSpec.Reads`, `StreamProperties.LinesAfterDoneDropped`).
- The `tool_calls` finish never closes the index-0 text block
  (`StreamProperties.ToolCallsFinishLeavesTextOpen`).
- The text block and a tool call with index 0 share content-block index 0.
- A later non-empty id or name overwrites the stored one.
- A smaller non-zero usage value replaces a larger stored one, so the
  counters are not monotone (`Usage.SmallerValueReplacesLarger`).
- The last partial line of the stream is never processed.
- The aggregator skips `[DONE]` lines and keeps the last non-empty finish
  reason.
- An incomplete or undecodable tool call differs between the two paths:
  - the streaming path writes nothing for it;
  - the aggregator passes the raw argument string on as the input
    (`PathAgreement.IncompleteCallDiverges`).

## Model

| member | source | states |
|---|---|---|
| Text.TrimStart | index.ts:565 | the result is a suffix of the input, what was cut is whitespace, and it starts with non-whitespace (or is empty) |
| Text.TrimEnd | index.ts:565 | the result is a prefix of the input, what was cut is whitespace, and it ends with non-whitespace (or is empty) |
| Text.TrimEmptyIffBlank | index.ts:417 | `s.trim() === ""` holds exactly when every character of `s` is JavaScript whitespace |
| Text.Split | index.ts:559 | `split("\n")` gives at least one piece and no piece contains the separator |
| Text.JoinSplit | index.ts:559-560 | joining the pieces with the separator gives back the input |
| Text.NoSeparatorSplit | index.ts:559-560 | text without a separator splits into itself alone |
| Records.Frame | index.ts:559-560 | after a read, the retained buffer has no newline, no complete line has one, and the complete lines plus the buffer joined with newlines are the old buffer plus the read |
| Records.PartialLineIsRetained | index.ts:559-560 | a read that completes no line is retained whole and yields no line |
| Records.Classify | index.ts:563-565 | a line is skipped exactly when it does not start with `data: `; it is `[DONE]` exactly when its payload trims to `[DONE]`; otherwise its payload is the rest after the prefix |
| JsonScan.IsCompleteJsonString | index.ts:416-452 | the loop (counter, string flag, escape flag, early return below zero) answers true exactly when the text is not blank, no prefix dips below depth zero, and the scan ends at depth 0 outside a string |
| JsonScan.ScanChar | index.ts:424-448 | one character of the loop body moves the counter and flags exactly as one scan step does, and only a closing brace lowers the counter |
| JsonScan.StepCases | index.ts:423-448 | a character after a backslash only clears the escape flag; an unescaped backslash sets it; an unescaped quote toggles the string flag; the depth changes exactly for an unescaped brace outside a string, up by one for `{` and down by one for `}` |
| JsonScan.ScanMovesDepthByAtMostLength | index.ts:423-449 | scanning a text moves the depth by at most its length either way |
| JsonScan.IsCompleteJson | index.ts:416-452 | a text the one-shot check accepts is non-empty and also passes the streaming test of `index.ts:657` (depth 0, outside a string) |
| JsonScan.BlankIsIncomplete | index.ts:417 | an empty or whitespace-only text is never complete |
| JsonScan.DipRuinsText | index.ts:445-447 | once a prefix scans below depth zero the whole text is incomplete, whatever follows |
| JsonScan.ScanAppend | index.ts:620-649 | scanning two slices one after another leaves the same state as one scan over their concatenation |
| JsonScan.EscapedCharacterIsInert | index.ts:426-434 | a backslash and the character after it leave the state as it was |
| JsonScan.QuotedTextIsInert | index.ts:436-441 | inside a string, characters other than a quote or a backslash change nothing, braces included |
| JsonScan.DipsBelowZeroIffSomePrefix | index.ts:445-447 | the latch fires exactly when some non-empty prefix reaches a negative depth |
| JsonScan.DipIsPermanent | index.ts:447 | once a prefix has dipped below zero, no continuation makes the text complete |
| JsonScan.QuotedBraceExample | index.ts:436-441 | `{"a":"}"}` is complete: the quoted brace does not count |
| JsonScan.OpenObjectExample | index.ts:451 | `{"a":1,` is not complete |
| JsonScan.ReversedBracesExample | index.ts:447 | `}{` is not complete by the one-shot check, yet passes the streaming test, which has no latch |
| Usage.OrStored | index.ts:579-581 | `observed \|\| stored`: a truthy observation replaces the stored value, 0 or a missing value keeps it |
| Usage.Merge | index.ts:578-588 | each of prompt, completion and total is replaced only by a truthy reported value; the other fields are untouched |
| Usage.MergeAll | index.ts:740-750 | after a run of merges each counter holds its starting value or a value some report carried for that field |
| Usage.MergeAllKeepsLastTruthy | index.ts:740-750 | after any sequence of reports, each counter is the last truthy value reported for it, or its starting value |
| Usage.ZeroDoesNotClobberExample | index.ts:578-588 | from zeros, merging {prompt 5}, {completion 3}, {prompt 0} gives {5, 3, 0} |
| Usage.SmallerValueReplacesLarger | index.ts:579-581 | a smaller non-zero report replaces a larger stored count |
| Replacements.FirstMatch | index.ts:244-250 | a replacement is found exactly when some rule's original equals the text, and it is the first such rule's update |
| Replacements.RewriteBlock | index.ts:257-269 | only a text block is rewritten; every other block is kept |
| Replacements.RewriteMessage | index.ts:241-275 | the role is kept; string content is rewritten; block content keeps its length and each block is rewritten on its own |
| Replacements.ApplyReplacements | index.ts:233-282 | message count, order and roles are preserved, each message is rewritten, and with no rules the list is returned unchanged |
| Replacements.RewriteWithoutMatchIsIdentity | index.ts:241-275 | a message none of whose texts matches a rule is unchanged |
| RequestTranslation.ToolUses | index.ts:295 | every result is a tool_use block, a tool_use block is selected exactly when it occurs, and a single block gives itself or nothing |
| RequestTranslation.ToolUsesAppend | index.ts:295 | selection commutes with concatenation, which with the one-block case fixes the selection as the tool_use blocks in their order and number |
| RequestTranslation.ToolResults | index.ts:319 | every result is a tool_result block, a tool_result block is selected exactly when it occurs, and a single block gives itself or nothing |
| RequestTranslation.ToolResultsAppend | index.ts:319 | selection commutes with concatenation, which with the one-block case fixes the selection as the tool_result blocks in their order and number |
| RequestTranslation.CallFor | index.ts:301-308 | a tool_use block becomes a call with the block's id and name and its input re-encoded with `JSON.stringify` |
| RequestTranslation.ResultString | index.ts:345-348 | a string result is forwarded as is; any other result is re-encoded |
| RequestTranslation.ToolMessageFor | index.ts:342-350 | a tool_result becomes a `tool` message with the result string and the tool_use id as tool_call_id, and no tool calls |
| RequestTranslation.TranslateMessage | index.ts:290-382 | string content gives one message with the same role and text. An assistant with blocks gives one message: the joined text and one call per tool_use, in order, with arguments = stringify(input), or no calls when there are none. A user with blocks gives a user message only when the joined text is non-empty, then one `tool` message per tool_result with its tool_use id, or a single empty user message when both are absent |
| RequestTranslation.TranslateMessages | index.ts:290-382 | the flatMap drops no client message: there are at least as many backend messages as client messages, and none only when there were none |
| RequestTranslation.TranslateTools | index.ts:384-391 | tool definitions map one to one, in order, with name, description and schema unchanged |
| RequestTranslation.TranslateRequest | index.ts:393-404 | the configured model, stream always on, the translated messages; max_tokens and temperature by override else client value; top_p 1 and the penalties 0 unless overridden; top_k as configured; tools present exactly when the client sent some, one per tool in order with the tool's name, description and input schema |
| RequestTranslation.ForwardRequest | index.ts:477-494 | the handler forwards the translation of the rewritten messages; every other field is that of the client request's translation |
| Gateway.Handle | index.ts:477-535 | the forwarded request is the translation of the client request with its messages rewritten, every field included, streaming on; the reply is the streamed events exactly when the client set `stream` to true (absent means false), otherwise the collected response carrying the client's model name |
| Gateway.WantsStream | index.ts:491 | the client wants events exactly when `stream` is true; an absent flag means false |
| RequestTranslation.TextOfAppend | index.ts:297-300 | the joined text of two block lists is the two joined texts one after the other |
| RequestTranslation.TranslateMessagesAppend | index.ts:290-382 | the flatMap distributes over concatenation of the client messages |
| RequestTranslation.StringMessagesMapOneToOne | index.ts:366-380 | a conversation of plain strings maps message for message, with roles and texts unchanged |
| RequestTranslation.NoTextBlocksNoText | index.ts:326-337 | blocks without text blocks join to the empty text |
| RequestTranslation.ToolResultsOnlyUserMessage | index.ts:318-363 | a user message made only of tool_results gives exactly one `tool` message per result, in order, with its tool_use id, and no user message |
| RequestTranslation.AllResultsAreResults | index.ts:319 | filtering a list made only of tool_results keeps it whole |
| RequestTranslation.RewriteKeepsToolBlocks | index.ts:257-269 | rewriting leaves the tool_use and tool_result blocks a message forwards unchanged |
| StreamSpec.AbsorbToolCall | index.ts:606-649 | an entry is created on first sighting (appended to the key order) with empty arguments and scanner state (0, false, false); a non-empty id or name overwrites; the arguments grow by the slice; the scanner advances over that slice only; other entries are untouched |
| StreamSpec.ClosedToolUse | index.ts:657-684 | an entry yields blocks exactly when its arguments are non-empty, at depth 0 outside a string, and decode; it then yields a tool_use start immediately followed by the stop of the same index |
| StreamSpec.ToolUseEvents | index.ts:656-685 | visiting the entries writes at most one start/stop pair per entry |
| StreamSpec.Terminal | index.ts:566-570 | `message_delta` with the given stop reason and the completion tokens so far, then `message_stop` |
| StreamSpec.FinishEvents | index.ts:654-698 | a finish reason writes something exactly when it is `tool_calls` or `stop` |
| StreamSpec.TextEvents | index.ts:590-600 | non-empty content writes one delta with that content, last, preceded by the text block start exactly when the block was not yet opened; empty content writes nothing |
| StreamSpec.RecordStep | index.ts:573-705 | usage is merged and the text flag set; the record writes its text events and then the finish events, computed on the state after its tool-call deltas; a record never ends the batch |
| StreamSpec.LineStep | index.ts:562-705 | only a `data: ` payload can change the state: a skipped line and `[DONE]` leave it as it was |
| StreamProperties.LineStopsExactlyAtDone | index.ts:565-571 | a line ends the batch exactly when its payload trims to `[DONE]` |
| StreamProperties.LinesStopExactlyAtDone | index.ts:562-572 | a batch ends early exactly when one of its lines is `[DONE]` |
| StreamSpec.Reads | index.ts:554-707 | the retained partial line never holds a newline, and events once written stay the prefix of what follows |
| StreamProperties.AbsorbKeepsWellFormed | index.ts:606-649 | one delta keeps the key order duplicate-free and equal to the key set, and each entry's scanner state equal to one scan over its whole arguments |
| StreamProperties.AbsorbAllKeepsWellFormed | index.ts:602-652 | the same for all deltas of a record |
| StreamProperties.RecordKeepsWellFormed | index.ts:573-698 | a decoded record keeps that invariant |
| StreamProperties.LineKeepsWellFormed | index.ts:562-707 | any line keeps that invariant |
| StreamProperties.DisciplineMeansStartBeforeDelta | index.ts:590-600 | under the text discipline there is at most one text block start, and every text delta has one before it |
| StreamProperties.RecordKeepsTextDiscipline | index.ts:590-600 | a record's events keep the text block opened at most once, before any delta, and the flag in step with the events |
| StreamProperties.LineKeepsTextDiscipline | index.ts:562-707 | so does any line |
| StreamProperties.LinesKeepInvariants | index.ts:562-707 | a batch of lines keeps both the accumulator invariant and the text discipline |
| StreamProperties.ConnectionKeepsInvariants | index.ts:554-708 | after any sequence of reads the buffer holds no newline, the accumulator invariant holds, and the events written keep the text discipline |
| StreamProperties.LinesStepSnoc | index.ts:562-572 | the batch up to a line is the batch before it, then that line unless a `[DONE]` already ended the batch |
| StreamProperties.LinesAfterDoneDropped | index.ts:565-571 | once `[DONE]` has ended a batch, the later lines of that batch change nothing |
| StreamProperties.NonDataLineIgnored | index.ts:563 | a line not starting with `data: ` writes nothing and changes nothing |
| StreamProperties.UndecodablePayloadIgnored | index.ts:699-705 | a payload that does not decode writes nothing, changes nothing, and the batch goes on |
| StreamProperties.DoneAlwaysTerminates | index.ts:565-571 | `[DONE]` writes `message_delta(end_turn, completion tokens)` and `message_stop`, changes no state, and ends the batch |
| StreamProperties.RecordTextDelta | index.ts:597-599 | a record writes one text delta, carrying exactly its content, when that content is non-empty, and none otherwise |
| StreamProperties.ToolUseEventsArePairs | index.ts:655-685 | the tool_calls finish writes start/stop pairs of the same index, one per closing entry, no index twice, and every closing entry in the order gets its block with its id, name and decoded input |
| StreamProperties.StopFinishShape | index.ts:690-698 | on `stop`, index 0 is closed exactly when the text block was started, then `message_delta(end_turn)` and `message_stop` |
| StreamProperties.ToolUsesCloseOnlyTheirIndices | index.ts:656-685 | the tool_calls finish stops only blocks whose index is in the insertion order |
| StreamProperties.ToolCallsFinishLeavesTextOpen | index.ts:655-689 | with no tool call at index 0, the tool_calls finish never closes index 0, and it ends with `message_delta(tool_use, completion tokens)` and `message_stop` |
| StreamProperties.PayloadLine | index.ts:563-575 | a line classified as a payload that decodes is handled exactly as that record |
| StreamProperties.LinesStepPush | index.ts:562-572 | one more line at the end of a batch adds that line's events after the batch's, unless the batch already stopped at `[DONE]` |
| StreamProperties.TextRecordStep | index.ts:590-600 | a text-only record opens the text block and forwards its text |
| StreamProperties.ToolCallRecordStep | index.ts:602-652 | a record with one tool-call delta only absorbs it and writes nothing |
| StreamProperties.FinishRecordStep | index.ts:654-698 | a record with only a finish reason writes the finish events and changes no state |
| StreamProperties.TextStreamExample | index.ts:590-698 | two records carrying any non-empty texts, then a `stop` finish: text start and first delta, then only the second delta, then the stop of index 0, `message_delta(end_turn, 0)`, `message_stop` |
| StreamProperties.SplitArgumentsAbsorbed | index.ts:606-649 | arguments `{"x":` then `1}` accumulate to `{"x":1}`, with scanner state depth 1 in between and back at (0, false, false) after |
| StreamProperties.ToolCallStreamExample | index.ts:606-689 | a tool call split over two records, then tool_calls, gives one tool_use start with id, name and decoded input, its stop, `message_delta(tool_use, 0)`, `message_stop` |
| StreamProperties.IncompleteToolCallExample | index.ts:655-689 | an unbalanced tool call is skipped at the tool_calls finish; only the terminal pair is written |
| StreamTranslator.Translator.constructor | index.ts:541-552 | a new connection: empty buffer, no text block, no entries, zero usage, no events |
| StreamTranslator.Translator.Feed | index.ts:557-707 | one read: the buffer becomes the new partial line; the state and the appended events are those of the batch's lines up to the first `[DONE]`; the invariants are kept |
| StreamTranslator.Translator.HandleLine | index.ts:562-572 | one line, as the line step states, including the batch-ending `[DONE]` |
| StreamTranslator.Translator.HandleRecord | index.ts:573-698 | usage, then text, then tool-call deltas, then the finish signal, as the record step states |
| StreamTranslator.Translator.WriteText | index.ts:590-600 | non-empty content opens the text block on first sight and appends one delta |
| StreamTranslator.Translator.AccumulateAll | index.ts:602-652 | every tool-call delta of a record absorbed in order; no event written |
| StreamTranslator.Translator.AccumulateToolCall | index.ts:606-649 | one delta absorbed as the entry rule states; no event written |
| StreamTranslator.ExtendEntry | index.ts:615-649 | a non-empty id or name overwrites, the slice is appended, and the stored scan state advances over exactly that slice |
| StreamTranslator.Translator.Finish | index.ts:654-698 | the finish signal's events appended; the state unchanged |
| StreamTranslator.Translator.EmitToolUses | index.ts:655-685 | the blocks of the closing entries appended in first-seen order |
| StreamTranslator.ScanSlice | index.ts:620-649 | the per-character loop over one slice, resumed from the stored state, ends in the state of scanning that slice |
| StreamTranslator.TranslateStream | index.ts:534-714 | a whole connection writes the events of its reads, and they keep the text discipline |
| AggregateSpec.AbsorbToolCall | index.ts:757-768 | an entry is created on first sighting (appended to the key order) with empty arguments; a non-empty id or name overwrites; the arguments grow by the slice; other entries are untouched |
| AggregateSpec.AbsorbAll | index.ts:756-769 | absorbing tool calls changes neither text, finish reason nor usage |
| AggregateSpec.RecordStep | index.ts:735-772 | a record appends its content to the text, replaces the finish reason only when it carries one, and merges its usage |
| AggregateSpec.LineStep | index.ts:732-772 | a line that is not a data payload, `[DONE]` included, changes nothing; the text only grows |
| AggregateSpec.LinesStep | index.ts:731-781 | over a batch the collected text only grows |
| AggregateSpec.Reads | index.ts:723-782 | the retained partial line never holds a newline, and the text collected so far stays the prefix of the text after one more read |
| AggregateSpec.ToolInput | index.ts:791-818 | the input is the decoded arguments when they pass the one-shot check and decode, the raw string otherwise |
| AggregateSpec.StopReason | index.ts:836-841 | tool_calls maps to tool_use and stop to end_turn; any other value, none included, passes through |
| AggregateSpec.BuildResponse | index.ts:819-846 | the model is the client's, the stop reason is the mapped finish reason, and the prompt and completion counters are the input and output tokens |
| AggregateProperties.LinesCollectInOrder | index.ts:731-779 | over any batch, the text is the old text plus every decoded record's content in order; the finish reason is the last one carried (or the old one); the usage is the old usage with every report merged in order |
| AggregateProperties.NextLineCollected | index.ts:731-779 | one more line keeps that relation, with its record if it has one |
| AggregateProperties.NextRecordCollected | index.ts:735-772 | one more record keeps that relation |
| AggregateProperties.DoneLineSkipped | index.ts:734 | a `[DONE]` line changes nothing and contributes no record |
| AggregateProperties.LinesStepAppend | index.ts:728-781 | lines are absorbed one after another: two batches are one concatenated batch |
| AggregateProperties.DoneLineIsTransparent | index.ts:734 | removing a `[DONE]` line from anywhere in a batch changes nothing |
| AggregateProperties.AbsorbKeepsWellFormed | index.ts:757-768 | one delta keeps the key order duplicate-free and equal to the key set |
| AggregateProperties.AbsorbAllKeepsWellFormed | index.ts:756-769 | so do all deltas of a record |
| AggregateProperties.AbsorbAllOnlyGrows | index.ts:756-769 | the key order only grows at its end, no key is lost, and no entry's arguments shrink |
| AggregateProperties.RecordKeepsWellFormed | index.ts:735-772 | a record keeps the invariant |
| AggregateProperties.LineKeepsWellFormed | index.ts:732-772 | one line keeps the invariant |
| AggregateProperties.LinesKeepWellFormed | index.ts:731-781 | a batch keeps the invariant |
| AggregateProperties.ReadsKeepInvariants | index.ts:723-782 | after any reads the buffer holds no newline and the invariant holds |
| AggregateProperties.WithArguments | index.ts:790-792 | a key is kept exactly when it is in the order and its entry has non-empty arguments |
| AggregateProperties.WithArgumentsAppend | index.ts:790-791 | keeping the keys with arguments commutes with concatenation, so the kept keys are the order's keys with arguments, in that order |
| AggregateProperties.ToolBlocksFollowOrder | index.ts:790-819 | one tool_use block per entry with arguments, in first-seen order |
| AggregateProperties.ResponseShape | index.ts:784-846 | the content is a text block exactly when the text is non-empty, followed by one tool_use block per entry with arguments in first-seen order; the model, stop reason and the prompt and completion tokens are reported |
| AggregateProperties.ToolInputFallsBackToRaw | index.ts:791-818 | a tool input is the raw string, or the decoded value of complete arguments |
| AggregateProperties.CompleteToolCallResponseExample | index.ts:784-846 | text "Hi" and a complete `{"a":"}"}` call with finish tool_calls give a text block, a tool_use with the decoded input, stop reason tool_use and the usage |
| AggregateProperties.IncompleteToolCallResponseExample | index.ts:800-807 | an unbalanced `{"a":1,` call gives a tool_use whose input is the raw string |
| ResponseAggregator.Aggregator.constructor | index.ts:716-721 | empty text, no entries, no finish reason, zero usage, empty buffer |
| ResponseAggregator.Aggregator.Feed | index.ts:726-781 | one read: the buffer becomes the new partial line and the state is that of all the batch's lines; the invariant is kept |
| ResponseAggregator.Aggregator.HandleLine | index.ts:732-734 | one line as the line step states: only decodable `data: ` records count, `[DONE]` is skipped |
| ResponseAggregator.Aggregator.HandleRecord | index.ts:735-772 | one record as the record step states |
| ResponseAggregator.Aggregator.AccumulateAll | index.ts:756-769 | every tool-call delta of a record absorbed in order |
| ResponseAggregator.Aggregator.AccumulateToolCall | index.ts:757-768 | one delta absorbed as the entry rule states |
| ResponseAggregator.Aggregator.Respond | index.ts:784-847 | the response built from the collected state |
| ResponseAggregator.DecodeInput | index.ts:791-818 | the one-shot check, then the decode, falling back to the raw string |
| ResponseAggregator.AggregateStream | index.ts:715-851 | a whole non-streamed response is the response of what its reads collect |
| PathAgreement.InitialAgree | index.ts:716-721 | both paths start from the same empty accumulator and usage |
| PathAgreement.AbsorbAgrees | index.ts:757-768 | one tool-call delta leaves both accumulators with the same keys, order, ids, names and arguments |
| PathAgreement.AbsorbAllAgrees | index.ts:756-769 | so do all deltas of a record |
| PathAgreement.RecordAgrees | index.ts:735-772 | one record leaves both paths agreeing, and the streamed text deltas carry exactly the text collected |
| PathAgreement.LineAgrees | index.ts:732-734 | one line that is not `[DONE]` does not end the streaming batch and leaves both paths agreeing |
| PathAgreement.LinesAgree | index.ts:731-781 | over a batch with no `[DONE]`, the streaming path does not stop, both paths agree, and the streamed text deltas add up to the collected text |
| PathAgreement.StopReasonsAgree | index.ts:836-841 | tool_calls and stop end the stream with the stop reason the aggregator reports for them |
| PathAgreement.CompleteCallAgrees | index.ts:793-799 | complete, decodable arguments give the same id, name and input on both paths |
| PathAgreement.IncompleteCallDiverges | index.ts:800-807 | unbalanced arguments give no block on the streaming path and the raw string on the aggregator |

## Left out

- `cli.ts` is not part of this model. It holds the interactive setup commands, file creation, `.env` rewriting, prompts and process spawning, all input/output.
- Startup and configuration (`index.ts:9-51`) are not modelled. The sampling overrides are taken as `Option` values in `Messages.Overrides`.
- `loadReplacements` (`index.ts:59-97`) reads the file system; the rule list is an input.
- Logging (`log`, `logToFile`, `truncateTextLogFile`) is left out; it has no effect on what is sent.
- The HTTP server, routing, `fetch`, the body reader, UTF-8 decoding and the response headers are left out. A connection's input is a sequence of decoded string reads.
- The backend error pass-through (`index.ts:510-521`) is left out as HTTP plumbing.
- `JSON.parse` and `JSON.stringify` are parameters (`decode`, `parseArgs`, `stringify`), not definitions.
- The wire encoding of each client event is left out; events are a datatype.
- Only `choices[0]` of a record is modelled, and a record is its already decoded fields. A record whose fields have unexpected types is not modelled.
- The `Date.now()` message id is left out of `AggregateSpec.Response`.
- JSON numbers inside carried values (`Json.JNumber`) are integers. The gateway only passes these values between `JSON.parse` and `JSON.stringify`, so fractional and exponent forms are not modelled.
- Token counts are unbounded naturals and sampling values opaque reals; JavaScript's double-precision numbers are not modelled.
- Strings are sequences of Dafny characters, not UTF-16 code units.
- PathAgreement.LinesAgree: covers only batches without a `[DONE]` line. Past one, the streaming path drops the rest of the batch while the aggregator reads on (`StreamProperties.LinesAfterDoneDropped`, `AggregateProperties.DoneLineIsTransparent`).
