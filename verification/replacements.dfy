/**
 * `applyReplacements`: the exact-match rewrite of message text applied to a
 * client request before it is translated. The rule list is loaded once at
 * startup and given here as a sequence.
 */
module Replacements {
  import opened Wrappers
  import opened Messages

  datatype Rule = Rule(original: string, updated: string)

  /** The replacement of the first rule whose original is exactly `text`. */
  function FirstMatch(rules: seq<Rule>, text: string): (r: Option<string>)
    ensures r.Some? <==> exists i :: 0 <= i < |rules| && rules[i].original == text
    ensures r.Some? ==> exists i :: 0 <= i < |rules| && rules[i].original == text && r.value == rules[i].updated
                                   && forall j :: 0 <= j < i ==> rules[j].original != text
    decreases |rules|
  {
    if rules == [] then None
    else if rules[0].original == text then Some(rules[0].updated)
    else
      var r := FirstMatch(rules[1..], text);
      assert forall i :: 0 < i < |rules| ==> rules[i] == rules[1..][i - 1];
      r
  }

  function RewriteText(rules: seq<Rule>, text: string): string {
    FirstMatch(rules, text).GetOr(text)
  }

  /** Only a text block is rewritten; every other block is kept as it is. */
  function RewriteBlock(rules: seq<Rule>, b: Block): (r: Block)
    ensures b.TextBlock? ==> r == TextBlock(RewriteText(rules, b.text))
    ensures !b.TextBlock? ==> r == b
  {
    match b
    case TextBlock(text) => TextBlock(RewriteText(rules, text))
    case _ => b
  }

  function RewriteMessage(rules: seq<Rule>, m: ClientMessage): (r: ClientMessage)
    ensures r.role == m.role
    ensures m.content.StringContent? ==> r.content == StringContent(RewriteText(rules, m.content.text))
    ensures m.content.BlockContent? ==> r.content.BlockContent? && |r.content.blocks| == |m.content.blocks|
    ensures m.content.BlockContent? ==> forall k :: 0 <= k < |m.content.blocks| ==>
              r.content.blocks[k] == RewriteBlock(rules, m.content.blocks[k])
  {
    match m.content
    case StringContent(text) => m.(content := StringContent(RewriteText(rules, text)))
    case BlockContent(blocks) =>
      m.(content := BlockContent(seq(|blocks|, k requires 0 <= k < |blocks| => RewriteBlock(rules, blocks[k]))))
  }

  /** `applyReplacements`: the same messages, in the same order and with the same
      roles, each string content or text block exactly equal to a rule's original
      replaced by the first such rule; with no rules the list is returned as is. */
  function ApplyReplacements(messages: seq<ClientMessage>, rules: seq<Rule>): (r: seq<ClientMessage>)
    ensures |r| == |messages|
    ensures forall i :: 0 <= i < |messages| ==> r[i].role == messages[i].role
    ensures forall i :: 0 <= i < |messages| ==> r[i] == RewriteMessage(rules, messages[i])
    ensures rules == [] ==> r == messages
  {
    if rules == [] then messages
    else seq(|messages|, i requires 0 <= i < |messages| => RewriteMessage(rules, messages[i]))
  }

  /** With no rule matching, a message is unchanged. */
  lemma {:induction false} RewriteWithoutMatchIsIdentity(rules: seq<Rule>, m: ClientMessage)
    requires forall i :: 0 <= i < |rules| ==> rules[i].original !in TextsOf(m)
    ensures RewriteMessage(rules, m) == m
  {
    match m.content
    case StringContent(text) =>
      assert text in TextsOf(m);
    case BlockContent(blocks) =>
      var r := RewriteMessage(rules, m).content.blocks;
      forall k | 0 <= k < |blocks| ensures r[k] == blocks[k] {
        if blocks[k].TextBlock? {
          assert blocks[k].text in TextsOf(m);
        }
      }
      assert r == blocks;
  }

  /** The texts a rule can match in a message: its string content or its text blocks. */
  function TextsOf(m: ClientMessage): set<string> {
    match m.content
    case StringContent(text) => {text}
    case BlockContent(blocks) => set k | 0 <= k < |blocks| && blocks[k].TextBlock? :: blocks[k].text
  }
}
