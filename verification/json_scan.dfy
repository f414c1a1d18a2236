/**
 * The brace-balance scanner that decides whether accumulated tool-call
 * arguments look like complete JSON. One step of the scanner is shared by
 * the one-shot check (`isCompleteJsonString`) and by the incremental scan
 * the streaming translator runs over each argument slice; only the one-shot
 * check gives up as soon as the depth goes below zero.
 */
module JsonScan {
  import opened Text

  /** Brace depth, inside-a-string flag, and "previous character was a backslash". */
  datatype ScanState = ScanState(depth: int, inString: bool, escapeNext: bool)

  const Start := ScanState(0, false, false)

  /** One character of the scan: an escaped character is skipped, a backslash
      escapes the next one, a quote toggles the string flag, and braces count
      only outside strings. */
  function Step(s: ScanState, c: char): ScanState
  {
    if s.escapeNext then s.(escapeNext := false)
    else if c == '\\' then s.(escapeNext := true)
    else if c == '"' then s.(inString := !s.inString)
    else if s.inString then s
    else if c == '{' then s.(depth := s.depth + 1)
    else if c == '}' then s.(depth := s.depth - 1)
    else s
  }

  /** The state after scanning `text` from `s`, one character after the other. */
  function ScanFrom(s: ScanState, text: string): ScanState
    decreases |text|
  {
    if text == [] then s else Step(ScanFrom(s, text[..|text| - 1]), text[|text| - 1])
  }

  /** Scanning one more character of a text is one more step. */
  lemma ScanSnoc(s: ScanState, text: string, k: nat)
    requires k < |text|
    ensures ScanFrom(s, text[..k + 1]) == Step(ScanFrom(s, text[..k]), text[k])
  {
    assert text[..k + 1][..k] == text[..k];
  }

  /** Scanning two slices one after the other is one pass over their concatenation. */
  lemma {:induction false} ScanAppend(s: ScanState, a: string, b: string)
    ensures ScanFrom(s, a + b) == ScanFrom(ScanFrom(s, a), b)
    decreases |b|
  {
    if b != [] {
      var b' := b[..|b| - 1];
      assert (a + b)[..|a + b| - 1] == a + b';
      assert (a + b)[|a + b| - 1] == b[|b| - 1];
      ScanAppend(s, a, b');
    } else {
      assert a + b == a;
    }
  }

  /** The cases of one step: a character after a backslash only clears the
      escape flag, an unescaped backslash sets it, an unescaped quote toggles
      the string flag, and the depth moves by one exactly for an unescaped
      brace outside a string. */
  lemma StepCases(s: ScanState, c: char)
    ensures s.escapeNext ==> Step(s, c) == s.(escapeNext := false)
    ensures !s.escapeNext && c == '\\' ==> Step(s, c) == s.(escapeNext := true)
    ensures !s.escapeNext && c == '"' ==> Step(s, c) == s.(inString := !s.inString)
    ensures Step(s, c).depth != s.depth <==> !s.escapeNext && !s.inString && (c == '{' || c == '}')
    ensures Step(s, c).depth != s.depth ==> Step(s, c).depth == s.depth + (if c == '{' then 1 else -1)
  {
  }

  /** Scanning a text moves the depth by at most its length either way. */
  lemma {:induction false} ScanMovesDepthByAtMostLength(s: ScanState, text: string)
    ensures s.depth - |text| <= ScanFrom(s, text).depth <= s.depth + |text|
    decreases |text|
  {
    if text != [] {
      ScanMovesDepthByAtMostLength(s, text[..|text| - 1]);
      StepCases(ScanFrom(s, text[..|text| - 1]), text[|text| - 1]);
    }
  }

  /** A character right after a backslash changes nothing but the escape flag. */
  lemma EscapedCharacterIsInert(s: ScanState, c: char)
    requires !s.escapeNext
    ensures Step(Step(s, '\\'), c) == s
  {
  }

  /** Inside a string, text without quotes or backslashes (braces included) leaves the state alone. */
  lemma {:induction false} QuotedTextIsInert(s: ScanState, text: string)
    requires s.inString && !s.escapeNext
    requires forall i :: 0 <= i < |text| ==> text[i] != '"' && text[i] != '\\'
    ensures ScanFrom(s, text) == s
    decreases |text|
  {
    if text != [] {
      QuotedTextIsInert(s, text[..|text| - 1]);
    }
  }

  /** Some non-empty prefix of `text` scans to a negative depth. */
  predicate DipsBelowZero(text: string)
    decreases |text|
  {
    |text| > 0 && (DipsBelowZero(text[..|text| - 1]) || ScanFrom(Start, text).depth < 0)
  }

  lemma {:induction false} DipsBelowZeroIffSomePrefix(text: string)
    ensures DipsBelowZero(text) <==> exists k :: 0 < k <= |text| && ScanFrom(Start, text[..k]).depth < 0
    decreases |text|
  {
    if text != [] {
      var init := text[..|text| - 1];
      DipsBelowZeroIffSomePrefix(init);
      assert text[..|text|] == text;
      if DipsBelowZero(init) {
        var k :| 0 < k <= |init| && ScanFrom(Start, init[..k]).depth < 0;
        assert init[..k] == text[..k];
      }
      if k :| 0 < k <= |text| && ScanFrom(Start, text[..k]).depth < 0 {
        if k < |text| {
          assert init[..k] == text[..k];
        }
      }
    }
  }

  /** Once the depth has gone negative, no continuation undoes it. */
  lemma {:induction false} DipIsPermanent(a: string, b: string)
    requires DipsBelowZero(a)
    ensures DipsBelowZero(a + b)
    decreases |b|
  {
    if b != [] {
      var b' := b[..|b| - 1];
      DipIsPermanent(a, b');
      assert (a + b)[..|a + b| - 1] == a + b';
    } else {
      assert a + b == a;
    }
  }

  /** What `isCompleteJsonString` decides: not blank, never below depth zero,
      and at the end back at depth zero outside any string. */
  predicate IsCompleteJson(text: string)
    ensures IsCompleteJson(text) ==> text != [] && StreamReady(ScanFrom(Start, text))
  {
    var end := ScanFrom(Start, text);
    !IsBlank(text) && !DipsBelowZero(text) && end.depth == 0 && !end.inString
  }

  /** The test the streaming translator applies to an entry's incremental scan state. */
  predicate StreamReady(s: ScanState) {
    s.depth == 0 && !s.inString
  }

  /** `isCompleteJsonString`, with its counter, string flag and escape flag. */
  method IsCompleteJsonString(text: string) returns (complete: bool)
    ensures complete <==> IsCompleteJson(text)
  {
    if text == [] || Trim(text) == [] {
      BlankIsIncomplete(text);
      return false;
    }
    TrimmedIsNotBlank(text);
    var braceCount := 0;
    var inString := false;
    var escapeNext := false;
    var i := 0;
    while i < |text|
      invariant 0 <= i <= |text|
      invariant ScanState(braceCount, inString, escapeNext) == ScanFrom(Start, text[..i])
      invariant braceCount >= 0 && !DipsBelowZero(text[..i])
    {
      ScanSnoc(Start, text, i);
      braceCount, inString, escapeNext := ScanChar(braceCount, inString, escapeNext, text[i]);
      // Only a closing brace lowers the count, so this is the check the
      // closing-brace branch makes.
      if braceCount < 0 {
        DipRuinsText(text, i);
        return false;
      }
      NoDipYet(text, i);
      i := i + 1;
    }
    assert text[..i] == text;
    complete := braceCount == 0 && !inString;
  }

  /** One character of the scanning loop, branch by branch as `Step` states it. */
  method ScanChar(braceCount: int, inString: bool, escapeNext: bool, c: char)
    returns (depth: int, quoted: bool, escaped: bool)
    ensures ScanState(depth, quoted, escaped) == Step(ScanState(braceCount, inString, escapeNext), c)
    ensures depth < braceCount ==> c == '}'
  {
    depth, quoted, escaped := braceCount, inString, escapeNext;
    if escapeNext {
      escaped := false;
    } else if c == '\\' {
      escaped := true;
    } else if c == '"' {
      quoted := !inString;
    } else if inString {
    } else if c == '{' {
      depth := braceCount + 1;
    } else if c == '}' {
      depth := braceCount - 1;
    }
  }

  /** An empty or blank text is never complete. */
  lemma BlankIsIncomplete(text: string)
    requires text == [] || Trim(text) == []
    ensures !IsCompleteJson(text)
  {
    TrimEmptyIffBlank(text);
  }

  lemma TrimmedIsNotBlank(text: string)
    requires Trim(text) != []
    ensures !IsBlank(text)
  {
    TrimEmptyIffBlank(text);
  }

  /** A prefix that never went below zero and ends at a non-negative depth
      does not dip when one more character is taken. */
  lemma NoDipYet(text: string, i: nat)
    requires i < |text| && !DipsBelowZero(text[..i]) && ScanFrom(Start, text[..i + 1]).depth >= 0
    ensures !DipsBelowZero(text[..i + 1])
  {
    assert text[..i + 1][..i] == text[..i];
  }

  /** A prefix that scans below depth zero makes the whole text incomplete. */
  lemma DipRuinsText(text: string, i: nat)
    requires i < |text| && ScanFrom(Start, text[..i + 1]).depth < 0
    ensures !IsCompleteJson(text)
  {
    assert text[..i + 1][..i] == text[..i];
    DipIsPermanent(text[..i + 1], text[i + 1..]);
    assert text[..i + 1] + text[i + 1..] == text;
  }

  /** `{"a":"}"}` is complete: the brace inside the quotes does not count. */
  lemma QuotedBraceExample()
    ensures IsCompleteJson("{\"a\":\"}\"}")
  {
    var t := "{\"a\":\"}\"}";
    var states := [Start, ScanState(1, false, false), ScanState(1, true, false), ScanState(1, true, false),
                   ScanState(1, false, false), ScanState(1, false, false), ScanState(1, true, false),
                   ScanState(1, true, false), ScanState(1, false, false), ScanState(0, false, false)];
    assert t[..0] == [];
    for k := 0 to |t|
      invariant forall j :: 0 <= j <= k ==> ScanFrom(Start, t[..j]) == states[j]
    {
      ScanSnoc(Start, t, k);
    }
    DipsBelowZeroIffSomePrefix(t);
    assert t[..9] == t;
    assert !IsJsWhitespace(t[0]);
  }

  /** `{"a":1,` is not complete: its brace is still open. */
  lemma OpenObjectExample()
    ensures !IsCompleteJson("{\"a\":1,")
  {
    var t := "{\"a\":1,";
    var states := [Start, ScanState(1, false, false), ScanState(1, true, false), ScanState(1, true, false),
                   ScanState(1, false, false), ScanState(1, false, false), ScanState(1, false, false),
                   ScanState(1, false, false)];
    assert t[..0] == [];
    for k := 0 to |t|
      invariant ScanFrom(Start, t[..k]) == states[k]
    {
      ScanSnoc(Start, t, k);
    }
    assert t[..7] == t;
  }

  /** `}{` is not complete although its depth returns to zero, yet the
      streaming test, which has no such latch, accepts its scan state. */
  lemma ReversedBracesExample()
    ensures !IsCompleteJson("}{")
    ensures StreamReady(ScanFrom(Start, "}{"))
  {
    var t := "}{";
    assert t[..0] == [];
    ScanSnoc(Start, t, 0);
    ScanSnoc(Start, t, 1);
    assert t[..2] == t;
    assert DipsBelowZero(t[..1]);
    assert t[..1] + t[1..] == t;
    DipIsPermanent(t[..1], t[1..]);
  }
}
