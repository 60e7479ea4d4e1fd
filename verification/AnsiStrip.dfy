/** The two-stage stripper of packages/tui/src/ansi-scan.ts. */
module AnsiStrip {
  import opened Std
  import opened AnsiScan
  import opened Subsequences

  predicate LineBreak(c: int) { c == 0x0a || c == 0x0d || c == 0x2028 || c == 0x2029 }

  /** The end of a match of `ESC [ parameters final` at `i`: no intermediates. */
  function CommonCsiStop(s: Text, j: nat): (stop: nat)
    requires j <= |s|
    ensures j <= stop <= |s| && forall k :: j <= k < stop ==> Parameter(s[k])
    decreases |s| - j
  {
    if j < |s| && Parameter(s[j]) then CommonCsiStop(s, j + 1) else j
  }

  function CommonCsiEnd(s: Text, i: nat): (end: Option<nat>)
    ensures end.Some? ==> i + 3 <= end.value <= |s| && At(s, i) == ESC && At(s, i + 1) == LBRACKET
  {
    if At(s, i) == ESC && At(s, i + 1) == LBRACKET then
      var stop := CommonCsiStop(s, i + 2);
      if stop < |s| && Final(s[stop]) then Some(stop + 1) else None
    else None
  }

  /** `replace(COMMON_CSI_REGEX, "")` from `i` on: leftmost matches, each removed. */
  function RemoveCommonCsi(s: Text, i: nat): Text
    decreases |s| - i
  {
    if i >= |s| then []
    else
      match CommonCsiEnd(s, i)
      case Some(e) => RemoveCommonCsi(s, e)
      case None => [s[i]] + RemoveCommonCsi(s, i + 1)
  }

  /** What the second stage keeps of `s[i..]`. */
  function RemoveEscapes(s: Text, i: nat): Text
    decreases |s| - i
  {
    if i >= |s| then []
    else if s[i] != ESC then [s[i]] + RemoveEscapes(s, i + 1)
    else
      match AnsiEnd(s, i)
      case Some(e) => RemoveEscapes(s, e)
      case None =>
        if i + 1 < |s| && !LineBreak(s[i + 1]) then RemoveEscapes(s, i + 2)
        else [ESC] + RemoveEscapes(s, i + 1)
  }

  /** Where the second stage goes on after `i`. */
  function NextUnit(s: Text, i: nat): (next: nat)
    requires i < |s|
    ensures i < next <= |s|
  {
    if s[i] != ESC then i + 1
    else
      match AnsiEnd(s, i)
      case Some(e) => e
      case None => if i + 1 < |s| && !LineBreak(s[i + 1]) then i + 2 else i + 1
  }

  /** Whether the second stage keeps the unit at `i`. */
  predicate Kept(s: Text, i: nat)
    requires i < |s|
  {
    s[i] != ESC || (AnsiEnd(s, i).None? && (i + 1 == |s| || LineBreak(s[i + 1])))
  }

  lemma OneUnit(s: Text, i: nat)
    requires i < |s|
    ensures RemoveEscapes(s, i) == (if Kept(s, i) then [s[i]] else []) + RemoveEscapes(s, NextUnit(s, i))
  {
  }

  function Strip(s: Text): Text {
    RemoveEscapes(RemoveCommonCsi(s, 0), 0)
  }

  /** `indexOf` for ESC. */
  method IndexOfEscape(s: Text, from: nat) returns (index: int)
    ensures index == -1 ==> forall k :: from <= k < |s| ==> s[k] != ESC
    ensures index != -1 ==> from <= index < |s| && s[index] == ESC && forall k :: from <= k < index ==> s[k] != ESC
  {
    index := from;
    while index < |s|
      invariant from <= index && forall k :: from <= k < index && k < |s| ==> s[k] != ESC
    {
      if s[index] == ESC {
        return;
      }
      index := index + 1;
    }
    index := -1;
  }

  /** The slicing loop: plain stretches are copied whole, from `plainStart` to the next removed escape. */
  method StripAnsi(str: Text) returns (result: Text)
    ensures result == Strip(str)
  {
    var first := IndexOfEscape(str, 0);
    if first == -1 {
      CommonCsiStageKeepsPlain(str, 0);
      EscapesStageKeepsPlain(str, 0);
      return str;
    }
    var input := RemoveCommonCsi(str, 0);
    var escapeIndex := IndexOfEscape(input, 0);
    if escapeIndex == -1 {
      EscapesStageKeepsPlain(input, 0);
      return input;
    }
    result := [];
    var plainStart := 0;
    var scan := new AnsiScanState();
    HeldSkip(input, result, 0, 0, escapeIndex);
    while escapeIndex != -1
      invariant 0 <= plainStart <= |input| && -1 <= escapeIndex < |input|
      invariant fresh(scan) && scan.Valid(input)
      invariant escapeIndex != -1 ==> plainStart <= escapeIndex && input[escapeIndex] == ESC
      invariant Held(input, result, plainStart, if escapeIndex == -1 then |input| else escapeIndex)
      decreases if escapeIndex == -1 then 0 else |input| - escapeIndex
    {
      var ansiEnd := scan.ExtractAnsiEndAt(input, escapeIndex);
      ghost var from := NextUnit(input, escapeIndex);
      HeldNext(input, result, plainStart, escapeIndex);
      if ansiEnd.Some? {
        if plainStart < escapeIndex {
          result := result + input[plainStart..escapeIndex];
        }
        plainStart := ansiEnd.value;
      } else if escapeIndex + 1 < |input| && !LineBreak(input[escapeIndex + 1]) {
        if plainStart < escapeIndex {
          result := result + input[plainStart..escapeIndex];
        }
        plainStart := escapeIndex + 2;
      }
      escapeIndex := IndexOfEscape(input, Max(escapeIndex + 1, plainStart));
      HeldSkip(input, result, plainStart, from, if escapeIndex == -1 then |input| else escapeIndex);
    }
    if plainStart < |input| {
      result := result + input[plainStart..];
    }
  }

  /** What the loop maintains: `result` and the pending plain stretch are the second stage's output up to `at`. */
  ghost predicate Held(input: Text, result: Text, plainStart: nat, at: nat) {
    && plainStart <= at <= |input|
    && result + input[plainStart..at] + RemoveEscapes(input, at) == RemoveEscapes(input, 0)
  }

  lemma HeldSkip(input: Text, result: Text, plainStart: nat, from: nat, to: nat)
    requires Held(input, result, plainStart, from) || (result == [] && plainStart == from == 0)
    requires from <= to <= |input| && forall k :: from <= k < to ==> input[k] != ESC
    ensures Held(input, result, plainStart, to)
  {
    PlainKept(input, from, to);
    assert input[plainStart..to] == input[plainStart..from] + input[from..to];
    assert result + input[plainStart..from] + (input[from..to] + RemoveEscapes(input, to))
        == result + input[plainStart..to] + RemoveEscapes(input, to);
  }

  lemma HeldNext(input: Text, result: Text, plainStart: nat, at: nat)
    requires Held(input, result, plainStart, at) && at < |input|
    ensures Kept(input, at) ==> Held(input, result, plainStart, NextUnit(input, at))
    ensures var flushed := if plainStart < at then result + input[plainStart..at] else result;
            !Kept(input, at) ==> Held(input, flushed, NextUnit(input, at), NextUnit(input, at))
  {
    OneUnit(input, at);
    var pending, next := input[plainStart..at], NextUnit(input, at);
    if Kept(input, at) {
      assert input[plainStart..next] == pending + [input[at]];
      ConcatAssociative(result, pending, [input[at]]);
      ConcatAssociative(result + pending, [input[at]], RemoveEscapes(input, next));
    } else {
      assert pending == [] || plainStart < at;
      assert input[next..next] == [];
    }
  }

  lemma {:induction false} CommonCsiStageKeepsPlain(s: Text, i: nat)
    requires i <= |s| && forall k :: i <= k < |s| ==> s[k] != ESC
    ensures RemoveCommonCsi(s, i) == s[i..]
    decreases |s| - i
  {
    if i < |s| {
      CommonCsiStageKeepsPlain(s, i + 1);
    }
  }

  lemma EscapesStageKeepsPlain(s: Text, i: nat)
    requires i <= |s| && forall k :: i <= k < |s| ==> s[k] != ESC
    ensures RemoveEscapes(s, i) == s[i..]
  {
    PlainKept(s, i, |s|);
  }

  lemma {:induction false} PlainKept(s: Text, i: nat, j: nat)
    requires i <= j <= |s| && forall k :: i <= k < j ==> s[k] != ESC
    ensures RemoveEscapes(s, i) == s[i..j] + RemoveEscapes(s, j)
    decreases j - i
  {
    if i == j {
      assert s[i..j] == [];
    } else {
      var first, others := [s[i]], s[i + 1..j];
      assert s[i..j] == first + others;
      PlainKept(s, i + 1, j);
      PlainStep(s, i);
      ConcatAssociative(first, others, RemoveEscapes(s, j));
    }
  }

  lemma PlainStep(s: Text, i: nat)
    requires i < |s| && s[i] != ESC
    ensures RemoveEscapes(s, i) == [s[i]] + RemoveEscapes(s, i + 1)
  {
  }

  // ------------------------------------------------------------------------------------------
  // What is left
  // ------------------------------------------------------------------------------------------

  /** Every ESC of the text is its last unit or stands directly before a line break. */
  predicate EscapesInert(s: Text) {
    forall k :: 0 <= k < |s| && s[k] == ESC ==> k == |s| - 1 || LineBreak(s[k + 1])
  }

  lemma {:induction false} RemoveEscapesInert(s: Text, i: nat)
    requires i <= |s|
    ensures EscapesInert(RemoveEscapes(s, i))
    ensures i < |s| && s[i] != ESC ==> RemoveEscapes(s, i) != [] && RemoveEscapes(s, i)[0] == s[i]
    decreases |s| - i
  {
    if i < |s| {
      RemoveEscapesInert(s, NextUnit(s, i));
    }
  }

  lemma {:induction false} InertUntouched(s: Text, i: nat)
    requires i <= |s| && EscapesInert(s)
    ensures RemoveCommonCsi(s, i) == s[i..] && RemoveEscapes(s, i) == s[i..]
    decreases |s| - i
  {
    if i < |s| {
      InertUntouched(s, i + 1);
      InertStep(s, i);
      assert s[i..] == [s[i]] + s[i + 1..];
    }
  }

  lemma InertStep(s: Text, i: nat)
    requires i < |s| && EscapesInert(s)
    ensures AnsiEnd(s, i).None? && CommonCsiEnd(s, i).None?
    ensures s[i] == ESC && i + 1 < |s| ==> LineBreak(s[i + 1])
  {
  }

  lemma {:induction false} NoCommonCsi(s: Text, i: nat)
    requires i <= |s| && forall k: nat :: i <= k < |s| ==> CommonCsiEnd(s, k).None?
    ensures RemoveCommonCsi(s, i) == s[i..]
    decreases |s| - i
  {
    if i < |s| {
      NoCommonCsi(s, i + 1);
      assert CommonCsiEnd(s, i).None?;
    }
  }

  /**
   * An ESC in front of a unit that opens no sequence goes, and the unit with it; in front of a line break both stay.
   * The text around it is kept.
   */
  lemma LoneEscape(a: Text, c: CodeUnit, b: Text)
    requires 0x1b !in a && 0x1b !in b && c !in [0x1b, 0x5b, 0x5d, 0x5f, 0x50, 0x5e, 0x58]
    ensures Strip(a + [0x1b, c] + b)
         == if c == 0x0a || c == 0x0d || c == 0x2028 || c == 0x2029 then a + [0x1b, c] + b else a + b
  {
    var s := a + [0x1b, c] + b;
    assert forall k: nat :: k < |s| && s[k] == ESC ==> k == |a|;
    NoCommonCsi(s, 0);
    assert s[0..] == s;
    LoneEscapeLeft(s, |a|, c);
    assert s[..|a|] == a && s[|a|..] == [0x1b, c] + b && s[|a| + 2..] == b;
    ConcatAssociative(a, [0x1b, c], b);
  }

  lemma LoneEscapeLeft(s: Text, i: nat, c: CodeUnit)
    requires i + 1 < |s| && s[i] == 0x1b && s[i + 1] == c && c !in [0x1b, 0x5b, 0x5d, 0x5f, 0x50, 0x5e, 0x58]
    requires forall k: nat :: k < |s| && s[k] == ESC ==> k == i
    ensures RemoveEscapes(s, 0)
         == s[..i] + if c == 0x0a || c == 0x0d || c == 0x2028 || c == 0x2029 then s[i..] else s[i + 2..]
  {
    hide AnsiEnd, RemoveEscapes;
    PlainKept(s, 0, i);
    assert s[0..i] == s[..i];
    NoSequence(s, i);
    OneUnit(s, i);
    EscapesStageKeepsPlain(s, i + if LineBreak(c) then 1 else 2);
    assert s[i..] == [s[i]] + s[i + 1..];
  }

  lemma NoSequence(s: Text, i: nat)
    requires i + 1 < |s| && s[i + 1] !in [0x5b, 0x5d, 0x5f, 0x50, 0x5e, 0x58]
    ensures AnsiEnd(s, i).None?
  {
    hide ControlEnd, CsiEnd;
  }

  /** Stripping leaves only inert escapes, so a text is left alone exactly when its escapes are inert already. */
  lemma StripFixesExactlyInert(s: Text)
    ensures EscapesInert(Strip(s))
    ensures Strip(s) == s <==> EscapesInert(s)
  {
    RemoveEscapesInert(RemoveCommonCsi(s, 0), 0);
    if EscapesInert(s) {
      InertUntouched(s, 0);
      assert s[0..] == s;
    }
  }

  lemma StripIdempotent(s: Text)
    ensures Strip(Strip(s)) == Strip(s)
  {
    StripFixesExactlyInert(s);
    StripFixesExactlyInert(Strip(s));
  }

  lemma {:induction false} RemoveCommonCsiSubsequence(s: Text, i: nat)
    requires i <= |s|
    ensures Subsequence(RemoveCommonCsi(s, i), s[i..])
    decreases |s| - i
  {
    if i < |s| {
      match CommonCsiEnd(s, i)
      case Some(e) =>
        RemoveCommonCsiSubsequence(s, e);
        assert s[i..][e - i..] == s[e..];
        SubsequenceSkip(RemoveCommonCsi(s, e), s[i..], e - i);
      case None =>
        RemoveCommonCsiSubsequence(s, i + 1);
        assert s[i..][1..] == s[i + 1..];
        SubsequenceCons(s[i], RemoveCommonCsi(s, i + 1), s[i..]);
    }
  }

  lemma {:induction false} RemoveEscapesSubsequence(s: Text, i: nat)
    requires i <= |s|
    ensures Subsequence(RemoveEscapes(s, i), s[i..])
    decreases |s| - i
  {
    if i < |s| {
      var next := NextUnit(s, i);
      OneUnit(s, i);
      RemoveEscapesSubsequence(s, next);
      assert s[i..][next - i..] == s[next..];
      if Kept(s, i) {
        SubsequenceCons(s[i], RemoveEscapes(s, i + 1), s[i..]);
      } else {
        SubsequenceSkip(RemoveEscapes(s, next), s[i..], next - i);
      }
    }
  }

  /** Stripping only removes. */
  lemma StripIsSubsequence(s: Text)
    ensures Subsequence(Strip(s), s)
  {
    var input := RemoveCommonCsi(s, 0);
    RemoveCommonCsiSubsequence(s, 0);
    RemoveEscapesSubsequence(input, 0);
    assert s[0..] == s && input[0..] == input;
    SubsequenceTransitive(Strip(s), input, s);
  }
}
