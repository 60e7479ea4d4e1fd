/**
 * What the tracker of packages/tui/src/ansi-scan.ts is for: the codes it writes
 * at a line start put a fresh reader into the very state it stands for.
 */
module AnsiReplay {
  import opened Std
  import opened AnsiScan
  import opened AnsiTracker

  // ------------------------------------------------------------------------------------------
  // One written sequence at a time
  // ------------------------------------------------------------------------------------------

  lemma SgrSequenceComplete(params: Text)
    requires SgrText(params)
    ensures AnsiEnd(SgrSequence(params), 0) == Some(|SgrSequence(params)|)
  {
    var s := SgrSequence(params);
    assert CsiShape(s, 2, |s| - 1, |s| - 1);
    CsiEndIffGrammar(s, 2, |s|);
  }

  lemma {:induction false} SgrGroupEndAt(code: Text, j: nat, end: nat)
    requires j <= end < |code| && !SgrUnit(code[end]) && forall i :: j <= i < end ==> SgrUnit(code[i])
    ensures SgrGroupEnd(code, j) == end
    decreases end - j
  {
    if j < end {
      SgrGroupEndAt(code, j + 1, end);
    }
  }

  lemma ProcessSgrSequence(st: TrackerState, params: Text)
    requires SgrText(params)
    ensures ProcessCode(st, SgrSequence(params)) == ApplySgr(st, params)
  {
    var s := SgrSequence(params);
    assert s[1] != OSC8[1];
    assert !StartsWith(s, OSC8);
    SgrGroupEndAt(s, 2, |s| - 1);
    assert s[2..|s| - 1] == params;
  }

  lemma ApplySgrIsParts(st: TrackerState, params: Text)
    requires params != []
    ensures ApplySgr(st, params) == ApplyParts(st, Split(params))
  {
    if params == [0x30] {
      OneDigit(0x30);
      ApplyOnePart(st, params);
      assert ApplyCode(st, Some(0)) == ResetStyle(st);
    }
  }

  predicate CodeTexts(codes: seq<Text>) {
    forall i :: 0 <= i < |codes| ==> codes[i] != [] && SgrText(codes[i])
  }

  lemma {:induction false} JoinCodeTexts(codes: seq<Text>)
    requires |codes| >= 1 && CodeTexts(codes)
    ensures Join(codes) != [] && SgrText(Join(codes))
  {
    if |codes| > 1 {
      JoinCodeTexts(codes[1..]);
    }
  }

  lemma {:induction false} ListCodesAreTexts(list: seq<(bool, CodeUnit)>, k: nat)
    requires k <= |list| && forall i :: 0 <= i < |list| ==> Digit(list[i].1)
    ensures CodeTexts(ListCodes(list, k))
  {
    if k > 0 {
      ListCodesAreTexts(list, k - 1);
    }
  }

  lemma StyleCodesAreTexts(st: TrackerState)
    requires StateOk(st)
    ensures CodeTexts(StyleCodes(st))
  {
    var n := |FlagList(st.flags)|;
    ListCodesAreTexts(FlagList(st.flags), n);
    ListCodesAreFlagCodes(st.flags, n);
    assert CodeTexts(FlagCodes(st.flags));
    assert CodeTexts(ColorCode(st.fg)) && CodeTexts(ColorCode(st.bg));
  }

  lemma RunStyle(under: TrackerState, over: TrackerState, rest: Text)
    requires StateOk(over)
    ensures RunText(under, StyleText(over) + rest) == RunText(Overlay(under, over), rest)
  {
    var codes := StyleCodes(over);
    StyleCodesOverlay(under, over);
    if codes == [] {
      assert StyleText(over) + rest == rest;
    } else {
      StyleCodesAreTexts(over);
      JoinCodeTexts(codes);
      ApplyJoined(under, codes);
      RunSgr(under, Join(codes), rest);
      ApplySgrIsParts(under, Join(codes));
    }
  }

  lemma RunSgr(st: TrackerState, params: Text, rest: Text)
    requires SgrText(params)
    ensures RunText(st, SgrSequence(params) + rest) == RunText(ApplySgr(st, params), rest)
  {
    SgrSequenceComplete(params);
    ProcessSgrSequence(st, params);
    RunCode(st, SgrSequence(params), rest);
  }

  lemma ParseFormatted(link: Hyperlink)
    requires LinkOk(link)
    ensures ParseOsc8Hyperlink(FormatOsc8Hyperlink(link)) == Opening(link)
  {
    var code := FormatOsc8Hyperlink(link);
    var body := link.params + [SEMICOLON] + link.url;
    var drop := if link.bel then 1 else 2;
    Regroup(OSC8, link.params, [SEMICOLON], link.url, TerminatorText(link.bel));
    assert code == OSC8 + body + TerminatorText(link.bel);
    assert StartsWith(code, OSC8);
    assert code[|code| - 1..] == [code[|code| - 1]];
    assert EndsWith(code, [BEL]) == link.bel;
    assert SliceDroppingEnd(code, 4, drop) == body;
    FirstSemicolon(body, |link.params|);
    assert body[..|link.params|] == link.params && body[|link.params| + 1..] == link.url;
  }

  lemma RunLink(st: TrackerState, link: Hyperlink, rest: Text)
    requires LinkOk(link)
    ensures RunText(st, FormatOsc8Hyperlink(link) + rest) == RunText(st.(link := Some(link)), rest)
  {
    ParseFormatted(link);
    RunCode(st, FormatOsc8Hyperlink(link), rest);
  }

  lemma RunClose(st: TrackerState, bel: bool, rest: Text)
    ensures RunText(st, FormatOsc8Close(bel) + rest) == RunText(st.(link := None), rest)
  {
    var code := FormatOsc8Close(bel);
    assert code == OSC8 + [SEMICOLON] + TerminatorText(bel);
    FirstTerminator(code, 2, 5, true);
    assert StartsWith(code, OSC8) && EndsWith(code, [BEL]) == bel;
    var body := SliceDroppingEnd(code, 4, if bel then 1 else 2);
    assert body == [SEMICOLON];
    FirstSemicolon(body, 0);
    RunCode(st, code, rest);
  }

  // ------------------------------------------------------------------------------------------
  // The main results
  // ------------------------------------------------------------------------------------------

  /** Reading what `over` writes lays all of it over the current state. */
  lemma RunActiveCodes(under: TrackerState, over: TrackerState, rest: Text)
    requires StateOk(over)
    ensures var st := Overlay(under, over).(link := if over.link.Some? then over.link else under.link);
            RunText(under, ActiveCodes(over) + rest) == RunText(st, rest)
  {
    assert ActiveCodes(over) + rest == StyleText(over) + (LinkText(over) + rest);
    RunStyle(under, over, LinkText(over) + rest);
    if over.link.Some? {
      RunLink(Overlay(under, over), over.link.value, rest);
    } else {
      assert LinkText(over) + rest == rest;
    }
  }

  /** The written codes followed by any text act on a fresh reader as the text acts on the written state. */
  lemma ActiveCodesRestore(st: TrackerState, rest: Text)
    requires StateOk(st)
    ensures RunText(FRESH, ActiveCodes(st) + rest) == RunText(st, rest)
  {
    RunActiveCodes(FRESH, st, rest);
    assert Overlay(FRESH, st) == st.(link := None);
  }

  lemma RunLineEndReset(st: TrackerState, rest: Text)
    ensures RunText(st, LineEndReset(st) + rest)
         == RunText(st.(flags := st.flags.(underline := false), link := None), rest)
  {
    var off := if st.flags.underline then SgrSequence([0x32, 0x34]) else [];
    var close := if st.link.Some? then FormatOsc8Close(st.link.value.bel) else [];
    assert LineEndReset(st) + rest == off + (close + rest);
    var s1 := st.(flags := st.flags.(underline := false));
    if st.flags.underline {
      RunSgr(st, [0x32, 0x34], close + rest);
      UnderlineOff(st);
    } else {
      assert off + (close + rest) == close + rest;
    }
    if st.link.Some? {
      RunClose(s1, st.link.value.bel, rest);
    } else {
      assert close + rest == rest;
    }
  }

  /** Closing the line and reopening it leaves the reader where it was. */
  lemma LineEndThenActiveCodesRestore(st: TrackerState, rest: Text)
    requires StateOk(st)
    ensures RunText(st, LineEndReset(st) + (ActiveCodes(st) + rest)) == RunText(st, rest)
  {
    RunLineEndReset(st, ActiveCodes(st) + rest);
    var s1 := st.(flags := st.flags.(underline := false), link := None);
    RunActiveCodes(s1, st, rest);
    assert Overlay(s1, st) == st.(link := None);
  }

  lemma UnderlineOff(st: TrackerState)
    ensures ApplySgr(st, [0x32, 0x34]) == st.(flags := st.flags.(underline := false))
  {
    var params := [0x32, 0x34];
    assert params[..1] == [0x32];
    OneDigit(0x32);
    ApplyOnePart(st, params);
    assert ParseInt(params) == Some(24);
  }

  /** A line broken between sequences: what was active is rewritten, and the rest reads as it did unbroken. */
  lemma BrokenLineReadsTheSame(a: Text, b: Text)
    requires Visits(a + b, 0, |a|)
    ensures RunText(FRESH, ActiveCodes(RunText(FRESH, a)) + b) == RunText(FRESH, a + b)
  {
    RunTextKeepsOk(FRESH, a, 0);
    ActiveCodesRestore(RunText(FRESH, a), b);
    RunTextCut(FRESH, a, b);
  }

  lemma {:induction false} NoEscapeNoCodes(s: Text, i: nat)
    requires forall k :: i <= k < |s| ==> s[k] != ESC
    ensures Lex(s, i) == []
    decreases |s| - i
  {
    if i < |s| {
      NoEscapeNoCodes(s, i + 1);
    }
  }

  /** Cutting inside a sequence does lose it: here a red SGR is torn apart. */
  lemma TornSequenceReadsDifferently()
    ensures var a, b := [ESC, LBRACKET, 0x33], [0x31, LOWER_M];
            !Visits(a + b, 0, |a|) && RunText(FRESH, ActiveCodes(RunText(FRESH, a)) + b) != RunText(FRESH, a + b)
  {
    var a: Text, b: Text := [ESC, LBRACKET, 0x33], [0x31, LOWER_M];
    assert a + b == SgrSequence([0x33, 0x31]);
    SgrSequenceComplete([0x33, 0x31]);
    RunSgr(FRESH, [0x33, 0x31], []);
    assert a + b + [] == a + b;
    assert [0x33, 0x31][..1] == [0x33];
    OneDigit(0x33);
    ApplyOnePart(FRESH, [0x33, 0x31]);
    assert ParseInt([0x33, 0x31]) == Some(31);
    assert RunText(FRESH, a + b).fg.Some?;
    NoEscapeNoCodes(a, 1);
    NoEscapeNoCodes(b, 0);
    assert ActiveCodes(FRESH) + b == b;
  }

  // ------------------------------------------------------------------------------------------
  // The tracker itself
  // ------------------------------------------------------------------------------------------

  class AnsiCodeTracker {
    var bold: bool
    var dim: bool
    var italic: bool
    var underline: bool
    var blink: bool
    var inverse: bool
    var hidden: bool
    var strikethrough: bool
    var fgColor: Option<Text>
    var bgColor: Option<Text>
    var activeHyperlink: Option<Hyperlink>

    constructor ()
      ensures State() == FRESH
    {
      bold, dim, italic, underline := false, false, false, false;
      blink, inverse, hidden, strikethrough := false, false, false, false;
      fgColor, bgColor, activeHyperlink := None, None, None;
    }

    ghost function State(): TrackerState
      reads this
    {
      TrackerState(Flags(bold, dim, italic, underline, blink, inverse, hidden, strikethrough),
                   fgColor, bgColor, activeHyperlink)
    }

    method Reset()
      modifies this
      ensures State() == ResetStyle(old(State()))
    {
      bold, dim, italic, underline := false, false, false, false;
      blink, inverse, hidden, strikethrough := false, false, false, false;
      fgColor, bgColor := None, None;
    }

    method Clear()
      modifies this
      ensures State() == FRESH
    {
      Reset();
      activeHyperlink := None;
    }

    method TurnOn(code: int)
      requires 1 <= code <= 9
      modifies this
      ensures State() == old(State()).(flags := ApplyFlagCode(old(State().flags), code))
    {
      match code
      case 1 => bold := true;
      case 2 => dim := true;
      case 3 => italic := true;
      case 4 => underline := true;
      case 5 => blink := true;
      case 7 => inverse := true;
      case 8 => hidden := true;
      case 9 => strikethrough := true;
      case _ =>
    }

    method TurnOff(code: int)
      requires 21 <= code <= 29
      modifies this
      ensures State() == old(State()).(flags := ApplyFlagCode(old(State().flags), code))
    {
      match code
      case 21 => bold := false;
      case 22 => bold, dim := false, false;
      case 23 => italic := false;
      case 24 => underline := false;
      case 25 => blink := false;
      case 27 => inverse := false;
      case 28 => hidden := false;
      case 29 => strikethrough := false;
      case _ =>
    }

    method ApplyStandardCode(code: int)
      modifies this
      ensures State() == ApplyCode(old(State()), Some(code))
    {
      if code == 0 {
        Reset();
      } else if 1 <= code <= 9 {
        TurnOn(code);
      } else if 21 <= code <= 29 {
        TurnOff(code);
      } else if code == 39 {
        fgColor := None;
      } else if code == 49 {
        bgColor := None;
      } else if 30 <= code <= 37 || 90 <= code <= 97 {
        fgColor := Some(Decimal(code));
      } else if 40 <= code <= 47 || 100 <= code <= 107 {
        bgColor := Some(Decimal(code));
      }
    }

    method Process(ansiCode: Text)
      modifies this
      ensures State() == ProcessCode(old(State()), ansiCode)
    {
      var hyperlink := ParseOsc8Hyperlink(ansiCode);
      if !hyperlink.NotHyperlink? {
        activeHyperlink := if hyperlink.Opening? then Some(hyperlink.link) else None;
        return;
      }
      if !EndsWith(ansiCode, [LOWER_M]) {
        return;
      }
      var found := SgrMatch(ansiCode, 0);
      if found.None? {
        return;
      }
      var params := found.value;
      if params == [] || params == [0x30] {
        Reset();
        return;
      }
      var parts := Split(params);
      var i := 0;
      while i < |parts|
        invariant 0 <= i <= |parts|
        invariant ApplyParts(State(), parts[i..]) == ApplyParts(old(State()), parts)
      {
        ghost var rest := parts[i..];
        var code := ParseInt(parts[i]);
        if code == Some(38) || code == Some(48) {
          if i + 2 < |parts| && parts[i + 1] == [0x35] {
            assert ColorWidth(rest) == 3 && rest[..3] == [parts[i], parts[i + 1], parts[i + 2]];
            assert rest[3..] == parts[i + 3..];
            SetExtendedColor(code.value, Join([parts[i], parts[i + 1], parts[i + 2]]));
            i := i + 3;
            continue;
          } else if i + 4 < |parts| && parts[i + 1] == [0x32] {
            var own := [parts[i], parts[i + 1], parts[i + 2], parts[i + 3], parts[i + 4]];
            assert ColorWidth(rest) == 5 && rest[..5] == own && rest[5..] == parts[i + 5..];
            SetExtendedColor(code.value, Join(own));
            i := i + 5;
            continue;
          }
        }
        assert ColorWidth(rest) == 0 && rest[1..] == parts[i + 1..];
        if code.Some? {
          ApplyStandardCode(code.value);
        }
        i := i + 1;
      }
    }

    method SetExtendedColor(code: int, color: Text)
      modifies this
      ensures State() == SetColor(old(State()), code == 48, color) || (code != 38 && code != 48)
    {
      if code == 38 {
        fgColor := Some(color);
      } else {
        bgColor := Some(color);
      }
    }

    method GetFlagCodes() returns (codes: seq<Text>)
      ensures codes == FlagCodes(State().flags)
    {
      codes := [] + FlagCode(bold, 0x31) + FlagCode(dim, 0x32) + FlagCode(italic, 0x33) + FlagCode(underline, 0x34)
               + FlagCode(blink, 0x35) + FlagCode(inverse, 0x37) + FlagCode(hidden, 0x38)
               + FlagCode(strikethrough, 0x39);
    }

    method GetActiveCodes() returns (result: Text)
      ensures result == ActiveCodes(State())
    {
      var codes := GetFlagCodes();
      codes := codes + ColorCode(fgColor);
      codes := codes + ColorCode(bgColor);
      result := if |codes| > 0 then SgrSequence(Join(codes)) else [];
      if activeHyperlink.Some? {
        result := result + FormatOsc8Hyperlink(activeHyperlink.value);
      }
    }

    method GetLineEndReset() returns (result: Text)
      ensures result == LineEndReset(State())
    {
      result := [];
      if underline {
        result := result + [ESC, LBRACKET, 0x32, 0x34, LOWER_M];
      }
      if activeHyperlink.Some? {
        result := result + FormatOsc8Close(activeHyperlink.value.bel);
      }
    }
  }

  /**
   * Scans `text` into `tracker`. Whatever the text, at most one control string is searched in vain by a
   * forward scan, and the scanner looks at no more than nine code units per unit of text.
   */
  method UpdateTrackerFromText(text: Text, tracker: AnsiCodeTracker)
    returns (ghost unitsRead: nat, ghost failedScans: nat)
    modifies tracker
    ensures tracker.State() == RunText(old(tracker.State()), text)
    ensures failedScans <= 1 && unitsRead <= 9 * |text|
  {
    var scan := new AnsiScanState();
    var i := 0;
    ghost var frontier: nat := 0;
    while i < |text|
      invariant 0 <= i <= |text| && frontier <= |text| && fresh(scan) && scan.Valid(text)
      invariant ProcessAll(tracker.State(), Lex(text, i)) == RunText(old(tracker.State()), text)
      invariant scan.failedForwardScans == 0 || (scan.failedForwardScans == 1 && scan.Covers(text, i))
      invariant forall k :: i <= k < frontier ==> text[k] != ESC
      invariant scan.unitsRead <= ReadBudget(|text|, i, frontier, scan.failedForwardScans)
    {
      var end := scan.ExtractAnsiEndAt(text, i);
      LexStep(tracker.State(), text, i);
      if end.Some? {
        tracker.Process(text[i..end.value]);
        i := end.value;
      } else {
        if text[i] == ESC {
          frontier := i + 1 + FailedSpan(text, i);
        }
        i := i + 1;
      }
    }
    return scan.unitsRead, scan.failedForwardScans;
  }

  /** Three units per unit passed, the rest of a broken sequence already looked at, and one failed search. */
  ghost function ReadBudget(length: nat, i: nat, frontier: nat, failed: nat): int {
    3 * i + Max(frontier - i, 0) + (if failed == 0 then 0 else 6 * length)
  }

  lemma LexStep(st: TrackerState, text: Text, i: nat)
    requires i < |text|
    ensures ProcessAll(st, Lex(text, i))
         == match AnsiEnd(text, i)
            case Some(e) => ProcessAll(ProcessCode(st, text[i..e]), Lex(text, e))
            case None => ProcessAll(st, Lex(text, i + 1))
  {
    if AnsiEnd(text, i).Some? {
      assert Lex(text, i)[1..] == Lex(text, AnsiEnd(text, i).value);
    }
  }
}
