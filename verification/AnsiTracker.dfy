/**
 * The SGR and OSC 8 tracker of packages/tui/src/ansi-scan.ts: a state machine
 * that can write its own state down as escape codes and read it back.
 */
module AnsiTracker {
  import opened Std
  import opened AnsiScan

  const SEMICOLON: CodeUnit := 0x3b
  const LOWER_M: CodeUnit := 0x6d

  datatype Hyperlink = Hyperlink(params: Text, url: Text, bel: bool)

  datatype Flags = Flags(
    bold: bool, dim: bool, italic: bool, underline: bool,
    blink: bool, inverse: bool, hidden: bool, strikethrough: bool)

  datatype TrackerState = TrackerState(flags: Flags, fg: Option<Text>, bg: Option<Text>, link: Option<Hyperlink>)

  const NO_FLAGS := Flags(false, false, false, false, false, false, false, false)

  const FRESH := TrackerState(NO_FLAGS, None, None, None)

  /** SGR reset: every attribute off, the hyperlink kept. */
  function ResetStyle(st: TrackerState): TrackerState {
    FRESH.(link := st.link)
  }

  // ------------------------------------------------------------------------------------------
  // Text helpers: indexOf, split, join, decimal numbers
  // ------------------------------------------------------------------------------------------

  function IndexOf(s: Text, c: CodeUnit, from: nat): (r: Option<nat>)
    ensures r.Some? ==> from <= r.value < |s| && s[r.value] == c && c !in s[from..r.value]
    ensures r.None? && from <= |s| ==> c !in s[from..]
    decreases |s| - from
  {
    if from >= |s| then None
    else if s[from] == c then Some(from)
    else
      var r := IndexOf(s, c, from + 1);
      assert r.Some? ==> s[from..r.value] == [s[from]] + s[from + 1..r.value];
      assert s[from..] == [s[from]] + s[from + 1..];
      r
  }

  predicate NoSemicolons(parts: seq<Text>) { forall i :: 0 <= i < |parts| ==> SEMICOLON !in parts[i] }

  function Split(t: Text): (parts: seq<Text>)
    ensures |parts| >= 1 && NoSemicolons(parts)
  {
    match IndexOf(t, SEMICOLON, 0)
    case None => [t]
    case Some(k) => [t[..k]] + Split(t[k + 1..])
  }

  function Join(parts: seq<Text>): Text
    requires |parts| >= 1
  {
    if |parts| == 1 then parts[0] else parts[0] + [SEMICOLON] + Join(parts[1..])
  }

  lemma {:induction false} SplitAppend(a: Text, b: Text)
    ensures Split(a + [SEMICOLON] + b) == Split(a) + Split(b)
  {
    var t := a + [SEMICOLON] + b;
    match IndexOf(a, SEMICOLON, 0) {
      case None =>
        FirstSemicolon(t, |a|);
        assert t[..|a|] == a && t[|a| + 1..] == b;
      case Some(k) =>
        FirstSemicolon(t, k);
        assert t[..k] == a[..k] && t[k + 1..] == a[k + 1..] + [SEMICOLON] + b;
        SplitAppend(a[k + 1..], b);
    }
  }

  lemma FirstSemicolon(t: Text, k: nat)
    requires k < |t| && t[k] == SEMICOLON && forall i :: 0 <= i < k ==> t[i] != SEMICOLON
    ensures IndexOf(t, SEMICOLON, 0) == Some(k)
  {
    var r := IndexOf(t, SEMICOLON, 0);
    assert t[0..][k] == SEMICOLON;
  }

  lemma SplitOne(part: Text)
    requires SEMICOLON !in part
    ensures Split(part) == [part]
  {
  }

  lemma {:induction false} SplitJoin(parts: seq<Text>)
    requires |parts| >= 1 && NoSemicolons(parts)
    ensures Split(Join(parts)) == parts
  {
    SplitOne(parts[0]);
    if |parts| > 1 {
      assert parts == [parts[0]] + parts[1..];
      SplitJoin(parts[1..]);
      SplitAppend(parts[0], Join(parts[1..]));
    } else {
      assert parts == [parts[0]];
    }
  }

  lemma {:induction false} JoinSplit(t: Text)
    ensures Join(Split(t)) == t
  {
    match IndexOf(t, SEMICOLON, 0) {
      case None =>
      case Some(k) =>
        JoinSplit(t[k + 1..]);
        assert t == t[..k] + [SEMICOLON] + t[k + 1..];
        assert Split(t)[1..] == Split(t[k + 1..]);
    }
  }

  /** The characters of the group `[\d;]*`. */
  predicate SgrUnit(c: int) { Digit(c) || c == SEMICOLON }

  predicate SgrText(t: Text) { forall i :: 0 <= i < |t| ==> SgrUnit(t[i]) }

  predicate DigitText(t: Text) { forall i :: 0 <= i < |t| ==> Digit(t[i]) }

  predicate DigitParts(parts: seq<Text>) { forall i :: 0 <= i < |parts| ==> DigitText(parts[i]) }

  function DecimalValue(t: Text): int {
    if t == [] then 0 else 10 * DecimalValue(t[..|t| - 1]) + (t[|t| - 1] as int - 0x30)
  }

  /** `Number.parseInt(part, 10)` on a run of digits; the empty run is NaN. */
  function ParseInt(t: Text): Option<int> {
    if t == [] then None else Some(DecimalValue(t))
  }

  function Decimal(n: nat): (t: Text)
    ensures |t| >= 1 && DigitText(t)
  {
    if n < 10 then [0x30 + n] else Decimal(n / 10) + [0x30 + n % 10]
  }

  lemma OneDigit(c: CodeUnit)
    ensures DecimalValue([c]) == c as int - 0x30
  {
    assert [c][..0] == [];
  }

  lemma {:induction false} ParseDecimal(n: nat)
    ensures ParseInt(Decimal(n)) == Some(n)
  {
    if n >= 10 {
      ParseDecimal(n / 10);
      var t := Decimal(n);
      assert t[..|t| - 1] == Decimal(n / 10);
    } else {
      OneDigit(0x30 + n);
    }
  }

  // ------------------------------------------------------------------------------------------
  // OSC 8 hyperlinks
  // ------------------------------------------------------------------------------------------

  const OSC8: Text := [ESC, RBRACKET, 0x38, SEMICOLON]

  function TerminatorText(bel: bool): Text { if bel then [BEL] else [ESC, BACKSLASH] }

  datatype Osc8 = NotHyperlink | Closing | Opening(link: Hyperlink)

  /** JavaScript `s.slice(from, -drop)`. */
  function SliceDroppingEnd(s: Text, from: nat, drop: nat): Text {
    if |s| - drop <= from then [] else s[from..|s| - drop]
  }

  function ParseOsc8Hyperlink(code: Text): Osc8 {
    if !StartsWith(code, OSC8) then NotHyperlink
    else
      var bel := EndsWith(code, [BEL]);
      var body := SliceDroppingEnd(code, 4, if bel then 1 else 2);
      match IndexOf(body, SEMICOLON, 0)
      case None => NotHyperlink
      case Some(k) =>
        if body[k + 1..] == [] then Closing else Opening(Hyperlink(body[..k], body[k + 1..], bel))
  }

  function FormatOsc8Hyperlink(link: Hyperlink): Text {
    OSC8 + link.params + [SEMICOLON] + link.url + TerminatorText(link.bel)
  }

  function FormatOsc8Close(bel: bool): Text {
    OSC8 + [SEMICOLON] + TerminatorText(bel)
  }

  // ------------------------------------------------------------------------------------------
  // The tracker as a function of the codes it is given
  // ------------------------------------------------------------------------------------------

  function SgrGroupEnd(code: Text, j: nat): (end: nat)
    requires j <= |code|
    ensures j <= end <= |code| && SgrText(code[j..end]) && (end < |code| ==> !SgrUnit(code[end]))
    decreases |code| - j
  {
    if j < |code| && SgrUnit(code[j]) then
      var end := SgrGroupEnd(code, j + 1);
      assert code[j..end] == [code[j]] + code[j + 1..end];
      end
    else j
  }

  /** The capture of the leftmost match of `ESC [ ([\d;]*) m` at or after `i`. */
  function SgrMatch(code: Text, i: nat): Option<Text>
    decreases |code| - i
  {
    if i >= |code| then None
    else if code[i] == ESC && At(code, i + 1) == LBRACKET && At(code, SgrGroupEnd(code, i + 2)) == LOWER_M
    then Some(code[i + 2..SgrGroupEnd(code, i + 2)])
    else SgrMatch(code, i + 1)
  }

  function SetColor(st: TrackerState, background: bool, color: Text): TrackerState {
    if background then st.(bg := Some(color)) else st.(fg := Some(color))
  }

  /** An attribute after parameter `c`, when `on` sets it, and `off` or a reset clears it. */
  function Switch(was: bool, c: int, on: int, off: int): bool {
    c == on || (was && c != 0 && c != off)
  }

  /** The effect of one standard SGR parameter, attribute by attribute. */
  function ApplyFlagCode(f: Flags, c: int): Flags {
    Flags(
      Switch(f.bold && c != 21, c, 1, 22), Switch(f.dim, c, 2, 22), Switch(f.italic, c, 3, 23),
      Switch(f.underline, c, 4, 24), Switch(f.blink, c, 5, 25), Switch(f.inverse, c, 7, 27),
      Switch(f.hidden, c, 8, 28), Switch(f.strikethrough, c, 9, 29))
  }

  /** The standard colours count from `base` (30 in front, 40 behind); `base + 9` is the default colour. */
  predicate StandardCode(c: int, base: nat) {
    base <= c <= base + 7 || base + 60 <= c <= base + 67
  }

  function ApplyColorCode(color: Option<Text>, c: int, base: nat): Option<Text> {
    if c == 0 || c == base + 9 then None
    else if StandardCode(c, base) then Some(Decimal(c))
    else color
  }

  function ApplyCode(st: TrackerState, code: Option<int>): TrackerState {
    match code
    case None => st
    case Some(c) =>
      TrackerState(ApplyFlagCode(st.flags, c), ApplyColorCode(st.fg, c, 30), ApplyColorCode(st.bg, c, 40), st.link)
  }

  /** How many parameters an extended colour takes at the head of `parts`; zero when none stands there. */
  function ColorWidth(parts: seq<Text>): (n: nat)
    ensures n <= |parts|
  {
    if |parts| >= 3 && (ParseInt(parts[0]) == Some(38) || ParseInt(parts[0]) == Some(48)) then
      if parts[1] == [0x35] then 3
      else if parts[1] == [0x32] && |parts| >= 5 then 5
      else 0
    else 0
  }

  function ApplyParts(st: TrackerState, parts: seq<Text>): TrackerState
    decreases |parts|
  {
    if parts == [] then st
    else
      var n := ColorWidth(parts);
      if n > 0 then ApplyParts(SetColor(st, ParseInt(parts[0]) == Some(48), Join(parts[..n])), parts[n..])
      else ApplyParts(ApplyCode(st, ParseInt(parts[0])), parts[1..])
  }

  function ApplySgr(st: TrackerState, params: Text): TrackerState {
    if params == [] || params == [0x30] then ResetStyle(st) else ApplyParts(st, Split(params))
  }

  function ProcessCode(st: TrackerState, code: Text): TrackerState {
    match ParseOsc8Hyperlink(code)
    case Closing => st.(link := None)
    case Opening(link) => st.(link := Some(link))
    case NotHyperlink =>
      if !EndsWith(code, [LOWER_M]) then st
      else
        match SgrMatch(code, 0)
        case None => st
        case Some(params) => ApplySgr(st, params)
  }

  /** The complete escape sequences met by a left-to-right scan from `i`. */
  function Lex(s: Text, i: nat): seq<Text>
    decreases |s| - i
  {
    if i >= |s| then []
    else
      match AnsiEnd(s, i)
      case Some(e) => [s[i..e]] + Lex(s, e)
      case None => Lex(s, i + 1)
  }

  function ProcessAll(st: TrackerState, codes: seq<Text>): TrackerState
    decreases |codes|
  {
    if codes == [] then st else ProcessAll(ProcessCode(st, codes[0]), codes[1..])
  }

  /** The state after all of `text` has been scanned from state `st`. */
  function RunText(st: TrackerState, text: Text): TrackerState {
    ProcessAll(st, Lex(text, 0))
  }

  function FlagCode(on: bool, digit: CodeUnit): seq<Text> { if on then [[digit]] else [] }
  function ColorCode(color: Option<Text>): seq<Text> { if color.Some? && color.value != [] then [color.value] else [] }

  function FlagCodes(f: Flags): seq<Text> {
    [] + FlagCode(f.bold, 0x31) + FlagCode(f.dim, 0x32) + FlagCode(f.italic, 0x33) + FlagCode(f.underline, 0x34)
    + FlagCode(f.blink, 0x35) + FlagCode(f.inverse, 0x37) + FlagCode(f.hidden, 0x38)
    + FlagCode(f.strikethrough, 0x39)
  }

  /** The parameters that describe the attributes of `st`. */
  function StyleCodes(st: TrackerState): seq<Text> {
    FlagCodes(st.flags) + ColorCode(st.fg) + ColorCode(st.bg)
  }

  function SgrSequence(params: Text): Text { [ESC, LBRACKET] + params + [LOWER_M] }

  function StyleText(st: TrackerState): Text {
    if StyleCodes(st) == [] then [] else SgrSequence(Join(StyleCodes(st)))
  }

  function LinkText(st: TrackerState): Text {
    if st.link.Some? then FormatOsc8Hyperlink(st.link.value) else []
  }

  /** What a line start is given so that it reads as `st`. */
  function ActiveCodes(st: TrackerState): Text {
    StyleText(st) + LinkText(st)
  }

  /** What a line end is given so that nothing of `st` bleeds into the padding. */
  function LineEndReset(st: TrackerState): Text {
    (if st.flags.underline then SgrSequence([0x32, 0x34]) else [])
    + (if st.link.Some? then FormatOsc8Close(st.link.value.bel) else [])
  }

  // ------------------------------------------------------------------------------------------
  // Cutting a text between sequences
  // ------------------------------------------------------------------------------------------

  /** The scan that starts at `i` stands between sequences at `k`. */
  predicate Visits(s: Text, i: nat, k: nat)
    decreases |s| - i
  {
    i == k || (i < k && i < |s| && Visits(s, if AnsiEnd(s, i).Some? then AnsiEnd(s, i).value else i + 1, k))
  }

  lemma {:induction false} LexShift(a: Text, b: Text, i: nat)
    ensures Lex(a + b, |a| + i) == Lex(b, i)
    decreases |b| - i
  {
    if i < |b| {
      AnsiEndShift(a, b, i);
      if AnsiEnd(b, i).Some? {
        var e := AnsiEnd(b, i).value;
        assert (a + b)[|a| + i..|a| + e] == b[i..e];
        LexShift(a, b, e);
      } else {
        LexShift(a, b, i + 1);
      }
    }
  }

  lemma {:induction false} LexCut(a: Text, b: Text, i: nat)
    requires i <= |a| && Visits(a + b, i, |a|)
    ensures Lex(a + b, i) == Lex(a, i) + Lex(b, 0)
    decreases |a| - i
  {
    if i == |a| {
      LexShift(a, b, 0);
    } else {
      AnsiEndPrefix(a, b, i);
      var end := AnsiEnd(a + b, i);
      var next := if end.Some? then end.value else i + 1;
      VisitsForward(a + b, next, |a|);
      assert (a + b)[i..next] == a[i..next];
      LexCut(a, b, next);
      if end.Some? {
        ConcatAssociative([a[i..next]], Lex(a, next), Lex(b, 0));
      }
    }
  }

  lemma VisitsForward(s: Text, i: nat, k: nat)
    requires Visits(s, i, k)
    ensures i <= k
  {
  }

  lemma {:induction false} ProcessAllAppend(st: TrackerState, xs: seq<Text>, ys: seq<Text>)
    ensures ProcessAll(st, xs + ys) == ProcessAll(ProcessAll(st, xs), ys)
    decreases |xs|
  {
    if xs == [] {
      assert xs + ys == ys;
    } else {
      assert (xs + ys)[1..] == xs[1..] + ys;
      ProcessAllAppend(ProcessCode(st, xs[0]), xs[1..], ys);
    }
  }

  /** Scanning may stop and resume wherever the scanner stands between sequences. */
  lemma RunTextCut(st: TrackerState, a: Text, b: Text)
    requires Visits(a + b, 0, |a|)
    ensures RunText(st, a + b) == RunText(RunText(st, a), b)
  {
    LexCut(a, b, 0);
    ProcessAllAppend(st, Lex(a, 0), Lex(b, 0));
  }

  /** A text that is one complete sequence acts as that sequence, whatever follows. */
  lemma RunCode(st: TrackerState, code: Text, rest: Text)
    requires AnsiEnd(code, 0) == Some(|code|)
    ensures RunText(st, code + rest) == RunText(ProcessCode(st, code), rest)
  {
    assert code[0..|code|] == code == (code + rest)[0..|code|];
    AnsiEndLocal(code, 0, code + rest, 0);
    LexShift(code, rest, 0);
    var codes := Lex(code + rest, 0);
    assert codes == [code] + Lex(rest, 0);
    assert codes[1..] == Lex(rest, 0);
  }

  // ------------------------------------------------------------------------------------------
  // Which states can be written down
  // ------------------------------------------------------------------------------------------

  /** A colour the tracker stores: a standard code, or a complete 256-colour or RGB selection. `base` is 30 or 40. */
  predicate ColorOk(color: Text, base: nat) {
    color != [] && SgrText(color) && (StandardColor(color, base) || ExtendedColor(Split(color), base))
  }

  predicate StandardColor(color: Text, base: nat) {
    var c := DecimalValue(color);
    StandardCode(c, base) && color == Decimal(c)
  }

  predicate ExtendedColor(parts: seq<Text>, base: nat) {
    |parts| >= 3 && ColorWidth(parts) == |parts| && ParseInt(parts[0]) == Some(base + 8)
  }

  predicate LinkOk(link: Hyperlink) {
    && SEMICOLON !in link.params && link.url != []
    && AnsiEnd(FormatOsc8Hyperlink(link), 0) == Some(|FormatOsc8Hyperlink(link)|)
  }

  predicate StateOk(st: TrackerState) {
    && (st.fg.Some? ==> ColorOk(st.fg.value, 30))
    && (st.bg.Some? ==> ColorOk(st.bg.value, 40))
    && (st.link.Some? ==> LinkOk(st.link.value))
  }

  lemma {:induction false} SplitSgrText(t: Text)
    requires SgrText(t)
    ensures DigitParts(Split(t))
  {
    match IndexOf(t, SEMICOLON, 0) {
      case None => assert t[0..] == t;
      case Some(k) =>
        assert t[0..k] == t[..k];
        SplitSgrText(t[k + 1..]);
    }
  }

  lemma {:induction false} JoinSgrText(parts: seq<Text>)
    requires |parts| >= 1 && DigitParts(parts)
    ensures SgrText(Join(parts))
    ensures |parts| > 1 ==> Join(parts) != []
  {
    assert DigitText(parts[0]);
    if |parts| > 1 {
      JoinSgrText(parts[1..]);
    }
  }

  lemma ExtendedColorOk(parts: seq<Text>)
    requires DigitParts(parts) && ColorWidth(parts) > 0
    ensures ColorOk(Join(parts[..ColorWidth(parts)]), if ParseInt(parts[0]) == Some(48) then 40 else 30)
  {
    var own := parts[..ColorWidth(parts)];
    forall i | 0 <= i < |own| ensures SEMICOLON !in own[i] {
      assert DigitText(parts[i]);
    }
    SplitJoin(own);
    JoinSgrText(own);
  }

  lemma StandardColorOk(c: nat, base: nat)
    requires StandardCode(c, base)
    ensures ColorOk(Decimal(c), base)
  {
    ParseDecimal(c);
  }

  lemma {:induction false} ApplyPartsKeepsOk(st: TrackerState, parts: seq<Text>)
    requires StateOk(st) && DigitParts(parts)
    ensures StateOk(ApplyParts(st, parts))
    decreases |parts|
  {
    if parts != [] {
      var n := ColorWidth(parts);
      if n > 0 {
        ExtendedColorOk(parts);
        ApplyPartsKeepsOk(SetColor(st, ParseInt(parts[0]) == Some(48), Join(parts[..n])), parts[n..]);
      } else {
        ApplyCodeKeepsOk(st, ParseInt(parts[0]));
        ApplyPartsKeepsOk(ApplyCode(st, ParseInt(parts[0])), parts[1..]);
      }
    }
  }

  lemma ApplyCodeKeepsOk(st: TrackerState, code: Option<int>)
    requires StateOk(st)
    ensures StateOk(ApplyCode(st, code))
  {
    if code.Some? {
      var c := code.value;
      if StandardCode(c, 30) {
        StandardColorOk(c, 30);
      } else if StandardCode(c, 40) {
        StandardColorOk(c, 40);
      }
    }
  }

  /** An opening hyperlink is written back as the very text it was read from. */
  lemma FormatParsed(code: Text)
    requires AnsiEnd(code, 0) == Some(|code|) && ParseOsc8Hyperlink(code).Opening?
    ensures FormatOsc8Hyperlink(ParseOsc8Hyperlink(code).link) == code
    ensures LinkOk(ParseOsc8Hyperlink(code).link)
  {
    FormatParsedText(code);
  }

  lemma FormatParsedText(code: Text)
    requires AnsiEnd(code, 0) == Some(|code|) && ParseOsc8Hyperlink(code).Opening?
    ensures var link := ParseOsc8Hyperlink(code).link;
            FormatOsc8Hyperlink(link) == code && SEMICOLON !in link.params && link.url != []
  {
    var link := ParseOsc8Hyperlink(code).link;
    var body := SliceDroppingEnd(code, 4, if link.bel then 1 else 2);
    OpeningTail(code);
    BodyOfLink(body);
    Regroup(OSC8, link.params, [SEMICOLON], link.url, TerminatorText(link.bel));
  }

  lemma Regroup(a: Text, b: Text, c: Text, d: Text, e: Text)
    ensures a + (b + c + d) + e == a + b + c + d + e
  {
    ConcatAssociative(a, b + c, d);
    ConcatAssociative(a, b, c);
  }

  lemma BodyOfLink(body: Text)
    requires IndexOf(body, SEMICOLON, 0).Some?
    ensures var k := IndexOf(body, SEMICOLON, 0).value;
            body == body[..k] + [SEMICOLON] + body[k + 1..] && SEMICOLON !in body[..k]
  {
    var k := IndexOf(body, SEMICOLON, 0).value;
    assert body[0..k] == body[..k];
  }

  lemma OpeningTail(code: Text)
    requires AnsiEnd(code, 0) == Some(|code|) && StartsWith(code, OSC8)
    ensures var bel := EndsWith(code, [BEL]);
            var drop := if bel then 1 else 2;
            |code| > 4 + drop ==> code == OSC8 + SliceDroppingEnd(code, 4, drop) + TerminatorText(bel)
  {
    assert code[..4] == OSC8;
    assert code[0] == code[..4][0] && code[1] == code[..4][1];
    ControlStringTail(code);
    var drop := if EndsWith(code, [BEL]) then 1 else 2;
    if |code| > 4 + drop {
      assert code == code[..4] + code[4..|code| - drop] + code[|code| - drop..];
    }
  }

  /** A complete control string that is not closed by BEL is closed by ST. */
  lemma ControlStringTail(code: Text)
    requires AnsiEnd(code, 0) == Some(|code|) && ControlStringAt(code, 0)
    ensures EndsWith(code, [BEL]) || EndsWith(code, [ESC, BACKSLASH])
  {
    ControlEndIffFirstTerminator(code, 2, BelIntroducer(At(code, 1)), |code|);
  }

  lemma ProcessKeepsOk(st: TrackerState, code: Text)
    requires StateOk(st) && AnsiEnd(code, 0) == Some(|code|)
    ensures StateOk(ProcessCode(st, code))
  {
    match ParseOsc8Hyperlink(code) {
      case Closing =>
      case Opening(_) => FormatParsed(code);
      case NotHyperlink =>
        if SgrMatch(code, 0).Some? {
          SgrMatchIsSgrText(code, 0);
          ApplySgrKeepsOk(st, SgrMatch(code, 0).value);
        }
    }
  }

  lemma ApplySgrKeepsOk(st: TrackerState, params: Text)
    requires StateOk(st) && SgrText(params)
    ensures StateOk(ApplySgr(st, params))
  {
    SplitSgrText(params);
    ApplyPartsKeepsOk(st, Split(params));
  }

  lemma SgrMatchIsSgrText(code: Text, i: nat)
    requires SgrMatch(code, i).Some?
    ensures SgrText(SgrMatch(code, i).value)
    decreases |code| - i
  {
  }

  /** Every state the tracker can reach can be written down. */
  lemma {:induction false} RunTextKeepsOk(st: TrackerState, text: Text, i: nat)
    requires StateOk(st)
    ensures StateOk(ProcessAll(st, Lex(text, i)))
    decreases |text| - i
  {
    if i < |text| {
      if AnsiEnd(text, i).Some? {
        var e := AnsiEnd(text, i).value;
        AnsiEndLocal(text, i, text[i..e], 0);
        ProcessKeepsOk(st, text[i..e]);
        assert Lex(text, i)[1..] == Lex(text, e);
        RunTextKeepsOk(ProcessCode(st, text[i..e]), text, e);
      } else {
        RunTextKeepsOk(st, text, i + 1);
      }
    }
  }

  // ------------------------------------------------------------------------------------------
  // Writing a state down and reading it back
  // ------------------------------------------------------------------------------------------

  /** `under` with everything `over` has switched on laid over it. */
  function OverlayFlags(under: Flags, over: Flags): Flags {
    Flags(
      under.bold || over.bold, under.dim || over.dim, under.italic || over.italic, under.underline || over.underline,
      under.blink || over.blink, under.inverse || over.inverse, under.hidden || over.hidden,
      under.strikethrough || over.strikethrough)
  }

  function Overlay(under: TrackerState, over: TrackerState): TrackerState {
    TrackerState(
      OverlayFlags(under.flags, over.flags),
      if over.fg.Some? then over.fg else under.fg,
      if over.bg.Some? then over.bg else under.bg,
      under.link)
  }

  /** Applying one parameter string after another. */
  function ApplyCodes(st: TrackerState, codes: seq<Text>): TrackerState
    decreases |codes|
  {
    if codes == [] then st else ApplyCodes(ApplyParts(st, Split(codes[0])), codes[1..])
  }

  /** Parameters that take nothing from what follows them. */
  predicate SelfContained(code: Text) {
    var parts := Split(code);
    ColorWidth(parts) == |parts| || (|parts| == 1 && ParseInt(code) != Some(38) && ParseInt(code) != Some(48))
  }

  lemma ApplySelfContained(st: TrackerState, code: Text, rest: seq<Text>)
    requires SelfContained(code)
    ensures ApplyParts(st, Split(code) + rest) == ApplyParts(ApplyParts(st, Split(code)), rest)
  {
    var parts := Split(code);
    var all := parts + rest;
    var n := ColorWidth(parts);
    if n == |parts| {
      assert ColorWidth(all) == n && all[..n] == parts == parts[..n] && all[n..] == rest && parts[n..] == [];
    } else {
      assert all[1..] == rest && parts[1..] == [];
      JoinSplit(code);
      assert parts[0] == code;
    }
  }

  lemma {:induction false} ApplyJoined(st: TrackerState, codes: seq<Text>)
    requires |codes| >= 1 && AllSelfContained(codes)
    ensures ApplyParts(st, Split(Join(codes))) == ApplyCodes(st, codes)
    decreases |codes|
  {
    if |codes| > 1 {
      SplitAppend(codes[0], Join(codes[1..]));
      ApplySelfContained(st, codes[0], Split(Join(codes[1..])));
      ApplyJoined(ApplyParts(st, Split(codes[0])), codes[1..]);
    }
  }

  lemma {:induction false} ApplyCodesAppend(st: TrackerState, xs: seq<Text>, ys: seq<Text>)
    ensures ApplyCodes(st, xs + ys) == ApplyCodes(ApplyCodes(st, xs), ys)
    decreases |xs|
  {
    if xs == [] {
      assert xs + ys == ys;
    } else {
      assert (xs + ys)[1..] == xs[1..] + ys;
      ApplyCodesAppend(ApplyParts(st, Split(xs[0])), xs[1..], ys);
    }
  }

  function ApplyFlag(f: Flags, on: bool, digit: CodeUnit): Flags {
    if on then ApplyFlagCode(f, digit as int - 0x30) else f
  }

  predicate AllSelfContained(codes: seq<Text>) { forall i :: 0 <= i < |codes| ==> SelfContained(codes[i]) }

  lemma ApplyOneCode(st: TrackerState, code: Text)
    ensures ApplyCodes(st, [code]) == ApplyParts(st, Split(code))
  {
    assert [code][1..] == [];
  }

  lemma ApplyOnePart(st: TrackerState, part: Text)
    requires NoSemicolons([part])
    ensures Split(part) == [part] && ApplyParts(st, [part]) == ApplyCode(st, ParseInt(part))
  {
    SplitJoin([part]);
    assert [part][1..] == [];
  }

  lemma ColorEffect(st: TrackerState, color: Option<Text>, background: bool)
    requires color.Some? ==> ColorOk(color.value, if background then 40 else 30)
    ensures ApplyCodes(st, ColorCode(color)) == if color.Some? then SetColor(st, background, color.value) else st
    ensures AllSelfContained(ColorCode(color))
  {
    if color.Some? {
      var t := color.value;
      var parts := Split(t);
      ApplyOneCode(st, t);
      if StandardColor(t, if background then 40 else 30) {
        ApplyOnePart(st, t);
      } else {
        JoinSplit(t);
        assert parts[..|parts|] == parts && parts[|parts|..] == [];
      }
    }
  }

  /** The attributes paired with the SGR digit that sets each. */
  function FlagList(f: Flags): seq<(bool, CodeUnit)> {
    [(f.bold, 0x31), (f.dim, 0x32), (f.italic, 0x33), (f.underline, 0x34),
     (f.blink, 0x35), (f.inverse, 0x37), (f.hidden, 0x38), (f.strikethrough, 0x39)]
  }

  function ListCodes(list: seq<(bool, CodeUnit)>, k: nat): seq<Text>
    requires k <= |list|
  {
    if k == 0 then [] else ListCodes(list, k - 1) + FlagCode(list[k - 1].0, list[k - 1].1)
  }

  function ApplyList(f: Flags, list: seq<(bool, CodeUnit)>, k: nat): Flags
    requires k <= |list|
  {
    if k == 0 then f else ApplyFlag(ApplyList(f, list, k - 1), list[k - 1].0, list[k - 1].1)
  }

  lemma {:induction false} ListCodesEffect(st: TrackerState, list: seq<(bool, CodeUnit)>, k: nat)
    requires k <= |list| && forall i :: 0 <= i < |list| ==> 0x31 <= list[i].1 <= 0x39
    ensures AllSelfContained(ListCodes(list, k))
    ensures ApplyCodes(st, ListCodes(list, k)) == st.(flags := ApplyList(st.flags, list, k))
  {
    if k > 0 {
      ListCodesEffect(st, list, k - 1);
      var (on, digit) := list[k - 1];
      ApplyCodesAppend(st, ListCodes(list, k - 1), FlagCode(on, digit));
      FlagEffect(st.(flags := ApplyList(st.flags, list, k - 1)), on, digit);
    }
  }

  lemma FlagEffect(st: TrackerState, on: bool, digit: CodeUnit)
    requires 0x31 <= digit <= 0x39
    ensures AllSelfContained(FlagCode(on, digit))
    ensures ApplyCodes(st, FlagCode(on, digit)) == st.(flags := ApplyFlag(st.flags, on, digit))
  {
    if on {
      OneDigit(digit);
      ApplyOneCode(st, [digit]);
      ApplyOnePart(st, [digit]);
    }
  }

  lemma ListCodesAreFlagCodes(f: Flags, n: nat)
    requires n == |FlagList(f)|
    ensures ListCodes(FlagList(f), n) == FlagCodes(f)
  {
    var l := FlagList(f);
    assert forall k: nat :: 0 < k <= n ==> ListCodes(l, k) == ListCodes(l, k - 1) + FlagCode(l[k - 1].0, l[k - 1].1);
  }

  /** The attribute that SGR digit `d` sets. */
  function Attribute(f: Flags, d: int): bool {
    match d
    case 0x31 => f.bold
    case 0x32 => f.dim
    case 0x33 => f.italic
    case 0x34 => f.underline
    case 0x35 => f.blink
    case 0x37 => f.inverse
    case 0x38 => f.hidden
    case 0x39 => f.strikethrough
    case _ => false
  }

  lemma {:induction false} ApplyListAttribute(f: Flags, list: seq<(bool, CodeUnit)>, k: nat, d: int)
    requires k <= |list| && forall i :: 0 <= i < |list| ==> 0x31 <= list[i].1 <= 0x39 && list[i].1 != 0x36
    ensures Attribute(ApplyList(f, list, k), d)
       <==> Attribute(f, d) || exists i :: 0 <= i < k && list[i].0 && list[i].1 == d
  {
    if k > 0 {
      ApplyListAttribute(f, list, k - 1, d);
    }
  }

  lemma AttributeOfList(g: Flags, d: int)
    ensures Attribute(g, d) <==> exists i :: 0 <= i < |FlagList(g)| && FlagList(g)[i].0 && FlagList(g)[i].1 == d
  {
    var l := FlagList(g);
    assert l[0] == (g.bold, 0x31) && l[1] == (g.dim, 0x32) && l[2] == (g.italic, 0x33);
    assert l[3] == (g.underline, 0x34) && l[4] == (g.blink, 0x35) && l[5] == (g.inverse, 0x37);
    assert l[6] == (g.hidden, 0x38) && l[7] == (g.strikethrough, 0x39);
  }

  lemma FlagsByAttribute(r: Flags, f: Flags, g: Flags)
    requires forall d :: Attribute(r, d) <==> Attribute(f, d) || Attribute(g, d)
    ensures r == OverlayFlags(f, g)
  {
    assert r.bold == Attribute(r, 0x31) && r.dim == Attribute(r, 0x32);
    assert r.italic == Attribute(r, 0x33) && r.underline == Attribute(r, 0x34);
    assert r.blink == Attribute(r, 0x35) && r.inverse == Attribute(r, 0x37);
    assert r.hidden == Attribute(r, 0x38) && r.strikethrough == Attribute(r, 0x39);
  }

  lemma ApplyListIsOverlay(f: Flags, g: Flags, n: nat)
    requires n == |FlagList(g)|
    ensures ApplyList(f, FlagList(g), n) == OverlayFlags(f, g)
  {
    var r := ApplyList(f, FlagList(g), n);
    forall d ensures Attribute(r, d) <==> Attribute(f, d) || Attribute(g, d) {
      ApplyListAttribute(f, FlagList(g), n, d);
      AttributeOfList(g, d);
    }
    FlagsByAttribute(r, f, g);
  }

  lemma FlagCodesEffect(under: TrackerState, f: Flags)
    ensures AllSelfContained(FlagCodes(f))
    ensures ApplyCodes(under, FlagCodes(f)) == under.(flags := OverlayFlags(under.flags, f))
  {
    var n := |FlagList(f)|;
    ListCodesEffect(under, FlagList(f), n);
    ListCodesAreFlagCodes(f, n);
    ApplyListIsOverlay(under.flags, f, n);
  }

  lemma StyleColorsOverlay(under: TrackerState, over: TrackerState, codes: seq<Text>, f: Flags)
    requires StateOk(over) && AllSelfContained(codes) && ApplyCodes(under, codes) == under.(flags := f)
    ensures var all := codes + ColorCode(over.fg) + ColorCode(over.bg);
            && AllSelfContained(all)
            && ApplyCodes(under, all) == Overlay(under, over).(flags := f)
  {
    ApplyCodesAppend(under, codes, ColorCode(over.fg));
    ColorEffect(under.(flags := f), over.fg, false);
    ApplyCodesAppend(under, codes + ColorCode(over.fg), ColorCode(over.bg));
    ColorEffect(ApplyCodes(under.(flags := f), ColorCode(over.fg)), over.bg, true);
  }

  /** Reading the style parameters of `over` lays them over the current state. */
  lemma StyleCodesOverlay(under: TrackerState, over: TrackerState)
    requires StateOk(over)
    ensures AllSelfContained(StyleCodes(over))
    ensures ApplyCodes(under, StyleCodes(over)) == Overlay(under, over)
  {
    FlagCodesEffect(under, over.flags);
    StyleColorsOverlay(under, over, FlagCodes(over.flags), OverlayFlags(under.flags, over.flags));
  }
}
