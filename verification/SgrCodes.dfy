/**
 * The codes the tracker of packages/tui/src/ansi-scan.ts understands, spelled out unit by unit: what each does to the
 * state it is read in, whatever parameters follow.
 */
module SgrCodes {
  import opened Std
  import opened AnsiTracker
  import opened AnsiReplay

  lemma SingleDigit(a: CodeUnit)
    ensures ParseInt([a]) == Some(a as int - 0x30)
  {
    OneDigit(a);
  }

  lemma TwoDigits(a: CodeUnit, b: CodeUnit)
    ensures ParseInt([a, b]) == Some(10 * (a as int - 0x30) + (b as int - 0x30))
  {
    assert [a, b][..1] == [a];
    OneDigit(a);
  }

  lemma ThreeDigits(a: CodeUnit, b: CodeUnit, c: CodeUnit)
    ensures ParseInt([a, b, c]) == Some(100 * (a as int - 0x30) + 10 * (b as int - 0x30) + (c as int - 0x30))
  {
    assert [a, b, c][..2] == [a, b];
    TwoDigits(a, b);
  }

  lemma ReadOne(st: TrackerState, part: Text, rest: seq<Text>)
    requires ColorWidth([part] + rest) == 0
    ensures ApplyParts(st, [part] + rest) == ApplyParts(ApplyCode(st, ParseInt(part)), rest)
  {
    assert ([part] + rest)[1..] == rest;
  }

  // ------------------------------------------------------------------------------------------
  // Colours
  // ------------------------------------------------------------------------------------------

  lemma JoinCons(part: Text, rest: seq<Text>)
    requires rest != []
    ensures Join([part] + rest) == part + [0x3b] + Join(rest)
  {
    assert ([part] + rest)[1..] == rest;
  }

  lemma ReadColor(st: TrackerState, own: seq<Text>, rest: seq<Text>)
    requires |own| > 0 && ColorWidth(own + rest) == |own|
    ensures ApplyParts(st, own + rest) == ApplyParts(SetColor(st, ParseInt(own[0]) == Some(48), Join(own)), rest)
  {
    assert (own + rest)[..|own|] == own && (own + rest)[|own|..] == rest;
  }

  /** `38;5;n` and `48;5;n` as one text. */
  lemma PaletteText(first: Text, n: Text)
    requires |first| == 2
    ensures Join([first, [0x35], n]) == first + [0x3b, 0x35, 0x3b] + n
  {
    JoinCons([0x35], [n]);
    JoinCons(first, [[0x35], n]);
    assert [[0x35]] + [n] == [[0x35], n] && [first] + [[0x35], n] == [first, [0x35], n];
  }

  lemma TrueText(first: Text, r: Text, g: Text, b: Text)
    requires |first| == 2
    ensures Join([first, [0x32], r, g, b]) == first + [0x3b, 0x32, 0x3b] + (r + [0x3b] + (g + [0x3b] + b))
  {
    JoinCons(g, [b]);
    JoinCons(r, [g, b]);
    JoinCons([0x32], [r, g, b]);
    JoinCons(first, [[0x32], r, g, b]);
    assert [g] + [b] == [g, b] && [r] + [g, b] == [r, g, b] && [[0x32]] + [r, g, b] == [[0x32], r, g, b];
    assert [first] + [[0x32], r, g, b] == [first, [0x32], r, g, b];
  }

  /** `38;5;n` selects a foreground of the palette, and takes three parameters. */
  lemma PaletteForeground(st: TrackerState, n: Text, rest: seq<Text>)
    ensures ApplyParts(st, [[0x33, 0x38], [0x35], n] + rest)
         == ApplyParts(st.(fg := Some([0x33, 0x38] + [0x3b, 0x35, 0x3b] + n)), rest)
  {
    hide ApplyParts, Join;
    TwoDigits(0x33, 0x38);
    PaletteText([0x33, 0x38], n);
    ReadColor(st, [[0x33, 0x38], [0x35], n], rest);
  }

  /** `48;5;n` selects a background of it. */
  lemma PaletteBackground(st: TrackerState, n: Text, rest: seq<Text>)
    ensures ApplyParts(st, [[0x34, 0x38], [0x35], n] + rest)
         == ApplyParts(st.(bg := Some([0x34, 0x38] + [0x3b, 0x35, 0x3b] + n)), rest)
  {
    hide ApplyParts, Join;
    TwoDigits(0x34, 0x38);
    PaletteText([0x34, 0x38], n);
    ReadColor(st, [[0x34, 0x38], [0x35], n], rest);
  }

  /** `38;2;r;g;b` selects a foreground by its components, and takes five parameters. */
  lemma TrueForeground(st: TrackerState, r: Text, g: Text, b: Text, rest: seq<Text>)
    ensures ApplyParts(st, [[0x33, 0x38], [0x32], r, g, b] + rest)
         == ApplyParts(st.(fg := Some([0x33, 0x38] + [0x3b, 0x32, 0x3b] + (r + [0x3b] + (g + [0x3b] + b)))), rest)
  {
    hide ApplyParts, Join;
    TwoDigits(0x33, 0x38);
    TrueText([0x33, 0x38], r, g, b);
    ReadColor(st, [[0x33, 0x38], [0x32], r, g, b], rest);
  }

  /** `48;2;r;g;b` selects a background by its components. */
  lemma TrueBackground(st: TrackerState, r: Text, g: Text, b: Text, rest: seq<Text>)
    ensures ApplyParts(st, [[0x34, 0x38], [0x32], r, g, b] + rest)
         == ApplyParts(st.(bg := Some([0x34, 0x38] + [0x3b, 0x32, 0x3b] + (r + [0x3b] + (g + [0x3b] + b)))), rest)
  {
    hide ApplyParts, Join;
    TwoDigits(0x34, 0x38);
    TrueText([0x34, 0x38], r, g, b);
    ReadColor(st, [[0x34, 0x38], [0x32], r, g, b], rest);
  }

  /** 38 or 48 with anything else behind it takes one parameter and changes nothing. */
  lemma NoColorSelected(st: TrackerState, parts: seq<Text>)
    requires |parts| >= 1 && (parts[0] == [0x33, 0x38] || parts[0] == [0x34, 0x38])
    requires |parts| >= 3 ==> parts[1] != [0x35]
    requires |parts| >= 5 ==> parts[1] != [0x32]
    ensures ApplyParts(st, parts) == ApplyParts(st, parts[1..])
  {
    TwoDigits(0x33, 0x38);
    TwoDigits(0x34, 0x38);
  }

  /** 30 to 37 and 90 to 97 in front, 40 to 47 and 100 to 107 behind; 39 and 49 are the default colours. */
  lemma StandardColors(st: TrackerState, d: CodeUnit, rest: seq<Text>)
    requires 0x30 <= d <= 0x37
    ensures ApplyParts(st, [[0x33, d]] + rest) == ApplyParts(st.(fg := Some([0x33, d])), rest)
    ensures ApplyParts(st, [[0x39, d]] + rest) == ApplyParts(st.(fg := Some([0x39, d])), rest)
    ensures ApplyParts(st, [[0x34, d]] + rest) == ApplyParts(st.(bg := Some([0x34, d])), rest)
    ensures ApplyParts(st, [[0x31, 0x30, d]] + rest) == ApplyParts(st.(bg := Some([0x31, 0x30, d])), rest)
  {
    hide ApplyParts, ParseInt, Decimal;
    var k: nat := d as int - 0x30;
    TwoDigits(0x33, d);
    TwoDigits(0x39, d);
    TwoDigits(0x34, d);
    ThreeDigits(0x31, 0x30, d);
    WrittenAlike(k);
    StandardColor(st, 30 + k, [0x33, d], rest);
    StandardColor(st, 90 + k, [0x39, d], rest);
    StandardColor(st, 40 + k, [0x34, d], rest);
    StandardColor(st, 100 + k, [0x31, 0x30, d], rest);
  }

  lemma WrittenAlike(k: nat)
    requires k <= 7
    ensures Decimal(30 + k) == [0x33, 0x30 + k] && Decimal(90 + k) == [0x39, 0x30 + k]
    ensures Decimal(40 + k) == [0x34, 0x30 + k] && Decimal(100 + k) == [0x31, 0x30, 0x30 + k]
  {
    var ten: nat := 10;
    assert Decimal(ten) == [0x31, 0x30];
  }

  lemma StandardColor(st: TrackerState, c: nat, part: Text, rest: seq<Text>)
    requires 30 <= c <= 37 || 90 <= c <= 97 || 40 <= c <= 47 || 100 <= c <= 107
    requires ParseInt(part) == Some(c) && Decimal(c) == part
    ensures ApplyParts(st, [part] + rest)
         == ApplyParts(if c <= 37 || 90 <= c <= 97 then st.(fg := Some(part)) else st.(bg := Some(part)), rest)
  {
    hide ApplyParts, ParseInt, Decimal;
    ReadOne(st, part, rest);
  }

  lemma DefaultColors(st: TrackerState, rest: seq<Text>)
    ensures ApplyParts(st, [[0x33, 0x39]] + rest) == ApplyParts(st.(fg := None), rest)
    ensures ApplyParts(st, [[0x34, 0x39]] + rest) == ApplyParts(st.(bg := None), rest)
  {
    TwoDigits(0x33, 0x39);
    TwoDigits(0x34, 0x39);
    ReadOne(st, [0x33, 0x39], rest);
    ReadOne(st, [0x34, 0x39], rest);
  }

  // ------------------------------------------------------------------------------------------
  // Attributes
  // ------------------------------------------------------------------------------------------

  /** The attributes with the one that `d` stands for turned on or off; bold and dim are turned off together, by 2. */
  function Attributes(f: Flags, on: bool, d: int): Flags {
    Flags(
      if d == 1 || (d == 2 && !on) then on else f.bold,
      if d == 2 then on else f.dim,
      if d == 3 then on else f.italic,
      if d == 4 then on else f.underline,
      if d == 5 then on else f.blink,
      if d == 7 then on else f.inverse,
      if d == 8 then on else f.hidden,
      if d == 9 then on else f.strikethrough)
  }

  lemma AttributeOn(f: Flags, k: int)
    requires 1 <= k <= 9
    ensures ApplyFlagCode(f, k) == Attributes(f, true, k)
  {
  }

  lemma AttributeOff(f: Flags, k: int)
    requires 1 <= k <= 9
    ensures ApplyFlagCode(f, 20 + k) == Attributes(f, false, k)
  {
  }

  lemma ColorsKept(st: TrackerState, c: int)
    requires 1 <= c <= 29
    ensures ApplyCode(st, Some(c)) == st.(flags := ApplyFlagCode(st.flags, c))
  {
    hide ApplyFlagCode, Decimal;
  }

  lemma PlainParameter(st: TrackerState, part: Text, c: int, rest: seq<Text>)
    requires ParseInt(part) == Some(c) && c != 38 && c != 48
    ensures ApplyParts(st, [part] + rest) == ApplyParts(ApplyCode(st, Some(c)), rest)
  {
    hide ApplyParts, ApplyCode, ParseInt;
    ReadOne(st, part, rest);
  }

  /** 1 to 9 turn an attribute on, 21 to 29 turn one off, 22 two of them; 6 and 26 are nobody's. */
  lemma AttributeCodes(st: TrackerState, d: CodeUnit, rest: seq<Text>)
    requires 0x31 <= d <= 0x39
    ensures ApplyParts(st, [[d]] + rest) == ApplyParts(st.(flags := Attributes(st.flags, true, d as int - 0x30)), rest)
    ensures ApplyParts(st, [[0x32, d]] + rest)
         == ApplyParts(st.(flags := Attributes(st.flags, false, d as int - 0x30)), rest)
  {
    hide ApplyParts, ApplyCode, Attributes, ApplyFlagCode, ParseInt;
    var k := d as int - 0x30;
    SingleDigit(d);
    TwoDigits(0x32, d);
    PlainParameter(st, [d], k, rest);
    PlainParameter(st, [0x32, d], 20 + k, rest);
    ColorsKept(st, k);
    ColorsKept(st, 20 + k);
    AttributeOn(st.flags, k);
    AttributeOff(st.flags, k);
  }

  /** 0 anywhere turns everything off but the hyperlink. */
  lemma ZeroResets(st: TrackerState, rest: seq<Text>)
    ensures ApplyParts(st, [[0x30]] + rest)
         == ApplyParts(TrackerState(Flags(false, false, false, false, false, false, false, false), None, None, st.link),
                       rest)
  {
    OneDigit(0x30);
    ReadOne(st, [0x30], rest);
  }

  // ------------------------------------------------------------------------------------------
  // Whole codes
  // ------------------------------------------------------------------------------------------

  /** `ESC [ parameters m`: the parameters are read one after the other. */
  lemma SgrCode(st: TrackerState, parts: seq<Text>)
    requires |parts| >= 1 && DigitParts(parts) && parts != [[]] && parts != [[0x30]]
    ensures ProcessCode(st, [0x1b, 0x5b] + Join(parts) + [0x6d]) == ApplyParts(st, parts)
  {
    var params := Join(parts);
    JoinIsSgrText(parts);
    ProcessSgrSequence(st, params);
    assert NoSemicolons(parts);
    SplitJoin(parts);
    if params == [] || params == [0x30] {
      SplitOne(params);
      assert false;
    }
  }

  lemma {:induction false} JoinIsSgrText(parts: seq<Text>)
    requires |parts| >= 1 && DigitParts(parts)
    ensures SgrText(Join(parts))
  {
    if |parts| > 1 {
      JoinIsSgrText(parts[1..]);
    }
  }

  /** `ESC [ m` and `ESC [ 0 m` turn everything off but the hyperlink. */
  lemma ResetCodes(st: TrackerState)
    ensures var off := TrackerState(Flags(false, false, false, false, false, false, false, false), None, None, st.link);
            ProcessCode(st, [0x1b, 0x5b, 0x6d]) == ProcessCode(st, [0x1b, 0x5b, 0x30, 0x6d]) == off
  {
    ProcessSgrSequence(st, []);
    ProcessSgrSequence(st, [0x30]);
    assert SgrSequence([]) == [0x1b, 0x5b, 0x6d] && SgrSequence([0x30]) == [0x1b, 0x5b, 0x30, 0x6d];
  }

  /** For instance `ESC [ 38 ; 5 ; n m` sets the foreground and nothing else. */
  lemma PaletteCode(st: TrackerState, n: Text)
    requires DigitText(n)
    ensures ProcessCode(st, [0x1b, 0x5b] + ([0x33, 0x38] + [0x3b, 0x35, 0x3b] + n) + [0x6d])
         == st.(fg := Some([0x33, 0x38] + [0x3b, 0x35, 0x3b] + n))
  {
    hide Join, ProcessCode;
    var parts := [[0x33, 0x38], [0x35], n];
    PaletteForeground(st, n, []);
    PaletteText([0x33, 0x38], n);
    SgrCode(st, parts);
    assert parts + [] == parts;
  }

  /** `ESC ] 8 ; params ; url` with BEL or ST opens a hyperlink, and nothing else changes. */
  lemma LinkCodes(st: TrackerState, params: Text, url: Text)
    requires SEMICOLON !in params && url != []
    ensures ProcessCode(st, [0x1b, 0x5d, 0x38, 0x3b] + (params + [0x3b] + url) + [0x07])
         == st.(link := Some(Hyperlink(params, url, true)))
    ensures ProcessCode(st, [0x1b, 0x5d, 0x38, 0x3b] + (params + [0x3b] + url) + [0x1b, 0x5c])
         == st.(link := Some(Hyperlink(params, url, false)))
  {
    LinkBody(params, url, [0x07]);
    LinkBody(params, url, [0x1b, 0x5c]);
  }

  /** Without a URL it closes the hyperlink. */
  lemma LinkCloses(st: TrackerState, params: Text)
    requires SEMICOLON !in params
    ensures ProcessCode(st, [0x1b, 0x5d, 0x38, 0x3b] + (params + [0x3b]) + [0x07]) == st.(link := None)
    ensures ProcessCode(st, [0x1b, 0x5d, 0x38, 0x3b] + (params + [0x3b]) + [0x1b, 0x5c]) == st.(link := None)
  {
    LinkBody(params, [], [0x07]);
    LinkBody(params, [], [0x1b, 0x5c]);
    assert params + [0x3b] + [] == params + [0x3b];
  }

  lemma LinkBody(params: Text, url: Text, end: Text)
    requires SEMICOLON !in params && (end == [0x07] || end == [0x1b, 0x5c])
    ensures ParseOsc8Hyperlink([0x1b, 0x5d, 0x38, 0x3b] + (params + [0x3b] + url) + end)
         == if url == [] then Closing else Opening(Hyperlink(params, url, end == [0x07]))
  {
    var body := params + [0x3b] + url;
    var code := OSC8 + body + end;
    LinkEnd(body, end);
    FirstSemicolon(body, |params|);
    assert body[..|params|] == params && body[|params| + 1..] == url;
  }

  lemma LinkEnd(body: Text, end: Text)
    requires end == [0x07] || end == [0x1b, 0x5c]
    ensures var code := OSC8 + body + end;
            && StartsWith(code, OSC8) && (EndsWith(code, [0x07]) <==> end == [0x07])
            && SliceDroppingEnd(code, 4, |end|) == body
  {
    var code := OSC8 + body + end;
    assert code[..4] == OSC8 && code[|code| - 1..] == [end[|end| - 1]];
    assert code[4..|code| - |end|] == body;
  }

  // ------------------------------------------------------------------------------------------
  // What the tracker writes
  // ------------------------------------------------------------------------------------------

  /** With everything on, the attributes come in order, then the foreground, the background and the hyperlink. */
  lemma ActiveCodesSpelled(st: TrackerState, fg: Text, bg: Text)
    requires st.flags == Flags(true, true, true, true, true, true, true, true)
    requires fg != [] && bg != [] && st.fg == Some(fg) && st.bg == Some(bg)
    ensures ActiveCodes(st)
         == [0x1b, 0x5b] + Join([[0x31], [0x32], [0x33], [0x34], [0x35], [0x37], [0x38], [0x39], fg, bg]) + [0x6d]
            + if st.link.None? then []
              else [0x1b, 0x5d, 0x38, 0x3b] + st.link.value.params + [0x3b] + st.link.value.url
                   + if st.link.value.bel then [0x07] else [0x1b, 0x5c]
  {
    hide Join;
    assert StyleCodes(st) == [[0x31], [0x32], [0x33], [0x34], [0x35], [0x37], [0x38], [0x39], fg, bg];
  }

  /** A line end turns off the underline with `ESC [ 24 m` and closes the link with its own terminator. */
  lemma LineEndSpelled(st: TrackerState)
    ensures LineEndReset(st)
         == (if st.flags.underline then [0x1b, 0x5b, 0x32, 0x34, 0x6d] else [])
            + (if st.link.None? then []
               else if st.link.value.bel then [0x1b, 0x5d, 0x38, 0x3b, 0x3b, 0x07]
               else [0x1b, 0x5d, 0x38, 0x3b, 0x3b, 0x1b, 0x5c])
  {
    assert SgrSequence([0x32, 0x34]) == [0x1b, 0x5b, 0x32, 0x34, 0x6d];
    if st.link.Some? {
      assert FormatOsc8Close(true) == [0x1b, 0x5d, 0x38, 0x3b, 0x3b, 0x07];
      assert FormatOsc8Close(false) == [0x1b, 0x5d, 0x38, 0x3b, 0x3b, 0x1b, 0x5c];
    }
  }
}
