/**
 * Which text the stripper of packages/tui/src/ansi-scan.ts reduces to exactly its plain stretches, although its
 * first stage may change the sequences its second stage sees.
 */
module AnsiSegments {
  import opened Std
  import opened AnsiScan
  import opened AnsiStrip

  datatype Segment = Plain(text: Text) | Code(text: Text)

  /** A two-unit escape such as RIS: not an introducer, not another ESC, not a line break. */
  predicate TwoUnitEscape(t: Text) {
    && |t| == 2 && t[0] == ESC && t[1] != ESC && t[1] != LBRACKET && !LineBreak(t[1])
    && !BelIntroducer(t[1]) && !StIntroducer(t[1])
  }

  /** A code as ECMA-48 writes it: one complete sequence, or a two-unit escape. */
  predicate WellFormedCode(t: Text) {
    TwoUnitEscape(t) || AnsiEnd(t, 0) == Some(|t|)
  }

  /** The second stage takes the first two units of `u` and nothing else, whatever follows `u`. */
  predicate SettledEscape(u: Text) {
    && |u| >= 2 && u[0] == ESC && !LineBreak(u[1]) && !BelIntroducer(u[1]) && !StIntroducer(u[1])
    && (u[1] == LBRACKET ==> CsiStop(u, 2, false) < |u| && !Final(u[CsiStop(u, 2, false)]))
  }

  /** `u` is made of complete sequences and settled two-unit escapes, read from the left. */
  predicate Dissolves(u: Text)
    decreases |u|
  {
    u == []
    || (AnsiEnd(u, 0).Some? && Dissolves(u[AnsiEnd(u, 0).value..]))
    || (SettledEscape(u) && Dissolves(u[2..]))
  }

  predicate SegmentOk(seg: Segment) {
    match seg
    case Plain(t) => ESC !in t
    case Code(t) => WellFormedCode(t) && Dissolves(RemoveCommonCsi(t, 0))
  }

  function Render(segs: seq<Segment>): Text {
    if segs == [] then [] else segs[0].text + Render(segs[1..])
  }

  function PlainText(segs: seq<Segment>): Text {
    if segs == [] then [] else (if segs[0].Plain? then segs[0].text else []) + PlainText(segs[1..])
  }

  /** No match of the common CSI pattern that starts in `a` can reach past it. */
  ghost predicate Closed(a: Text) {
    forall i: nat :: i < |a| && a[i] == ESC ==>
      i + 1 < |a| && (a[i + 1] == LBRACKET ==> CommonCsiStop(a, i + 2) < |a|)
  }

  lemma {:induction false} CommonCsiStopPrefix(a: Text, b: Text, j: nat)
    requires j <= |a| && CommonCsiStop(a, j) < |a|
    ensures CommonCsiStop(a + b, j) == CommonCsiStop(a, j)
    decreases |a| - j
  {
    if j < |a| && Parameter(a[j]) {
      CommonCsiStopPrefix(a, b, j + 1);
    }
  }

  lemma {:induction false} CommonCsiStopShift(a: Text, b: Text, j: nat)
    requires j <= |b|
    ensures CommonCsiStop(a + b, |a| + j) == |a| + CommonCsiStop(b, j)
    decreases |b| - j
  {
    if j < |b| && Parameter(b[j]) {
      CommonCsiStopShift(a, b, j + 1);
    }
  }

  lemma CommonCsiEndShift(a: Text, b: Text, i: nat)
    ensures CommonCsiEnd(a + b, |a| + i)
         == (match CommonCsiEnd(b, i) case Some(e) => Some(|a| + e) case None => None)
  {
    if At(b, i) == ESC && At(b, i + 1) == LBRACKET {
      CommonCsiStopShift(a, b, i + 2);
    }
  }

  lemma {:induction false} RemoveCommonCsiShift(a: Text, b: Text, i: nat)
    ensures RemoveCommonCsi(a + b, |a| + i) == RemoveCommonCsi(b, i)
    decreases |b| - i
  {
    if i < |b| {
      CommonCsiEndShift(a, b, i);
      assert (a + b)[|a| + i] == b[i];
      var end := CommonCsiEnd(b, i);
      RemoveCommonCsiShift(a, b, if end.Some? then end.value else i + 1);
    }
  }

  lemma {:induction false} RemoveCommonCsiAppend(a: Text, b: Text, i: nat)
    requires i <= |a| && Closed(a)
    ensures RemoveCommonCsi(a + b, i) == RemoveCommonCsi(a, i) + RemoveCommonCsi(b, 0)
    decreases |a| - i
  {
    if i == |a| {
      RemoveCommonCsiShift(a, b, 0);
    } else {
      if a[i] == ESC && a[i + 1] == LBRACKET {
        CommonCsiStopPrefix(a, b, i + 2);
      }
      assert CommonCsiEnd(a + b, i) == CommonCsiEnd(a, i);
      match CommonCsiEnd(a, i)
      case Some(e) => RemoveCommonCsiAppend(a, b, e);
      case None => RemoveCommonCsiAppend(a, b, i + 1);
    }
  }

  lemma NextUnitShift(a: Text, b: Text, i: nat)
    requires i < |b|
    ensures NextUnit(a + b, |a| + i) == |a| + NextUnit(b, i) && Kept(a + b, |a| + i) == Kept(b, i)
  {
    AnsiEndShift(a, b, i);
    assert (a + b)[|a| + i] == b[i] && (i + 1 < |b| ==> (a + b)[|a| + i + 1] == b[i + 1]);
  }

  lemma {:induction false} RemoveEscapesShift(a: Text, b: Text, i: nat)
    ensures RemoveEscapes(a + b, |a| + i) == RemoveEscapes(b, i)
    decreases |b| - i
  {
    if i < |b| {
      NextUnitShift(a, b, i);
      OneUnit(a + b, |a| + i);
      OneUnit(b, i);
      RemoveEscapesShift(a, b, NextUnit(b, i));
    }
  }

  lemma {:induction false} BarrierStops(s: Text, j: nat, k: nat)
    requires j <= k < |s| && !Parameter(s[k])
    ensures CommonCsiStop(s, j) <= k
    decreases k - j
  {
    if j < k && Parameter(s[j]) {
      BarrierStops(s, j + 1, k);
    }
  }

  lemma CodeClosed(t: Text)
    requires WellFormedCode(t)
    ensures Closed(t)
  {
    if !TwoUnitEscape(t) {
      if t[1] == LBRACKET {
        assert t[|t| - 1] != ESC && Final(t[|t| - 1]);
        BarrierStops(t, 2, |t| - 1);
      } else {
        var k := ControlTerminator(t);
        forall i: nat | i < |t| && t[i] == ESC
          ensures i + 1 < |t| && (t[i + 1] == LBRACKET ==> CommonCsiStop(t, i + 2) < |t|)
        {
          assert i <= k;
          if t[i + 1] == LBRACKET {
            assert i + 1 != k;
            BarrierStops(t, i + 2, k);
          }
        }
      }
    }
  }

  lemma ControlTerminator(t: Text) returns (k: nat)
    requires AnsiEnd(t, 0) == Some(|t|) && ControlStringAt(t, 0)
    ensures 2 <= k < |t| && !Parameter(t[k])
    ensures forall i :: k < i < |t| ==> t[i] != ESC
    ensures t[k] == BEL || (t[k] == ESC && k + 2 == |t| && t[k + 1] == BACKSLASH)
  {
    ControlEndIffFirstTerminator(t, 2, BelIntroducer(At(t, 1)), |t|);
    k :| 2 <= k < |t| && TerminatorAt(t, k, BelIntroducer(At(t, 1))) && |t| == TerminatorEnd(t, k);
  }

  lemma PlainPrefixKept(t: Text, rest: Text)
    requires ESC !in t
    ensures RemoveEscapes(t + rest, 0) == t + RemoveEscapes(rest, 0)
  {
    PlainKept(t + rest, 0, |t|);
    RemoveEscapesShift(t, rest, 0);
    assert (t + rest)[0..|t|] == t;
  }

  // ------------------------------------------------------------------------------------------
  // What the second stage removes wherever it stands
  // ------------------------------------------------------------------------------------------

  /** `u` leaves nothing and takes nothing with it when `rest` follows. */
  predicate VanishesBefore(u: Text, rest: Text) {
    RemoveEscapes(u + rest, 0) == RemoveEscapes(rest, 0)
  }

  lemma LeadingCode(u: Text, rest: Text)
    requires AnsiEnd(u, 0).Some?
    ensures RemoveEscapes(u + rest, 0) == RemoveEscapes(u[AnsiEnd(u, 0).value..] + rest, 0)
  {
    var e := AnsiEnd(u, 0).value;
    assert (u + rest)[0..e] == u[0..e];
    AnsiEndLocal(u, 0, u + rest, 0);
    assert u + rest == u[..e] + (u[e..] + rest);
    RemoveEscapesShift(u[..e], u[e..] + rest, 0);
  }

  lemma {:induction false} CsiStopPrefix(a: Text, b: Text, j: nat, hasIntermediate: bool)
    requires j <= |a|
    ensures CsiStop(a, j, hasIntermediate) < |a|
            ==> CsiStop(a + b, j, hasIntermediate) == CsiStop(a, j, hasIntermediate)
    ensures CsiStop(a, j, hasIntermediate) == |a| && b != [] && Final(b[0])
            ==> CsiStop(a + b, j, hasIntermediate) == |a|
    decreases |a| - j
  {
    if j < |a| {
      if Parameter(a[j]) && !hasIntermediate {
        CsiStopPrefix(a, b, j + 1, false);
      } else if Intermediate(a[j]) {
        CsiStopPrefix(a, b, j + 1, true);
      }
    }
  }

  lemma SettledStays(u: Text, rest: Text)
    requires SettledEscape(u)
    ensures AnsiEnd(u + rest, 0).None?
  {
    if u[1] == LBRACKET {
      CsiStopPrefix(u, rest, 2, false);
    }
  }

  lemma LeadingEscape(u: Text, rest: Text)
    requires SettledEscape(u)
    ensures RemoveEscapes(u + rest, 0) == RemoveEscapes(u[2..] + rest, 0)
  {
    SettledStays(u, rest);
    assert u + rest == u[..2] + (u[2..] + rest);
    RemoveEscapesShift(u[..2], u[2..] + rest, 0);
  }

  lemma {:induction false} DissolvingVanishes(u: Text, rest: Text)
    requires Dissolves(u)
    ensures VanishesBefore(u, rest)
    decreases |u|
  {
    if u == [] {
      assert u + rest == rest;
    } else if AnsiEnd(u, 0).Some? && Dissolves(u[AnsiEnd(u, 0).value..]) {
      LeadingCode(u, rest);
      DissolvingVanishes(u[AnsiEnd(u, 0).value..], rest);
    } else {
      LeadingEscape(u, rest);
      DissolvingVanishes(u[2..], rest);
    }
  }

  /** What completes an open control sequence, and what closes an open control string after a plain unit. */
  const CLOSE_CSI: Text := [0x6d]
  const CLOSE_STRING: Text := [0x78, ESC, BACKSLASH]

  lemma {:induction false} OpenHasNoTerminator(s: Text, j: nat, allowBel: bool)
    requires ControlEnd(s, j, allowBel).None?
    ensures forall k: nat :: j <= k < |s| ==> !TerminatorAt(s, k, allowBel)
    decreases |s| - j
  {
    if j < |s| {
      OpenHasNoTerminator(s, j + 1, allowBel);
    }
  }

  lemma OpenStringSwallows(u: Text)
    requires ControlStringAt(u, 0) && AnsiEnd(u, 0).None?
    ensures !VanishesBefore(u, CLOSE_STRING)
  {
    var s, allowBel := u + CLOSE_STRING, BelIntroducer(At(u, 1));
    OpenHasNoTerminator(u, 2, allowBel);
    forall k: nat | 2 <= k < |u| + 1 ensures !TerminatorAt(s, k, allowBel) {
      if k < |u| {
        assert !TerminatorAt(u, k, allowBel);
      }
    }
    FirstTerminator(s, 2, |u| + 1, allowBel);
    assert RemoveEscapes(s, 0) == [];
    assert RemoveEscapes(CLOSE_STRING, 0) != [];
  }

  lemma OpenCsiSwallows(u: Text)
    requires At(u, 0) == ESC && At(u, 1) == LBRACKET && CsiStop(u, 2, false) == |u|
    ensures !VanishesBefore(u, CLOSE_CSI)
  {
    CsiStopPrefix(u, CLOSE_CSI, 2, false);
    assert RemoveEscapes(u + CLOSE_CSI, 0) == [];
    assert RemoveEscapes(CLOSE_CSI, 0) != [];
  }

  /** What vanishes first: a complete sequence, a settled escape, or nothing that vanishes in every context. */
  lemma VanishingHead(u: Text)
    requires u != [] && VanishesBefore(u, []) && VanishesBefore(u, CLOSE_CSI) && VanishesBefore(u, CLOSE_STRING)
    ensures AnsiEnd(u, 0).Some? || SettledEscape(u)
  {
    assert u + [] == u;
    OneUnit(u, 0);
    if AnsiEnd(u, 0).None? {
      if ControlStringAt(u, 0) {
        OpenStringSwallows(u);
      } else if u[1] == LBRACKET && CsiStop(u, 2, false) == |u| {
        OpenCsiSwallows(u);
      }
    }
  }

  /** Three contexts suffice to tell: nothing, a final byte, and a string terminator after a plain unit. */
  lemma {:induction false} VanishingDissolves(u: Text)
    requires VanishesBefore(u, []) && VanishesBefore(u, CLOSE_CSI) && VanishesBefore(u, CLOSE_STRING)
    ensures Dissolves(u)
    decreases |u|
  {
    if u != [] {
      VanishingHead(u);
      var n := if AnsiEnd(u, 0).Some? then AnsiEnd(u, 0).value else 2;
      forall rest | rest in {[], CLOSE_CSI, CLOSE_STRING} ensures VanishesBefore(u[n..], rest) {
        if AnsiEnd(u, 0).Some? {
          LeadingCode(u, rest);
        } else {
          LeadingEscape(u, rest);
        }
      }
      VanishingDissolves(u[n..]);
    }
  }

  /** A stretch is removed in every context if and only if it dissolves. */
  lemma VanishesIffDissolves(u: Text)
    ensures (forall rest :: VanishesBefore(u, rest)) <==> Dissolves(u)
  {
    if forall rest :: VanishesBefore(u, rest) {
      VanishingDissolves(u);
    }
    if Dissolves(u) {
      forall rest ensures VanishesBefore(u, rest) {
        DissolvingVanishes(u, rest);
      }
    }
  }

  // ------------------------------------------------------------------------------------------
  // Text made of plain stretches and codes
  // ------------------------------------------------------------------------------------------

  /** The first stage works segment by segment. */
  lemma FirstStageOf(seg: Segment, rest: Text)
    requires seg.Plain? ==> ESC !in seg.text
    requires seg.Code? ==> WellFormedCode(seg.text)
    ensures RemoveCommonCsi(seg.text + rest, 0) == RemoveCommonCsi(seg.text, 0) + RemoveCommonCsi(rest, 0)
  {
    if seg.Code? {
      CodeClosed(seg.text);
    }
    RemoveCommonCsiAppend(seg.text, rest, 0);
  }

  /** A segment contributes its plain text, and nothing else, to the stripped result. */
  lemma StripSegment(seg: Segment, rest: Text)
    requires SegmentOk(seg)
    ensures RemoveEscapes(RemoveCommonCsi(seg.text, 0) + rest, 0)
         == (if seg.Plain? then seg.text else []) + RemoveEscapes(rest, 0)
  {
    if seg.Plain? {
      CommonCsiStageKeepsPlain(seg.text, 0);
      PlainPrefixKept(seg.text, rest);
    } else {
      DissolvingVanishes(RemoveCommonCsi(seg.text, 0), rest);
    }
  }

  /** Text of plain stretches and codes that dissolve is stripped to exactly its plain stretches. */
  lemma {:induction false} StripLeavesPlainText(segs: seq<Segment>)
    requires forall i :: 0 <= i < |segs| ==> SegmentOk(segs[i])
    ensures Strip(Render(segs)) == PlainText(segs)
  {
    if segs != [] {
      var rest := Render(segs[1..]);
      FirstStageOf(segs[0], rest);
      StripSegment(segs[0], RemoveCommonCsi(rest, 0));
      StripLeavesPlainText(segs[1..]);
    }
  }

  /** Plain stretches, codes that dissolve, and the code `c`. */
  ghost predicate TextWith(c: Text, segs: seq<Segment>) {
    forall i :: 0 <= i < |segs| ==> SegmentOk(segs[i]) || segs[i] == Code(c)
  }

  lemma StripAfterCode(c: Text, others: seq<Segment>)
    requires WellFormedCode(c)
    ensures Render([Code(c)] + others) == c + Render(others)
    ensures PlainText([Code(c)] + others) == PlainText(others)
    ensures Strip(Render([Code(c)] + others))
         == RemoveEscapes(RemoveCommonCsi(c, 0) + RemoveCommonCsi(Render(others), 0), 0)
  {
    assert ([Code(c)] + others)[1..] == others;
    FirstStageOf(Code(c), Render(others));
  }

  /** The three contexts, as well-formed text. */
  lemma ProbeText(others: seq<Segment>, rest: Text)
    requires (others == [] && rest == []) || (others == [Plain(CLOSE_CSI)] && rest == CLOSE_CSI)
             || (others == [Plain([0x78]), Code([ESC, BACKSLASH])] && rest == CLOSE_STRING)
    ensures forall i :: 0 <= i < |others| ==> SegmentOk(others[i])
    ensures Render(others) == rest && RemoveCommonCsi(rest, 0) == rest
  {
    NoCsiKept(rest, 0);
    assert rest[0..] == rest;
    if others == [Plain([0x78]), Code([ESC, BACKSLASH])] {
      StandardCodeDissolves([ESC, BACKSLASH]);
      RenderCons(others[0], [others[1]]);
      RenderCons(others[1], []);
    } else if others == [Plain(CLOSE_CSI)] {
      RenderCons(others[0], []);
    }
  }

  lemma RenderCons(seg: Segment, segs: seq<Segment>)
    ensures Render([seg] + segs) == seg.text + Render(segs)
    ensures segs == [] ==> Render([seg]) == seg.text
  {
    assert ([seg] + segs)[1..] == segs && [seg][1..] == [];
  }

  /**
   * A code is stripped from every text it can stand in if and only if what the first stage leaves of it
   * dissolves.
   */
  lemma CodeStripsIffDissolves(c: Text)
    requires WellFormedCode(c)
    ensures (forall segs :: TextWith(c, segs) ==> Strip(Render(segs)) == PlainText(segs))
       <==> Dissolves(RemoveCommonCsi(c, 0))
  {
    var kept := RemoveCommonCsi(c, 0);
    if Dissolves(kept) {
      forall segs | TextWith(c, segs) ensures Strip(Render(segs)) == PlainText(segs) {
        StripLeavesPlainText(segs);
      }
    }
    if forall segs :: TextWith(c, segs) ==> Strip(Render(segs)) == PlainText(segs) {
      VanishesInProbe(c, [], []);
      VanishesInProbe(c, [Plain(CLOSE_CSI)], CLOSE_CSI);
      VanishesInProbe(c, [Plain([0x78]), Code([ESC, BACKSLASH])], CLOSE_STRING);
      VanishingDissolves(kept);
    }
  }

  lemma VanishesInProbe(c: Text, others: seq<Segment>, rest: Text)
    requires WellFormedCode(c)
    requires (others == [] && rest == []) || (others == [Plain(CLOSE_CSI)] && rest == CLOSE_CSI)
             || (others == [Plain([0x78]), Code([ESC, BACKSLASH])] && rest == CLOSE_STRING)
    requires forall segs :: TextWith(c, segs) ==> Strip(Render(segs)) == PlainText(segs)
    ensures VanishesBefore(RemoveCommonCsi(c, 0), rest)
  {
    ProbeText(others, rest);
    StripAfterCode(c, others);
    var segs := [Code(c)] + others;
    assert TextWith(c, segs);
    StripLeavesPlainText(others);
  }

  lemma {:induction false} NoCsiKept(s: Text, i: nat)
    requires i <= |s| && forall k :: i <= k < |s| - 1 && s[k] == ESC ==> s[k + 1] != LBRACKET
    ensures RemoveCommonCsi(s, i) == s[i..]
    decreases |s| - i
  {
    if i < |s| {
      NoCsiKept(s, i + 1);
    }
  }

  /**
   * A code that dissolves: one that is no control string, and a control string without a control sequence inside.
   * ECMA-48 section 5.6 allows no ESC in a control string at all.
   */
  lemma StandardCodeDissolves(t: Text)
    requires WellFormedCode(t)
    requires ControlStringAt(t, 0) ==> forall k :: 0 <= k < |t| - 1 && t[k] == ESC ==> t[k + 1] != LBRACKET
    ensures Dissolves(RemoveCommonCsi(t, 0))
  {
    if TwoUnitEscape(t) {
      NoCsiKept(t, 0);
      assert t[0..] == t && t[2..] == [];
    } else {
      if ControlStringAt(t, 0) {
        NoCsiKept(t, 0);
        assert t[0..] == t;
      } else {
        CsiCodeKeptOrRemoved(t);
      }
      assert t[|t|..] == [];
    }
  }

  lemma CsiCodeKeptOrRemoved(t: Text)
    requires AnsiEnd(t, 0) == Some(|t|) && At(t, 1) == LBRACKET
    ensures RemoveCommonCsi(t, 0) == t || RemoveCommonCsi(t, 0) == []
  {
    CsiEndIffGrammar(t, 2, |t|);
    var p: nat, q: nat :| CsiShape(t, 2, p, q) && |t| == q + 1;
    if p == q {
      CommonCsiStopAt(t, 2, q);
    } else {
      CommonCsiStopAt(t, 2, p);
      CommonCsiStageKeepsPlain(t, 1);
    }
  }

  lemma {:induction false} CommonCsiStopAt(t: Text, j: nat, p: nat)
    requires j <= p < |t| && !Parameter(t[p]) && forall k :: j <= k < p ==> Parameter(t[k])
    ensures CommonCsiStop(t, j) == p
    decreases p - j
  {
    if j < p {
      CommonCsiStopAt(t, j + 1, p);
    }
  }

  /**
   * Not every code dissolves: the first stage can glue an ESC to a backslash inside a complete OSC string, so
   * that the string ends early and its remainder is left in the result.
   */
  lemma FastPathCanLeakPayload()
    ensures var osc: Text := [ESC, RBRACKET, ESC, ESC, LBRACKET, 0x6d, BACKSLASH, 0x78, BEL];
            && WellFormedCode(osc) && !Dissolves(RemoveCommonCsi(osc, 0))
            && Strip(osc) == [0x78, BEL]
            && RemoveEscapes(osc, 0) == []
  {
    var osc: Text := [ESC, RBRACKET, ESC, ESC, LBRACKET, 0x6d, BACKSLASH, 0x78, BEL];
    FirstTerminator(osc, 2, 8, true);
    var rest: Text := [BACKSLASH, 0x78, BEL];
    CommonCsiStageKeepsPlain(osc, 6);
    assert osc[6..] == rest;
    assert CommonCsiStop(osc, 5) == 5;
    assert RemoveCommonCsi(osc, 3) == rest;
    assert RemoveCommonCsi(osc, 2) == [ESC] + rest;
    assert RemoveCommonCsi(osc, 1) == [RBRACKET, ESC] + rest;
    var left: Text := [ESC, RBRACKET, ESC, BACKSLASH, 0x78, BEL];
    assert RemoveCommonCsi(osc, 0) == left;
    FirstTerminator(left, 2, 2, true);
    EscapesStageKeepsPlain(left, 4);
    assert left[4..] == [0x78, BEL];
  }
}
