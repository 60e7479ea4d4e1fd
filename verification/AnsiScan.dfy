/**
 * The control-sequence scanner of packages/tui/src/ansi-scan.ts: a stateless
 * forward scan, and the same scan with a right-to-left cache of control-string ends.
 */
module AnsiScan {
  import opened Std

  const BEL: CodeUnit := 0x07
  const ESC: CodeUnit := 0x1b
  const UNDERSCORE: CodeUnit := 0x5f
  const CARET: CodeUnit := 0x5e
  const UPPER_P: CodeUnit := 0x50
  const UPPER_X: CodeUnit := 0x58

  /** ECMA-48 section 5.4: the three byte classes of a control sequence. */
  predicate Parameter(c: int) { 0x30 <= c <= 0x3f }
  predicate Intermediate(c: int) { 0x20 <= c <= 0x2f }
  predicate Final(c: int) { 0x40 <= c <= 0x7e }

  /** Introducers whose string BEL or ST closes (OSC, APC), and those only ST closes (DCS, PM, SOS). */
  predicate BelIntroducer(c: int) { c == RBRACKET || c == UNDERSCORE }
  predicate StIntroducer(c: int) { c == UPPER_P || c == CARET || c == UPPER_X }

  predicate ControlStringAt(s: Text, i: nat) {
    At(s, i) == ESC && (BelIntroducer(At(s, i + 1)) || StIntroducer(At(s, i + 1)))
  }

  predicate StAt(s: Text, j: nat) { At(s, j) == ESC && At(s, j + 1) == BACKSLASH }

  predicate TerminatorAt(s: Text, j: nat, allowBel: bool) {
    (allowBel && At(s, j) == BEL) || StAt(s, j)
  }

  function TerminatorEnd(s: Text, j: nat): nat {
    if At(s, j) == BEL then j + 1 else j + 2
  }

  /** The forward scan for a control string's end, starting at `j`. */
  function ControlEnd(s: Text, j: nat, allowBel: bool): Option<nat>
    decreases |s| - j
  {
    if j >= |s| then None
    else if TerminatorAt(s, j, allowBel) then Some(TerminatorEnd(s, j))
    else ControlEnd(s, j + 1, allowBel)
  }

  /** Where the scan of a control sequence body stops: at its final byte, at a byte that breaks it, or at the end. */
  function CsiStop(s: Text, j: nat, hasIntermediate: bool): (stop: nat)
    requires j <= |s|
    ensures j <= stop <= |s|
    ensures forall k :: j <= k < stop ==> Parameter(s[k]) || Intermediate(s[k])
    decreases |s| - j
  {
    if j >= |s| then j
    else if Parameter(s[j]) && !hasIntermediate then CsiStop(s, j + 1, false)
    else if Intermediate(s[j]) then CsiStop(s, j + 1, true)
    else j
  }

  function CsiEnd(s: Text, j: nat, hasIntermediate: bool): Option<nat>
    requires j <= |s|
  {
    var stop := CsiStop(s, j, hasIntermediate);
    if stop < |s| && Final(s[stop]) then Some(stop + 1) else None
  }

  /** The end of the escape sequence that starts at `pos`, if a complete one does. */
  function AnsiEnd(s: Text, pos: nat): (end: Option<nat>)
    ensures end.Some? ==> pos + 2 <= end.value <= |s| && s[pos] == ESC
  {
    if At(s, pos) != ESC then None
    else if At(s, pos + 1) == LBRACKET then CsiEnd(s, pos + 2, false)
    else if ControlStringAt(s, pos) then
      ControlEndBounds(s, pos + 2, BelIntroducer(At(s, pos + 1)));
      ControlEnd(s, pos + 2, BelIntroducer(At(s, pos + 1)))
    else None
  }

  lemma ControlEndBounds(s: Text, j: nat, allowBel: bool)
    ensures var end := ControlEnd(s, j, allowBel); end.Some? ==> j < end.value <= |s|
    decreases |s| - j
  {
  }

  // ------------------------------------------------------------------------------------------
  // What the two recursive scans mean
  // ------------------------------------------------------------------------------------------

  lemma {:induction false} FirstTerminator(s: Text, j: nat, k: nat, allowBel: bool)
    requires j <= k < |s| && TerminatorAt(s, k, allowBel)
    requires forall i: nat :: j <= i < k ==> !TerminatorAt(s, i, allowBel)
    ensures ControlEnd(s, j, allowBel) == Some(TerminatorEnd(s, k))
    decreases k - j
  {
    if j < k {
      FirstTerminator(s, j + 1, k, allowBel);
    }
  }

  lemma {:induction false} NoTerminator(s: Text, j: nat, allowBel: bool)
    requires forall i: nat :: j <= i < |s| ==> !TerminatorAt(s, i, allowBel)
    ensures ControlEnd(s, j, allowBel) == None
    decreases |s| - j
  {
    if j < |s| {
      NoTerminator(s, j + 1, allowBel);
    }
  }

  /** A control string ends with its first terminator, and has no end exactly when no terminator follows. */
  lemma {:induction false} ControlEndIffFirstTerminator(s: Text, j: nat, allowBel: bool, e: nat)
    ensures ControlEnd(s, j, allowBel) == Some(e)
       <==> exists k: nat :: j <= k < |s| && TerminatorAt(s, k, allowBel) && e == TerminatorEnd(s, k)
                             && forall i: nat :: j <= i < k ==> !TerminatorAt(s, i, allowBel)
    decreases |s| - j
  {
    if j < |s| && !TerminatorAt(s, j, allowBel) {
      ControlEndIffFirstTerminator(s, j + 1, allowBel, e);
    } else if j < |s| {
      FirstTerminator(s, j, j, allowBel);
    }
  }

  /** The grammar of ECMA-48 section 5.4: parameters in `s[j..p]`, intermediates in `s[p..q]`, then a final byte. */
  ghost predicate CsiShape(s: Text, j: nat, p: nat, q: nat) {
    && j <= p <= q < |s|
    && (forall k :: j <= k < p ==> Parameter(s[k]))
    && (forall k :: p <= k < q ==> Intermediate(s[k]))
    && Final(s[q])
  }

  /** The scan accepts exactly the control sequences of the grammar, and ends right after the final byte. */
  lemma CsiEndIffGrammar(s: Text, j: nat, e: nat)
    requires j <= |s|
    ensures CsiEnd(s, j, false) == Some(e) <==> exists p: nat, q: nat :: CsiShape(s, j, p, q) && e == q + 1
  {
    if CsiEnd(s, j, false) == Some(e) {
      var p := CsiStopShape(s, j, j);
      assert CsiShape(s, j, p, e - 1);
    }
    forall p: nat, q: nat | CsiShape(s, j, p, q) ensures CsiEnd(s, j, false) == Some(q + 1) {
      CsiShapeStops(s, j, j, p, q);
    }
  }

  lemma {:induction false} CsiStopShape(s: Text, j: nat, k: nat) returns (p: nat)
    requires j <= k <= |s| && forall i :: j <= i < k ==> Parameter(s[i])
    ensures var stop := CsiStop(s, k, false);
            && j <= p <= stop
            && (forall i :: j <= i < p ==> Parameter(s[i]))
            && (forall i :: p <= i < stop ==> Intermediate(s[i]))
    decreases |s| - k
  {
    if k < |s| && Parameter(s[k]) {
      p := CsiStopShape(s, j, k + 1);
    } else {
      p := k;
      if k < |s| && Intermediate(s[k]) {
        CsiStopIntermediates(s, k + 1);
      }
    }
  }

  lemma {:induction false} CsiStopIntermediates(s: Text, k: nat)
    requires k <= |s|
    ensures forall i :: k <= i < CsiStop(s, k, true) ==> Intermediate(s[i])
    decreases |s| - k
  {
    if k < |s| && Intermediate(s[k]) {
      CsiStopIntermediates(s, k + 1);
    }
  }

  lemma {:induction false} CsiShapeStops(s: Text, j: nat, k: nat, p: nat, q: nat)
    requires CsiShape(s, j, p, q) && j <= k <= q
    ensures CsiStop(s, k, k > p) == q
    ensures k == p ==> CsiStop(s, k, false) == q
    decreases q - k
  {
    if k < q {
      CsiShapeStops(s, j, k + 1, p, q);
    }
  }

  // ------------------------------------------------------------------------------------------
  // The sequences, unit by unit
  // ------------------------------------------------------------------------------------------

  /** Units from 0x30 to 0x3f up to `p`, then units from 0x20 to 0x2f up to `last`. */
  ghost predicate IsBody(s: Text, from: nat, p: nat, last: nat)
    requires last <= |s|
  {
    from <= p <= last && (forall k :: from <= k < p ==> 0x30 <= s[k] <= 0x3f)
                      && (forall k :: p <= k < last ==> 0x20 <= s[k] <= 0x2f)
  }

  /** `ESC [`, units from 0x30 to 0x3f, then units from 0x20 to 0x2f, and one from 0x40 to 0x7e that ends it. */
  ghost predicate IsControlSequence(s: Text, pos: nat, e: nat) {
    && pos + 3 <= e <= |s| && s[pos] == 0x1b && s[pos + 1] == 0x5b
    && 0x40 <= s[e - 1] <= 0x7e
    && var from, last := pos + 2, e - 1; exists p: nat :: IsBody(s, from, p, last)
  }

  /** `ESC \` stands at `j`. */
  predicate ClosesAt(s: Text, j: nat) { j + 1 < |s| && s[j] == 0x1b && s[j + 1] == 0x5c }

  /** `ESC ]` or `ESC _`, up to the first BEL or `ESC \`. */
  ghost predicate IsBelString(s: Text, pos: nat, e: nat) {
    && pos + 3 <= e <= |s| && s[pos] == 0x1b && (s[pos + 1] == 0x5d || s[pos + 1] == 0x5f)
    && var last := if s[e - 1] == 0x07 then e - 1 else e - 2;
       && pos + 2 <= last && (s[e - 1] == 0x07 || ClosesAt(s, last))
       && forall j: nat :: pos + 2 <= j < last ==> s[j] != 0x07 && !ClosesAt(s, j)
  }

  /** `ESC P`, `ESC ^` or `ESC X`, up to the first `ESC \`, whatever BEL stands before it. */
  ghost predicate IsStString(s: Text, pos: nat, e: nat) {
    && pos + 4 <= e <= |s| && s[pos] == 0x1b && (s[pos + 1] == 0x50 || s[pos + 1] == 0x5e || s[pos + 1] == 0x58)
    && ClosesAt(s, e - 2) && forall j: nat :: pos + 2 <= j < e - 2 ==> !ClosesAt(s, j)
  }

  lemma StIsClose(s: Text, j: nat)
    ensures StAt(s, j) <==> ClosesAt(s, j)
  {
  }

  lemma ControlSequenceEnds(s: Text, pos: nat, e: nat)
    requires pos + 2 <= |s| && s[pos] == 0x1b && s[pos + 1] == 0x5b
    ensures AnsiEnd(s, pos) == Some(e) <==> IsControlSequence(s, pos, e)
  {
    CsiEndIffGrammar(s, pos + 2, e);
    if AnsiEnd(s, pos) == Some(e) {
      var p: nat, q: nat :| CsiShape(s, pos + 2, p, q) && e == q + 1;
      assert IsBody(s, pos + 2, p, e - 1);
    }
    if IsControlSequence(s, pos, e) {
      var p: nat :| IsBody(s, pos + 2, p, e - 1);
      assert CsiShape(s, pos + 2, p, e - 1);
    }
  }

  lemma BelStringEnds(s: Text, pos: nat, e: nat)
    requires pos + 2 <= |s| && s[pos] == 0x1b && (s[pos + 1] == 0x5d || s[pos + 1] == 0x5f)
    ensures AnsiEnd(s, pos) == Some(e) <==> IsBelString(s, pos, e)
  {
    ControlEndIffFirstTerminator(s, pos + 2, true, e);
    forall j: nat ensures TerminatorAt(s, j, true) <==> (j < |s| && s[j] == 0x07) || ClosesAt(s, j) {
      StIsClose(s, j);
    }
    if AnsiEnd(s, pos) == Some(e) {
      var k: nat :| pos + 2 <= k < |s| && TerminatorAt(s, k, true) && e == TerminatorEnd(s, k)
                    && forall i: nat :: pos + 2 <= i < k ==> !TerminatorAt(s, i, true);
    }
    if IsBelString(s, pos, e) {
      var last: nat := if s[e - 1] == 0x07 then e - 1 else e - 2;
      assert TerminatorAt(s, last, true) && e == TerminatorEnd(s, last);
    }
  }

  lemma StStringEnds(s: Text, pos: nat, e: nat)
    requires pos + 2 <= |s| && s[pos] == 0x1b && (s[pos + 1] == 0x50 || s[pos + 1] == 0x5e || s[pos + 1] == 0x58)
    ensures AnsiEnd(s, pos) == Some(e) <==> IsStString(s, pos, e)
  {
    ControlEndIffFirstTerminator(s, pos + 2, false, e);
    forall j: nat ensures TerminatorAt(s, j, false) <==> ClosesAt(s, j) {
      StIsClose(s, j);
    }
    if IsStString(s, pos, e) {
      assert TerminatorAt(s, e - 2, false) && e == TerminatorEnd(s, e - 2);
    }
  }

  /** A complete sequence is one of these three, and nothing else is one. */
  lemma SequencesInUnits(s: Text, pos: nat, e: nat)
    ensures AnsiEnd(s, pos) == Some(e)
       <==> IsControlSequence(s, pos, e) || IsBelString(s, pos, e) || IsStString(s, pos, e)
  {
    hide ControlEnd, CsiEnd;
    if pos + 2 <= |s| && s[pos] == 0x1b {
      if s[pos + 1] == 0x5b {
        ControlSequenceEnds(s, pos, e);
      } else if s[pos + 1] == 0x5d || s[pos + 1] == 0x5f {
        BelStringEnds(s, pos, e);
      } else if s[pos + 1] == 0x50 || s[pos + 1] == 0x5e || s[pos + 1] == 0x58 {
        StStringEnds(s, pos, e);
      }
    }
  }

  // ------------------------------------------------------------------------------------------
  // Locality: what a scan reads
  // ------------------------------------------------------------------------------------------

  lemma {:induction false} ControlEndLocal(s: Text, j: nat, t: Text, k: nat, allowBel: bool)
    requires ControlEnd(s, j, allowBel).Some?
    requires var n := ControlEnd(s, j, allowBel).value - j;
             n >= 0 && j + n <= |s| && k + n <= |t| && s[j..j + n] == t[k..k + n]
    ensures ControlEnd(t, k, allowBel) == Some(ControlEnd(s, j, allowBel).value - j + k)
    decreases |s| - j
  {
    var e := ControlEnd(s, j, allowBel).value;
    ControlEndBounds(s, j, allowBel);
    assert s[j] == s[j..e][0] == t[k..k + e - j][0] == t[k];
    assert e > j + 1 ==> s[j + 1] == s[j..e][1] == t[k..k + e - j][1] == t[k + 1];
    if !TerminatorAt(s, j, allowBel) {
      ControlEndBounds(s, j + 1, allowBel);
      assert s[j + 1..e] == t[k + 1..k + e - j];
      ControlEndLocal(s, j + 1, t, k + 1, allowBel);
    }
  }

  lemma {:induction false} CsiEndLocal(s: Text, j: nat, t: Text, k: nat, hasIntermediate: bool)
    requires j <= |s| && CsiEnd(s, j, hasIntermediate).Some?
    requires var n := CsiEnd(s, j, hasIntermediate).value - j;
             n >= 0 && k + n <= |t| && s[j..j + n] == t[k..k + n]
    ensures CsiEnd(t, k, hasIntermediate) == Some(CsiEnd(s, j, hasIntermediate).value - j + k)
    decreases |s| - j
  {
    var e := CsiEnd(s, j, hasIntermediate).value;
    assert s[j] == s[j..e][0] == t[k..k + e - j][0] == t[k];
    if Parameter(s[j]) && !hasIntermediate {
      assert s[j + 1..e] == t[k + 1..k + e - j];
      CsiEndLocal(s, j + 1, t, k + 1, false);
    } else if Intermediate(s[j]) {
      assert s[j + 1..e] == t[k + 1..k + e - j];
      CsiEndLocal(s, j + 1, t, k + 1, true);
    }
  }

  /** A complete sequence is recognised wherever the same units stand, whatever surrounds them. */
  lemma AnsiEndLocal(s: Text, i: nat, t: Text, k: nat)
    requires AnsiEnd(s, i).Some?
    requires var n := AnsiEnd(s, i).value - i; k + n <= |t| && s[i..i + n] == t[k..k + n]
    ensures AnsiEnd(t, k) == Some(AnsiEnd(s, i).value - i + k)
  {
    var e := AnsiEnd(s, i).value;
    assert s[i] == s[i..e][0] == t[k..k + e - i][0] == t[k];
    assert s[i + 1] == s[i..e][1] == t[k..k + e - i][1] == t[k + 1];
    assert s[i + 2..e] == s[i..e][2..] == t[k..k + e - i][2..] == t[k + 2..k + e - i];
    if s[i + 1] == LBRACKET {
      CsiEndLocal(s, i + 2, t, k + 2, false);
    } else {
      ControlEndLocal(s, i + 2, t, k + 2, BelIntroducer(s[i + 1]));
    }
  }

  /** Scanning a suffix is scanning the whole at a shifted position. */
  lemma AnsiEndShift(a: Text, b: Text, i: nat)
    ensures AnsiEnd(a + b, |a| + i)
         == (match AnsiEnd(b, i) case Some(e) => Some(|a| + e) case None => None)
  {
    var s := a + b;
    if AnsiEnd(b, i).Some? {
      var e := AnsiEnd(b, i).value;
      assert b[i..e] == s[|a| + i..|a| + e];
      AnsiEndLocal(b, i, s, |a| + i);
    } else if AnsiEnd(s, |a| + i).Some? {
      var e := AnsiEnd(s, |a| + i).value;
      assert s[|a| + i..e] == b[i..e - |a|];
      AnsiEndLocal(s, |a| + i, b, i);
    }
  }

  /** Cutting a text keeps exactly the sequences that end by the cut. */
  lemma AnsiEndPrefix(a: Text, b: Text, i: nat)
    requires i < |a|
    ensures AnsiEnd(a, i) == (var end := AnsiEnd(a + b, i); if end.Some? && end.value <= |a| then end else None)
  {
    var s := a + b;
    if AnsiEnd(a, i).Some? {
      var e := AnsiEnd(a, i).value;
      assert a[i..e] == s[i..e];
      AnsiEndLocal(a, i, s, i);
    } else if AnsiEnd(s, i).Some? && AnsiEnd(s, i).value <= |a| {
      var e := AnsiEnd(s, i).value;
      assert s[i..e] == a[i..e];
      AnsiEndLocal(s, i, a, i);
    }
  }

  // ------------------------------------------------------------------------------------------
  // The cached scanner
  // ------------------------------------------------------------------------------------------

  type ControlStringEnds = map<nat, Option<nat>>

  /** A cache is right when every entry is the answer of the forward scan at that position. */
  ghost predicate EndsCorrect(s: Text, ends: ControlStringEnds) {
    forall i <- ends :: ControlStringAt(s, i) && ends[i] == AnsiEnd(s, i)
  }

  /** A cache covers the text from `from` on when every control string introducer there has an entry. */
  ghost predicate EndsCover(s: Text, from: nat, ends: ControlStringEnds) {
    forall i: nat :: from <= i < |s| && ControlStringAt(s, i) ==> i in ends
  }

  /** `at` is the first BEL at or after `i`, or -1 when there is none. */
  ghost predicate NextBelIs(at: int, s: Text, i: nat) {
    && (at == -1 || (i <= at < |s| && s[at] == BEL))
    && forall k: nat :: i <= k < |s| && s[k] == BEL ==> 0 <= at <= k
  }

  /** `at` is the first ST at or after `i`, or -1 when there is none. */
  ghost predicate NextStIs(at: int, s: Text, i: nat) {
    && (at == -1 || (i <= at < |s| && StAt(s, at)))
    && forall k: nat :: i <= k < |s| && StAt(s, k) ==> 0 <= at <= k
  }

  /** What the backward pass stores for the introducer at `i`. */
  function BackwardEnd(nextBel: int, nextSt: int, allowBel: bool): Option<nat>
    requires nextBel >= -1 && nextSt >= -1
  {
    if allowBel && nextBel != -1 && (nextSt == -1 || nextBel < nextSt) then Some(nextBel + 1)
    else if nextSt == -1 then None
    else Some(nextSt + 2)
  }

  /** Remembering the nearest BEL and ST from the right answers the forward first-terminator scan. */
  lemma BackwardEqualsForward(s: Text, i: nat, nextBel: int, nextSt: int)
    requires ControlStringAt(s, i) && NextBelIs(nextBel, s, i + 1) && NextStIs(nextSt, s, i + 1)
    ensures AnsiEnd(s, i) == BackwardEnd(nextBel, nextSt, BelIntroducer(At(s, i + 1)))
  {
    var allowBel := BelIntroducer(At(s, i + 1));
    if allowBel && nextBel != -1 && (nextSt == -1 || nextBel < nextSt) {
      FirstTerminator(s, i + 2, nextBel, allowBel);
    } else if nextSt != -1 {
      FirstTerminator(s, i + 2, nextSt, allowBel);
    } else {
      NoTerminator(s, i + 2, allowBel);
    }
  }

  /** One right-to-left pass that remembers the nearest BEL and ST; `unitsRead` counts code units looked at. */
  method CacheControlStringEnds(str: Text, from: nat) returns (ends: ControlStringEnds, ghost unitsRead: nat)
    requires from <= |str|
    ensures EndsCorrect(str, ends) && EndsCover(str, from, ends)
    ensures unitsRead <= 3 * (|str| - from)
  {
    ends, unitsRead := map[], 0;
    var nextBel, nextSt := -1, -1;
    var i := |str|;
    while i > from
      invariant from <= i <= |str|
      invariant NextBelIs(nextBel, str, i) && NextStIs(nextSt, str, i)
      invariant EndsCorrect(str, ends) && EndsCover(str, i, ends)
      invariant unitsRead <= 3 * (|str| - i)
    {
      i := i - 1;
      unitsRead := unitsRead + 3;
      if ControlStringAt(str, i) {
        BackwardEqualsForward(str, i, nextBel, nextSt);
      }
      if str[i] == BEL {
        nextBel := i;
      }
      if str[i] == ESC {
        var next := At(str, i + 1);
        if next == BACKSLASH {
          nextSt := i;
        } else if BelIntroducer(next) {
          if nextBel != -1 && (nextSt == -1 || nextBel < nextSt) {
            ends := ends[i := Some(nextBel + 1)];
          } else {
            ends := ends[i := if nextSt == -1 then None else Some(nextSt + 2)];
          }
        } else if StIntroducer(next) {
          ends := ends[i := if nextSt == -1 then None else Some(nextSt + 2)];
        }
      }
    }
  }

  /** The scan state of one text: absent until a control string turns out to be unterminated. */
  class AnsiScanState {
    var controlStringEnds: Option<ControlStringEnds>
    ghost var unitsRead: nat
    ghost var failedForwardScans: nat

    constructor ()
      ensures controlStringEnds.None? && unitsRead == 0 && failedForwardScans == 0
    {
      controlStringEnds := None;
      unitsRead, failedForwardScans := 0, 0;
    }

    ghost predicate Valid(str: Text)
      reads this
    {
      controlStringEnds.Some? ==> EndsCorrect(str, controlStringEnds.value)
    }

    ghost predicate Covers(str: Text, from: nat)
      reads this
    {
      controlStringEnds.Some? && EndsCover(str, from, controlStringEnds.value)
    }

    /** Whether the answer at `pos` comes from the cache. */
    ghost predicate Cached(pos: nat)
      reads this
    {
      controlStringEnds.Some? && pos in controlStringEnds.value
    }

    method ExtractControlStringEnd(str: Text, pos: nat, allowBel: bool) returns (end: Option<nat>)
      requires Valid(str) && ControlStringAt(str, pos) && allowBel == BelIntroducer(At(str, pos + 1))
      modifies this
      ensures Valid(str) && end == AnsiEnd(str, pos)
      ensures old(Cached(pos)) ==> unchanged(this)
      ensures !old(Cached(pos)) && end.Some?
              ==> controlStringEnds == old(controlStringEnds) && failedForwardScans == old(failedForwardScans)
                  && unitsRead <= old(unitsRead) + 3 * (end.value - pos - 2)
      ensures !old(Cached(pos)) && end.None?
              ==> Covers(str, pos) && failedForwardScans == old(failedForwardScans) + 1
                  && unitsRead <= old(unitsRead) + 6 * |str| - 6
    {
      if controlStringEnds.Some? && pos in controlStringEnds.value {
        return controlStringEnds.value[pos];
      }
      var j := pos + 2;
      while j < |str|
        invariant pos + 2 <= j <= |str|
        invariant ControlEnd(str, pos + 2, allowBel) == ControlEnd(str, j, allowBel)
        invariant unitsRead <= old(unitsRead) + 3 * (j - pos - 2)
        invariant controlStringEnds == old(controlStringEnds) && failedForwardScans == old(failedForwardScans)
      {
        unitsRead := unitsRead + 3;
        if allowBel && str[j] == BEL {
          return Some(j + 1);
        }
        if str[j] == ESC && At(str, j + 1) == BACKSLASH {
          return Some(j + 2);
        }
        j := j + 1;
      }
      failedForwardScans := failedForwardScans + 1;
      var ends;
      ghost var cost;
      ends, cost := CacheControlStringEnds(str, pos);
      controlStringEnds := Some(ends);
      unitsRead := unitsRead + cost;
      return None;
    }

    /** The memoised scan: whatever was asked before, it answers as the stateless scan does. */
    method ExtractAnsiEndAt(str: Text, pos: nat) returns (end: Option<nat>)
      requires Valid(str)
      modifies this
      ensures Valid(str) && end == AnsiEnd(str, pos)
      ensures forall from: nat :: (old(Covers(str, from)) && from <= pos
              ==> Covers(str, from) && failedForwardScans == old(failedForwardScans))
      ensures failedForwardScans == old(failedForwardScans)
              || (failedForwardScans == old(failedForwardScans) + 1 && Covers(str, pos) && pos < |str|)
      ensures old(controlStringEnds.Some?) ==> controlStringEnds.Some?
      ensures end.Some? ==> unitsRead <= old(unitsRead) + 3 * (end.value - pos)
      ensures At(str, pos) != ESC ==> unitsRead <= old(unitsRead) + 1
      ensures end.None? && failedForwardScans == old(failedForwardScans)
              ==> unitsRead <= old(unitsRead) + 2 + FailedSpan(str, pos)
      ensures failedForwardScans != old(failedForwardScans) ==> unitsRead <= old(unitsRead) + 6 * |str|
    {
      if pos >= |str| {
        return None;
      }
      unitsRead := unitsRead + 1;
      if str[pos] != ESC {
        return None;
      }
      unitsRead := unitsRead + 1;
      var next := At(str, pos + 1);
      if next == LBRACKET {
        var j, hasIntermediate := pos + 2, false;
        while j < |str|
          invariant pos + 2 <= j <= |str|
          invariant CsiStop(str, pos + 2, false) == CsiStop(str, j, hasIntermediate)
          invariant unitsRead == old(unitsRead) + j - pos
          invariant controlStringEnds == old(controlStringEnds) && failedForwardScans == old(failedForwardScans)
        {
          var byte := str[j];
          unitsRead := unitsRead + 1;
          if Parameter(byte) && !hasIntermediate {
            j := j + 1;
          } else if Intermediate(byte) {
            hasIntermediate := true;
            j := j + 1;
          } else if Final(byte) {
            return Some(j + 1);
          } else {
            return None;
          }
        }
        return None;
      }
      if BelIntroducer(next) {
        end := ExtractControlStringEnd(str, pos, true);
      } else if StIntroducer(next) {
        end := ExtractControlStringEnd(str, pos, false);
      } else {
        end := None;
      }
    }
  }

  /** How many units a broken control sequence makes the scanner read past its introducer. */
  ghost function FailedSpan(s: Text, pos: nat): (n: nat)
    ensures pos < |s| ==> pos + n < |s|
    ensures n > 0 ==> pos + n < |s| && forall k :: pos + 1 <= k <= pos + n ==> s[k] != ESC
  {
    if At(s, pos) == ESC && At(s, pos + 1) == LBRACKET then
      var stop := CsiStop(s, pos + 2, false);
      if stop < |s| then stop - pos - 1 else stop - pos - 2
    else 0
  }
}
