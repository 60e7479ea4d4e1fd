/**
 * SGR sequences as the tracker of packages/tui/src/ansi-scan.ts reads them, and as ECMA-48 section 8.3.117 does. The
 * two part in two places: the tracker passes over an empty parameter, which the standard reads as zero, and it turns
 * bold off at 21, which in the standard asks for a double underline and leaves bold on. This module says for which
 * sequences the readings agree. What the standard leaves open, the bright and the extended colours, both read alike.
 */
module SgrDefaults {
  import opened Std
  import opened AnsiTracker

  /** The attributes after one parameter of the standard's table. A double underline is none of these attributes. */
  function StandardFlags(f: Flags, c: int): Flags {
    match c
    case 0 => NO_FLAGS
    case 1 => f.(bold := true)
    case 2 => f.(dim := true)
    case 3 => f.(italic := true)
    case 4 => f.(underline := true)
    case 5 => f.(blink := true)
    case 7 => f.(inverse := true)
    case 8 => f.(hidden := true)
    case 9 => f.(strikethrough := true)
    case 22 => f.(bold := false, dim := false)
    case 23 => f.(italic := false)
    case 24 => f.(underline := false)
    case 25 => f.(blink := false)
    case 27 => f.(inverse := false)
    case 28 => f.(hidden := false)
    case 29 => f.(strikethrough := false)
    case _ => f
  }

  /** One parameter as the standard reads it: an empty one is zero. */
  function ApplyStandard(st: TrackerState, part: Text): TrackerState {
    match if part == [] then Some(0) else ParseInt(part)
    case None => st
    case Some(c) =>
      TrackerState(StandardFlags(st.flags, c), ApplyColorCode(st.fg, c, 30), ApplyColorCode(st.bg, c, 40), st.link)
  }

  /** The standard's reading; the parameters of an extended colour are taken as they are written. */
  function ApplyPartsStandard(st: TrackerState, parts: seq<Text>): TrackerState
    decreases |parts|
  {
    if parts == [] then st
    else
      var n := ColorWidth(parts);
      if n > 0 then ApplyPartsStandard(SetColor(st, ParseInt(parts[0]) == Some(48), Join(parts[..n])), parts[n..])
      else ApplyPartsStandard(ApplyStandard(st, parts[0]), parts[1..])
  }

  function ApplySgrStandard(st: TrackerState, params: Text): TrackerState {
    ApplyPartsStandard(st, Split(params))
  }

  // ------------------------------------------------------------------------------------------
  // One attribute or colour at a time
  // ------------------------------------------------------------------------------------------

  /** An attribute goes by the parameter that sets it, a colour by the base of its standard codes. */
  predicate Slot(s: nat) { 1 <= s <= 5 || 7 <= s <= 9 || s == 30 || s == 40 }

  function FlagValue(on: bool): Option<Text> { if on then Some([]) else None }

  function SlotValue(st: TrackerState, s: nat): Option<Text> {
    match s
    case 1 => FlagValue(st.flags.bold)
    case 2 => FlagValue(st.flags.dim)
    case 3 => FlagValue(st.flags.italic)
    case 4 => FlagValue(st.flags.underline)
    case 5 => FlagValue(st.flags.blink)
    case 7 => FlagValue(st.flags.inverse)
    case 8 => FlagValue(st.flags.hidden)
    case 9 => FlagValue(st.flags.strikethrough)
    case 30 => st.fg
    case 40 => st.bg
    case _ => None
  }

  lemma SameSlots(x: TrackerState, y: TrackerState)
    requires x.link == y.link && forall s: nat :: Slot(s) ==> SlotValue(x, s) == SlotValue(y, s)
    ensures x == y
  {
    assert SlotValue(x, 1) == SlotValue(y, 1) && SlotValue(x, 2) == SlotValue(y, 2);
    assert SlotValue(x, 3) == SlotValue(y, 3) && SlotValue(x, 4) == SlotValue(y, 4);
    assert SlotValue(x, 5) == SlotValue(y, 5) && SlotValue(x, 7) == SlotValue(y, 7);
    assert SlotValue(x, 8) == SlotValue(y, 8) && SlotValue(x, 9) == SlotValue(y, 9);
    assert SlotValue(x, 30) == SlotValue(y, 30) && SlotValue(x, 40) == SlotValue(y, 40);
  }

  datatype Effect = Leaves | Sets(value: Text) | Clears

  function After(e: Effect, v: Option<Text>): Option<Text> {
    match e
    case Leaves => v
    case Sets(t) => Some(t)
    case Clears => None
  }

  function CodeEffect(s: nat, code: Option<int>): Effect {
    match code
    case None => Leaves
    case Some(c) =>
      if c == 0 then Clears
      else if s == 30 || s == 40 then
        if c == s + 9 then Clears else if StandardCode(c, s) then Sets(Decimal(c)) else Leaves
      else if c == s then Sets([])
      else if c == (if s == 1 then 22 else s + 20) || (s == 1 && c == 21) then Clears
      else Leaves
  }

  lemma SlotOfCode(st: TrackerState, code: Option<int>, s: nat)
    requires Slot(s)
    ensures SlotValue(ApplyCode(st, code), s) == After(CodeEffect(s, code), SlotValue(st, s))
  {
  }

  /** What the standard makes of a parameter. */
  function StandardEffect(s: nat, part: Text): Effect {
    if part == [] then Clears
    else if s == 1 && ParseInt(part) == Some(21) then Leaves
    else CodeEffect(s, ParseInt(part))
  }

  lemma SlotOfStandard(st: TrackerState, part: Text, s: nat)
    requires Slot(s)
    ensures SlotValue(ApplyStandard(st, part), s) == After(StandardEffect(s, part), SlotValue(st, s))
  {
  }

  lemma SlotOfColor(st: TrackerState, background: bool, color: Text, s: nat)
    requires Slot(s)
    ensures SlotValue(SetColor(st, background, color), s)
         == if s == (if background then 40 else 30) then Some(color) else SlotValue(st, s)
  {
  }

  function HeadLength(parts: seq<Text>): (n: nat)
    requires parts != []
    ensures 1 <= n <= |parts|
  {
    if ColorWidth(parts) > 0 then ColorWidth(parts) else 1
  }

  /** What the first parameter, or extended colour, does to a slot in the tracker's or the standard's reading. */
  function HeadEffect(s: nat, parts: seq<Text>, standard: bool): Effect
    requires parts != []
  {
    if ColorWidth(parts) == 0 then
      if standard then StandardEffect(s, parts[0]) else CodeEffect(s, ParseInt(parts[0]))
    else if s == (if ParseInt(parts[0]) == Some(48) then 40 else 30) then Sets(Join(parts[..ColorWidth(parts)]))
    else Leaves
  }

  /** An empty parameter, which only the standard takes for a reset. */
  predicate Empty(parts: seq<Text>)
    requires parts != []
  {
    ColorWidth(parts) == 0 && parts[0] == []
  }

  /** 21, at which only the tracker turns bold off. */
  predicate DoubleUnderline(parts: seq<Text>)
    requires parts != []
  {
    ColorWidth(parts) == 0 && ParseInt(parts[0]) == Some(21)
  }

  /**
   * Whether the slot can end up on in one reading and off in the other: since a parameter last turned it off in both,
   * or on, an empty parameter stood there without a 21, or, for bold, a 21 without an empty one. `maybe` says that
   * the slot may be on but for these, `emptied` and `doubled` that one of them stood there.
   */
  predicate Diverges(s: nat, parts: seq<Text>, maybe: bool, emptied: bool, doubled: bool)
    decreases |parts|
  {
    if parts == [] then maybe && emptied != doubled
    else
      var rest := parts[HeadLength(parts)..];
      if Empty(parts) then Diverges(s, rest, maybe, true, doubled)
      else if s == 1 && DoubleUnderline(parts) then Diverges(s, rest, maybe, emptied, true)
      else
        match HeadEffect(s, parts, false)
        case Leaves => Diverges(s, rest, maybe, emptied, doubled)
        case Sets(_) => Diverges(s, rest, true, false, false)
        case Clears => Diverges(s, rest, false, false, false)
  }

  function Head(st: TrackerState, parts: seq<Text>, standard: bool): TrackerState
    requires parts != []
  {
    if ColorWidth(parts) > 0 then SetColor(st, ParseInt(parts[0]) == Some(48), Join(parts[..ColorWidth(parts)]))
    else if standard then ApplyStandard(st, parts[0])
    else ApplyCode(st, ParseInt(parts[0]))
  }

  lemma HeadOfSlot(st: TrackerState, parts: seq<Text>, standard: bool, s: nat)
    requires Slot(s) && parts != []
    ensures SlotValue(Head(st, parts, standard), s) == After(HeadEffect(s, parts, standard), SlotValue(st, s))
    ensures Head(st, parts, standard).link == st.link
  {
    if ColorWidth(parts) > 0 {
      SlotOfColor(st, ParseInt(parts[0]) == Some(48), Join(parts[..ColorWidth(parts)]), s);
    } else if standard {
      SlotOfStandard(st, parts[0], s);
    } else {
      SlotOfCode(st, ParseInt(parts[0]), s);
    }
  }

  lemma ReadHead(x: TrackerState, y: TrackerState, parts: seq<Text>)
    requires parts != []
    ensures var rest := parts[HeadLength(parts)..];
            && ApplyParts(x, parts) == ApplyParts(Head(x, parts, false), rest)
            && ApplyPartsStandard(y, parts) == ApplyPartsStandard(Head(y, parts, true), rest)
  {
  }

  /** Where the two readings of the first parameter part. */
  lemma HeadEffects(s: nat, parts: seq<Text>)
    requires Slot(s) && parts != []
    ensures var e, e' := HeadEffect(s, parts, false), HeadEffect(s, parts, true);
            if Empty(parts) then e == Leaves && e' == Clears
            else if s == 1 && DoubleUnderline(parts) then e == Clears && e' == Leaves
            else e == e'
  {
  }

  /** What the analysis of a slot knows of its values in the two readings. */
  ghost predicate Knows(maybe: bool, emptied: bool, doubled: bool, v: Option<Text>, w: Option<Text>) {
    && (!maybe || doubled ==> v.None?) && (!maybe || emptied ==> w.None?)
    && (!emptied && !doubled ==> v == w)
  }

  lemma {:induction false} NotDivergingAgrees(s: nat, parts: seq<Text>, x: TrackerState, y: TrackerState, maybe: bool,
                                              emptied: bool, doubled: bool)
    requires Slot(s) && Knows(maybe, emptied, doubled, SlotValue(x, s), SlotValue(y, s))
    requires !Diverges(s, parts, maybe, emptied, doubled)
    ensures SlotValue(ApplyParts(x, parts), s) == SlotValue(ApplyPartsStandard(y, parts), s)
    decreases |parts|
  {
    if parts != [] {
      var rest, x', y' := parts[HeadLength(parts)..], Head(x, parts, false), Head(y, parts, true);
      ReadHead(x, y, parts);
      HeadOfSlot(x, parts, false, s);
      HeadOfSlot(y, parts, true, s);
      HeadEffects(s, parts);
      if Empty(parts) {
        NotDivergingAgrees(s, rest, x', y', maybe, true, doubled);
      } else if s == 1 && DoubleUnderline(parts) {
        NotDivergingAgrees(s, rest, x', y', maybe, emptied, true);
      } else {
        match HeadEffect(s, parts, false)
        case Leaves => NotDivergingAgrees(s, rest, x', y', maybe, emptied, doubled);
        case Sets(_) => NotDivergingAgrees(s, rest, x', y', true, false, false);
        case Clears => NotDivergingAgrees(s, rest, x', y', false, false, false);
      }
    }
  }

  /** When the slot really is on wherever it may be, the analysis is exact. */
  ghost predicate Attains(maybe: bool, emptied: bool, doubled: bool, v: Option<Text>, w: Option<Text>) {
    maybe ==> v.Some? == !doubled && w.Some? == !emptied
  }

  lemma {:induction false} DivergingDiffers(s: nat, parts: seq<Text>, x: TrackerState, y: TrackerState, maybe: bool,
                                            emptied: bool, doubled: bool)
    requires Slot(s) && Attains(maybe, emptied, doubled, SlotValue(x, s), SlotValue(y, s))
    requires Diverges(s, parts, maybe, emptied, doubled)
    ensures SlotValue(ApplyParts(x, parts), s) != SlotValue(ApplyPartsStandard(y, parts), s)
    decreases |parts|
  {
    if parts != [] {
      var rest, x', y' := parts[HeadLength(parts)..], Head(x, parts, false), Head(y, parts, true);
      ReadHead(x, y, parts);
      HeadOfSlot(x, parts, false, s);
      HeadOfSlot(y, parts, true, s);
      HeadEffects(s, parts);
      if Empty(parts) {
        DivergingDiffers(s, rest, x', y', maybe, true, doubled);
      } else if s == 1 && DoubleUnderline(parts) {
        DivergingDiffers(s, rest, x', y', maybe, emptied, true);
      } else {
        match HeadEffect(s, parts, false)
        case Leaves => DivergingDiffers(s, rest, x', y', maybe, emptied, doubled);
        case Sets(_) => DivergingDiffers(s, rest, x', y', true, false, false);
        case Clears => DivergingDiffers(s, rest, x', y', false, false, false);
      }
    }
  }

  lemma {:induction false} LinksAgree(x: TrackerState, y: TrackerState, parts: seq<Text>)
    requires x.link == y.link
    ensures ApplyParts(x, parts).link == ApplyPartsStandard(y, parts).link
    decreases |parts|
  {
    if parts != [] {
      ReadHead(x, y, parts);
      HeadOfSlot(x, parts, false, 1);
      HeadOfSlot(y, parts, true, 1);
      LinksAgree(Head(x, parts, false), Head(y, parts, true), parts[HeadLength(parts)..]);
    }
  }

  // ------------------------------------------------------------------------------------------
  // When the two readings agree
  // ------------------------------------------------------------------------------------------

  /** Every attribute on and both colours set. */
  const ALL_ON := TrackerState(Flags(true, true, true, true, true, true, true, true), Some([0x33, 0x31]),
                               Some([0x34, 0x31]), None)

  ghost predicate NothingDiverges(parts: seq<Text>) {
    forall s: nat :: Slot(s) ==> !Diverges(s, parts, true, false, false)
  }

  lemma PartsAgreeExactly(parts: seq<Text>)
    ensures (forall st :: ApplyParts(st, parts) == ApplyPartsStandard(st, parts)) <==> NothingDiverges(parts)
  {
    if NothingDiverges(parts) {
      forall st ensures ApplyParts(st, parts) == ApplyPartsStandard(st, parts) {
        forall s: nat | Slot(s)
          ensures SlotValue(ApplyParts(st, parts), s) == SlotValue(ApplyPartsStandard(st, parts), s)
        {
          NotDivergingAgrees(s, parts, st, st, true, false, false);
        }
        LinksAgree(st, st, parts);
        SameSlots(ApplyParts(st, parts), ApplyPartsStandard(st, parts));
      }
    } else {
      var s: nat :| Slot(s) && Diverges(s, parts, true, false, false);
      DivergingDiffers(s, parts, ALL_ON, ALL_ON, true, false, false);
    }
  }

  /**
   * The tracker reads an SGR sequence as the standard does, whatever the state, if and only if the sequence has
   * no parameters at all or none of its empty parameters and 21s makes an attribute or a colour diverge.
   */
  lemma ReadsAsStandardExactly(params: Text)
    ensures (forall st :: ApplySgr(st, params) == ApplySgrStandard(st, params))
       <==> params == [] || NothingDiverges(Split(params))
  {
    if params == [] || params == [0x30] {
      forall st ensures ApplySgr(st, params) == ApplySgrStandard(st, params) {
        OneReset(st, params);
      }
      OneReset(FRESH, params);
    } else {
      PartsAgreeExactly(Split(params));
      if NothingDiverges(Split(params)) {
        forall st ensures ApplySgr(st, params) == ApplySgrStandard(st, params) {
          assert ApplyParts(st, Split(params)) == ApplyPartsStandard(st, Split(params));
        }
      } else {
        var st :| ApplyParts(st, Split(params)) != ApplyPartsStandard(st, Split(params));
        assert ApplySgr(st, params) != ApplySgrStandard(st, params);
      }
    }
  }

  lemma OneReset(st: TrackerState, params: Text)
    requires params == [0x30] || params == []
    ensures ApplySgrStandard(st, params) == ResetStyle(st)
    ensures params != [] ==> NothingDiverges(Split(params))
  {
    OneDigit(0x30);
    var parts := [params];
    assert Split(params) == parts && parts[1..] == [];
    assert ApplyStandard(st, params) == ResetStyle(st);
    assert ApplyPartsStandard(st, parts) == ApplyPartsStandard(ApplyStandard(st, parts[0]), parts[1..]);
    assert ApplyPartsStandard(ResetStyle(st), []) == ResetStyle(st);
  }

  /** `ESC [ ; 1 m` keeps a dim text dim; the standard clears it. */
  lemma EmptyParameterKeepsDim()
    ensures var params, dim := [SEMICOLON, 0x31], FRESH.(flags := NO_FLAGS.(dim := true));
            ApplySgr(dim, params).flags.dim && !ApplySgrStandard(dim, params).flags.dim
  {
    var params: Text, dim := [SEMICOLON, 0x31], FRESH.(flags := NO_FLAGS.(dim := true));
    var parts: seq<Text> := [[], [0x31]];
    SplitJoin(parts);
    assert Join(parts) == params by {
      assert parts[1..] == [[0x31]];
    }
    OneDigit(0x31);
    assert parts[1..] == [[0x31]] && parts[1..][1..] == [];
  }

  /** `ESC [ 21 m` turns a bold text's bold off; the standard leaves it on. */
  lemma DoubleUnderlineClearsBold()
    ensures var params, bold := [0x32, 0x31], FRESH.(flags := NO_FLAGS.(bold := true));
            !ApplySgr(bold, params).flags.bold && ApplySgrStandard(bold, params).flags.bold
  {
    var params: Text, bold := [0x32, 0x31], FRESH.(flags := NO_FLAGS.(bold := true));
    var parts: seq<Text> := [params];
    assert Split(params) == parts && parts[1..] == [];
    OneDigit(0x32);
    assert params[..1] == [0x32] && ParseInt(params) == Some(21);
  }
}
