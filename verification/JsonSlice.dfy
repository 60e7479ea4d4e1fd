/**
 * `sliceBalancedJson` of packages/agent/src/content-tool-calls.ts: a bracket and string automaton that cuts the
 * first JSON array or object out of the text a model wrote.
 */
module JsonSlice {
  import opened Std

  const QUOTE: CodeUnit := 0x22
  const COMMA: CodeUnit := 0x2c
  const COLON: CodeUnit := 0x3a
  const LBRACE: CodeUnit := 0x7b
  const RBRACE: CodeUnit := 0x7d

  /** What `\s` matches. */
  predicate Space(c: int) {
    || 0x09 <= c <= 0x0d || c == 0x20 || c == 0xa0 || c == 0x1680 || 0x2000 <= c <= 0x200a
    || c == 0x2028 || c == 0x2029 || c == 0x202f || c == 0x205f || c == 0x3000 || c == 0xfeff
  }

  predicate Opens(c: int) { c == LBRACE || c == LBRACKET }
  predicate Closes(c: int) { c == RBRACE || c == RBRACKET }

  // ------------------------------------------------------------------------------------------
  // The automaton
  // ------------------------------------------------------------------------------------------

  datatype State = State(depth: int, inString: bool, escaped: bool)

  const OUTSIDE := State(0, false, false)

  function Step(st: State, c: CodeUnit): State {
    if st.inString then
      if st.escaped then st.(escaped := false)
      else if c == BACKSLASH then st.(escaped := true)
      else if c == QUOTE then st.(inString := false)
      else st
    else if c == QUOTE then st.(inString := true)
    else if Opens(c) then st.(depth := st.depth + 1)
    else if Closes(c) then st.(depth := st.depth - 1)
    else st
  }

  function Run(st: State, t: Text): State
    decreases |t|
  {
    if t == [] then st else Run(Step(st, t[0]), t[1..])
  }

  lemma {:induction false} RunAppend(st: State, a: Text, b: Text)
    ensures Run(st, a + b) == Run(Run(st, a), b)
    decreases |a|
  {
    if a == [] {
      assert a + b == b;
    } else {
      assert (a + b)[1..] == a[1..] + b;
      RunAppend(Step(st, a[0]), a[1..], b);
    }
  }

  /** `t` is a stretch whose brackets come back to depth zero, outside strings, at its end and not before. */
  ghost predicate BalancesAtEnd(t: Text) {
    && t != [] && Run(OUTSIDE, t) == OUTSIDE
    && forall n :: 0 < n < |t| ==> Run(OUTSIDE, t[..n]).depth != 0 || Run(OUTSIDE, t[..n]).inString
  }

  /** Everything up to the first unit that is not white space. */
  function SkipSpace(text: Text): (start: nat)
    ensures start <= |text| && (forall i :: 0 <= i < start ==> Space(text[i]))
    ensures start < |text| ==> !Space(text[start])
  {
    if text == [] || !Space(text[0]) then 0 else 1 + SkipSpace(text[1..])
  }

  /** The balancing prefix after the leading white space, if one exists that starts with a bracket. */
  ghost predicate IsSlice(text: Text, slice: Option<Text>) {
    var rest := text[SkipSpace(text)..];
    match slice
    case Some(t) => BalancesAtEnd(t) && Opens(t[0]) && StartsWith(rest, t)
    case None => forall t: Text :: BalancesAtEnd(t) && Opens(t[0]) ==> !StartsWith(rest, t)
  }

  method SliceBalancedJson(text: Text) returns (slice: Option<Text>)
    ensures IsSlice(text, slice)
  {
    hide IsSlice, BalancesAtEnd, Run;
    var start := SkipSpace(text);
    ghost var rest := text[start..];
    if start == |text| {
      FirstUnitDecides(text, None);
      return None;
    }
    if !Opens(text[start]) {
      FirstUnitDecides(text, None);
      return None;
    }
    NothingRead(rest);
    var depth, inString, escaped := 0, false, false;
    var i := start;
    while i < |text|
      invariant start <= i <= |text|
      invariant State(depth, inString, escaped) == Run(OUTSIDE, rest[..i - start])
      invariant i > start ==> depth > 0
      invariant forall n :: 0 < n <= i - start ==> Run(OUTSIDE, rest[..n]).depth > 0
    {
      var c := text[i];
      ghost var n := i - start;
      RunNext(rest, n);
      if inString {
        if escaped {
          escaped := false;
        } else if c == BACKSLASH {
          escaped := true;
        } else if c == QUOTE {
          inString := false;
        }
      } else if c == QUOTE {
        inString := true;
      } else if Opens(c) {
        depth := depth + 1;
      } else if Closes(c) {
        depth := depth - 1;
        if depth == 0 {
          assert text[start..i + 1] == rest[..n + 1];
          BackAtZero(text, n + 1);
          return Some(text[start..i + 1]);
        }
      }
      i := i + 1;
    }
    NeverAtZero(text, rest);
    return None;
  }

  lemma NothingRead(rest: Text)
    ensures Run(OUTSIDE, rest[..0]) == OUTSIDE
  {
  }

  /** Reading one more unit of `rest`. */
  lemma RunNext(rest: Text, n: nat)
    requires n < |rest|
    ensures Run(OUTSIDE, rest[..n + 1]) == Step(Run(OUTSIDE, rest[..n]), rest[n])
  {
    assert rest[..n + 1] == rest[..n] + [rest[n]] && [rest[n]][1..] == [];
    RunAppend(OUTSIDE, rest[..n], [rest[n]]);
  }

  lemma BackAtZero(text: Text, n: nat)
    requires 0 < n <= |text| - SkipSpace(text) && Opens(text[SkipSpace(text)])
    requires var rest := text[SkipSpace(text)..];
             && Run(OUTSIDE, rest[..n]).depth == 0 && !Run(OUTSIDE, rest[..n]).inString
             && forall k :: 0 < k < n ==> Run(OUTSIDE, rest[..k]).depth > 0
    ensures IsSlice(text, Some(text[SkipSpace(text)..][..n]))
  {
    var rest := text[SkipSpace(text)..];
    RunFlags(rest[..n]);
    PrefixesOf(rest, n);
  }

  lemma NeverAtZero(text: Text, rest: Text)
    requires rest == text[SkipSpace(text)..] && forall n :: 0 < n <= |rest| ==> Run(OUTSIDE, rest[..n]).depth > 0
    ensures IsSlice(text, None)
  {
    forall t: Text | BalancesAtEnd(t) && Opens(t[0]) ensures !StartsWith(rest, t) {
      NothingBalances(rest, t);
    }
  }

  lemma NothingBalances(rest: Text, t: Text)
    requires forall n :: 0 < n <= |rest| ==> Run(OUTSIDE, rest[..n]).depth > 0
    requires BalancesAtEnd(t)
    ensures !StartsWith(rest, t)
  {
    assert |t| <= |rest| ==> Run(OUTSIDE, rest[..|t|]).depth > 0;
  }

  lemma PrefixesOf(t: Text, n: nat)
    requires n <= |t|
    ensures forall k :: 0 < k < n ==> t[..n][..k] == t[..k]
  {
  }

  /** Outside strings nothing is escaped. */
  lemma {:induction false} RunFlagsFrom(st: State, t: Text)
    requires st.escaped ==> st.inString
    ensures Run(st, t).escaped ==> Run(st, t).inString
    decreases |t|
  {
    if t != [] {
      RunFlagsFrom(Step(st, t[0]), t[1..]);
    }
  }

  lemma RunFlags(t: Text)
    ensures Run(OUTSIDE, t).escaped ==> Run(OUTSIDE, t).inString
  {
    RunFlagsFrom(OUTSIDE, t);
  }

  /** At most one prefix of a text balances, so the slice is determined. */
  lemma BalancingPrefixUnique(text: Text, a: Text, b: Text)
    requires BalancesAtEnd(a) && BalancesAtEnd(b) && StartsWith(text, a) && StartsWith(text, b)
    ensures a == b
  {
    if |a| <= |b| {
      ShorterPrefix(text, a, b);
    } else {
      ShorterPrefix(text, b, a);
    }
  }

  lemma ShorterPrefix(text: Text, a: Text, b: Text)
    requires StartsWith(text, a) && StartsWith(text, b) && |a| <= |b|
    ensures b[..|a|] == a
  {
    assert b[..|a|] == text[..|b|][..|a|];
  }

  // ------------------------------------------------------------------------------------------
  // JSON texts (RFC 8259, sections 2 to 7), white space and spelling included
  // ------------------------------------------------------------------------------------------

  /** One unit of a string's spelling: itself, or after a backslash. `\u` is an escape and four plain units. */
  datatype StringUnit = Plain(c: CodeUnit) | Escaped(c: CodeUnit)

  datatype Json =
    | Scalar(text: Text)
    | String(units: seq<StringUnit>)
    | Array(pad: Text, items: seq<Item>)
    | Object(pad: Text, members: seq<Member>)

  /** A value with the white space around it. */
  datatype Item = Item(before: Text, value: Json, after: Text)

  datatype Member = Member(before: Text, key: seq<StringUnit>, afterKey: Text, item: Item)

  /** A text without quotes and brackets: white space, a number or a literal name. */
  predicate Neutral(t: Text) {
    forall i :: 0 <= i < |t| ==> t[i] != QUOTE && !Opens(t[i]) && !Closes(t[i])
  }

  predicate UnitsOk(units: seq<StringUnit>) {
    forall i :: 0 <= i < |units| ==> units[i].Plain? ==> units[i].c != QUOTE && units[i].c != BACKSLASH
  }

  predicate JsonOk(v: Json)
    decreases v
  {
    match v
    case Scalar(t) => Neutral(t)
    case String(units) => UnitsOk(units)
    case Array(pad, items) => Neutral(pad) && forall i :: 0 <= i < |items| ==> ItemOk(items[i])
    case Object(pad, members) =>
      Neutral(pad) && forall i :: 0 <= i < |members| ==>
        Neutral(members[i].before) && UnitsOk(members[i].key) && Neutral(members[i].afterKey) && ItemOk(members[i].item)
  }

  predicate ItemOk(item: Item)
    decreases item
  {
    Neutral(item.before) && JsonOk(item.value) && Neutral(item.after)
  }

  function PrintUnits(units: seq<StringUnit>): Text {
    if units == [] then []
    else (match units[0] case Plain(c) => [c] case Escaped(c) => [BACKSLASH, c]) + PrintUnits(units[1..])
  }

  function PrintString(units: seq<StringUnit>): Text {
    [QUOTE] + PrintUnits(units) + [QUOTE]
  }

  function Print(v: Json): Text
    decreases v
  {
    match v
    case Scalar(t) => t
    case String(units) => PrintString(units)
    case Array(pad, items) => [LBRACKET] + (if items == [] then pad else PrintItems(items)) + [RBRACKET]
    case Object(pad, members) => [LBRACE] + (if members == [] then pad else PrintMembers(members)) + [RBRACE]
  }

  function PrintItem(item: Item): Text
    decreases item
  {
    item.before + Print(item.value) + item.after
  }

  function PrintItems(items: seq<Item>): Text
    decreases items
  {
    if items == [] then []
    else PrintItem(items[0]) + (if |items| == 1 then [] else [COMMA] + PrintItems(items[1..]))
  }

  function PrintMember(m: Member): Text
    decreases m
  {
    m.before + PrintString(m.key) + m.afterKey + ([COLON] + PrintItem(m.item))
  }

  function PrintMembers(members: seq<Member>): Text
    decreases members
  {
    if members == [] then []
    else PrintMember(members[0]) + (if |members| == 1 then [] else [COMMA] + PrintMembers(members[1..]))
  }

  // ------------------------------------------------------------------------------------------
  // Printing leaves the automaton where it was
  // ------------------------------------------------------------------------------------------

  /** Reading `t` at depth `d`, outside strings, never goes below `d` and comes back to `d`, outside strings. */
  ghost predicate Returns(d: int, t: Text) {
    && Run(State(d, false, false), t) == State(d, false, false)
    && forall n :: 0 <= n <= |t| ==> Run(State(d, false, false), t[..n]).depth >= d
  }

  lemma ReturnsAppend(d: int, a: Text, b: Text)
    requires Returns(d, a) && Returns(d, b)
    ensures Returns(d, a + b)
  {
    var st := State(d, false, false);
    RunAppend(st, a, b);
    forall n | 0 <= n <= |a + b| ensures Run(st, (a + b)[..n]).depth >= d {
      if n <= |a| {
        assert (a + b)[..n] == a[..n];
      } else {
        assert (a + b)[..n] == a + b[..n - |a|];
        RunAppend(st, a, b[..n - |a|]);
      }
    }
  }

  lemma {:induction false} NeutralReturns(d: int, t: Text)
    requires Neutral(t)
    ensures Returns(d, t)
  {
    if t == [] {
    } else {
      NeutralReturns(d, t[1..]);
      assert Returns(d, [t[0]]) by {
        assert [t[0]][1..] == [] && [t[0]][..1] == [t[0]] && [t[0]][..0] == [];
      }
      ReturnsAppend(d, [t[0]], t[1..]);
      assert t == [t[0]] + t[1..];
    }
  }

  lemma {:induction false} UnitsStay(d: int, units: seq<StringUnit>)
    requires UnitsOk(units)
    ensures Run(State(d, true, false), PrintUnits(units)) == State(d, true, false)
    ensures forall n :: 0 <= n <= |PrintUnits(units)| ==> Run(State(d, true, false), PrintUnits(units)[..n]).depth == d
  {
    if units != [] {
      UnitsStay(d, units[1..]);
      var st := State(d, true, false);
      var head := if units[0].Plain? then [units[0].c] else [BACKSLASH, units[0].c];
      var t, rest := PrintUnits(units), PrintUnits(units[1..]);
      assert t == head + rest;
      assert head[1..] == if units[0].Plain? then [] else [units[0].c];
      assert units[0].Escaped? ==> head[1..][1..] == [];
      RunAppend(st, head, rest);
      forall n | 0 <= n <= |t| ensures Run(st, t[..n]).depth == d {
        if n >= |head| {
          assert t[..n] == head + rest[..n - |head|];
          RunAppend(st, head, rest[..n - |head|]);
        } else if n == 1 {
          assert t[..1] == [t[0]] && [t[0]][1..] == [];
        } else {
          assert t[..0] == [];
        }
      }
    }
  }

  /** Wrapping in two units that enter and leave a deeper or quoted state. */
  lemma StringReturns(d: int, units: seq<StringUnit>)
    requires UnitsOk(units)
    ensures Returns(d, PrintString(units))
  {
    UnitsStay(d, units);
    Wrapped(State(d, false, false), QUOTE, PrintUnits(units), QUOTE, d);
    var t := PrintString(units);
    assert t[..0] == [] && t[..|t|] == t;
  }

  lemma Wrapped(st: State, first: CodeUnit, inner: Text, last: CodeUnit, d: int)
    requires var in0 := Step(st, first);
             Run(in0, inner) == in0 && forall n :: 0 <= n <= |inner| ==> Run(in0, inner[..n]).depth >= d
    ensures var t := [first] + inner + [last];
            && Run(st, t) == Step(Step(st, first), last)
            && forall n :: 0 < n < |t| ==> Run(st, t[..n]).depth >= d
  {
    var t := [first] + inner + [last];
    assert t[1..] == inner + [last] && [last][1..] == [];
    RunAppend(Step(st, first), inner, [last]);
    forall n | 0 < n < |t| ensures Run(st, t[..n]).depth >= d {
      assert t[..n][1..] == inner[..n - 1];
    }
  }

  lemma ContainerReturns(d: int, first: CodeUnit, inner: Text, last: CodeUnit)
    requires Opens(first) && Closes(last) && Returns(d + 1, inner)
    ensures var t := [first] + inner + [last];
            Returns(d, t) && forall n :: 0 < n < |t| ==> Run(State(d, false, false), t[..n]).depth > d
  {
    Wrapped(State(d, false, false), first, inner, last, d + 1);
    var t := [first] + inner + [last];
    assert t[..0] == [] && t[..|t|] == t;
  }

  lemma {:induction false} PrintReturns(d: int, v: Json)
    requires JsonOk(v)
    ensures Returns(d, Print(v))
    decreases v
  {
    match v
    case Scalar(t) => NeutralReturns(d, t);
    case String(units) => StringReturns(d, units);
    case Array(pad, items) =>
      InnerReturns(d + 1, v);
      ContainerReturns(d, LBRACKET, Inner(v), RBRACKET);
    case Object(pad, members) =>
      InnerReturns(d + 1, v);
      ContainerReturns(d, LBRACE, Inner(v), RBRACE);
  }

  /** What stands between the brackets of an array or object. */
  function Inner(v: Json): Text
    requires v.Array? || v.Object?
  {
    if v.Array? then (if v.items == [] then v.pad else PrintItems(v.items))
    else (if v.members == [] then v.pad else PrintMembers(v.members))
  }

  lemma {:induction false} InnerReturns(d: int, v: Json)
    requires JsonOk(v) && (v.Array? || v.Object?)
    ensures Returns(d, Inner(v))
    decreases v, 0
  {
    if v.Array? {
      if v.items == [] { NeutralReturns(d, v.pad); } else { ItemsReturn(d, v.items); }
    } else {
      if v.members == [] { NeutralReturns(d, v.pad); } else { MembersReturn(d, v.members); }
    }
  }

  lemma {:induction false} ItemReturns(d: int, item: Item)
    requires ItemOk(item)
    ensures Returns(d, PrintItem(item))
    decreases item
  {
    NeutralReturns(d, item.before);
    PrintReturns(d, item.value);
    NeutralReturns(d, item.after);
    ReturnsAppend(d, item.before, Print(item.value));
    ReturnsAppend(d, item.before + Print(item.value), item.after);
  }

  lemma {:induction false} ItemsReturn(d: int, items: seq<Item>)
    requires forall i :: 0 <= i < |items| ==> ItemOk(items[i])
    ensures Returns(d, PrintItems(items))
    decreases items
  {
    NeutralReturns(d, []);
    if items != [] {
      ItemReturns(d, items[0]);
      ItemsReturn(d, items[1..]);
      NeutralReturns(d, [COMMA]);
      ReturnsAppend(d, [COMMA], PrintItems(items[1..]));
      ReturnsAppend(d, PrintItem(items[0]), if |items| == 1 then [] else [COMMA] + PrintItems(items[1..]));
    }
  }

  lemma {:induction false} MemberReturns(d: int, m: Member)
    requires Neutral(m.before) && UnitsOk(m.key) && Neutral(m.afterKey) && ItemOk(m.item)
    ensures Returns(d, PrintMember(m))
    decreases m
  {
    NeutralReturns(d, m.before);
    StringReturns(d, m.key);
    NeutralReturns(d, m.afterKey);
    NeutralReturns(d, [COLON]);
    ItemReturns(d, m.item);
    ReturnsAppend(d, m.before, PrintString(m.key));
    ReturnsAppend(d, m.before + PrintString(m.key), m.afterKey);
    ReturnsAppend(d, [COLON], PrintItem(m.item));
    ReturnsAppend(d, m.before + PrintString(m.key) + m.afterKey, [COLON] + PrintItem(m.item));
  }

  lemma {:induction false} MembersReturn(d: int, members: seq<Member>)
    requires forall i :: 0 <= i < |members| ==>
      Neutral(members[i].before) && UnitsOk(members[i].key) && Neutral(members[i].afterKey) && ItemOk(members[i].item)
    ensures Returns(d, PrintMembers(members))
    decreases members
  {
    NeutralReturns(d, []);
    if members != [] {
      MemberReturns(d, members[0]);
      MembersReturn(d, members[1..]);
      NeutralReturns(d, [COMMA]);
      ReturnsAppend(d, [COMMA], PrintMembers(members[1..]));
      ReturnsAppend(d, PrintMember(members[0]), if |members| == 1 then [] else [COMMA] + PrintMembers(members[1..]));
    }
  }

  /** The printed form of an array or object balances at its end and not before. */
  lemma PrintBalances(v: Json)
    requires JsonOk(v) && (v.Array? || v.Object?)
    ensures BalancesAtEnd(Print(v)) && Opens(Print(v)[0])
  {
    InnerReturns(1, v);
    if v.Array? {
      ContainerReturns(0, LBRACKET, Inner(v), RBRACKET);
    } else {
      ContainerReturns(0, LBRACE, Inner(v), RBRACE);
    }
  }

  lemma {:induction false} SkipSpaceOver(ws: Text, t: Text)
    requires (forall i :: 0 <= i < |ws| ==> Space(ws[i])) && (t != [] ==> !Space(t[0]))
    ensures SkipSpace(ws + t) == |ws|
  {
    if ws == [] {
      assert ws + t == t;
    } else {
      assert (ws + t)[1..] == ws[1..] + t;
      SkipSpaceOver(ws[1..], t);
    }
  }

  /** Whatever white space precedes it and whatever text trails it, an array or object is cut out whole. */
  lemma SliceOfPrinted(ws: Text, v: Json, rest: Text, slice: Option<Text>)
    requires forall i :: 0 <= i < |ws| ==> Space(ws[i])
    requires JsonOk(v) && (v.Array? || v.Object?)
    ensures IsSlice(ws + Print(v) + rest, slice) <==> slice == Some(Print(v))
  {
    var t, text := Print(v), ws + Print(v) + rest;
    PrintBalances(v);
    SkipSpaceOver(ws, t + rest);
    assert text == ws + (t + rest);
    assert text[|ws|..] == t + rest && StartsWith(t + rest, t);
    if slice.Some? && IsSlice(text, slice) {
      BalancingPrefixUnique(t + rest, slice.value, t);
    }
  }

  lemma {:induction false} SkipSpaceInside(a: Text, b: Text)
    requires SkipSpace(a) < |a|
    ensures SkipSpace(a + b) == SkipSpace(a)
  {
    if Space(a[0]) {
      assert (a + b)[1..] == a[1..] + b;
      SkipSpaceInside(a[1..], b);
    }
  }

  lemma StartsWithHead(s: Text, t: Text)
    ensures t != [] && StartsWith(s, t) ==> s != [] && s[0] == t[0]
  {
    if t != [] && StartsWith(s, t) {
      assert s[..|t|][0] == s[0];
    }
  }

  /** Nothing is cut out of a text whose first unit after white space is no bracket. */
  lemma FirstUnitDecides(text: Text, slice: Option<Text>)
    requires SkipSpace(text) == |text| || !Opens(text[SkipSpace(text)])
    ensures IsSlice(text, slice) <==> slice == None
  {
    var rest := text[SkipSpace(text)..];
    forall t: Text | t != [] && Opens(t[0]) ensures !StartsWith(rest, t) {
      StartsWithHead(rest, t);
    }
  }

  /** What is cut out of `text` is `t`, which starts at unit `at`. */
  ghost predicate FoundAt(text: Text, at: nat, t: Text) {
    at == SkipSpace(text) && IsSlice(text, Some(t))
  }

  /**
   * Prose is not ignored: the payload after it is found, where it stands, if and only if the prose is blank. Whatever
   * is cut out instead starts with a bracket of the prose.
   */
  lemma ProseHidesPayload(prose: Text, v: Json, rest: Text, slice: Option<Text>)
    requires JsonOk(v) && (v.Array? || v.Object?)
    ensures var text, blank := prose + Print(v) + rest, forall i :: 0 <= i < |prose| ==> Space(prose[i]);
            && (FoundAt(text, |prose|, Print(v)) <==> blank)
            && (!blank && IsSlice(text, slice)
                ==> slice == None || (SkipSpace(text) < |prose| && Opens(prose[SkipSpace(text)])))
  {
    hide IsSlice, SkipSpace, Print, JsonOk;
    var text := prose + Print(v) + rest;
    assert text == prose + (Print(v) + rest);
    if SkipSpace(prose) == |prose| {
      SliceOfPrinted(prose, v, rest, Some(Print(v)));
      PrintBalances(v);
      SkipSpaceOver(prose, Print(v) + rest);
    } else {
      SkipSpaceInside(prose, Print(v) + rest);
      assert SkipSpace(text) == SkipSpace(prose) < |prose| && text[SkipSpace(text)] == prose[SkipSpace(prose)];
      if !Opens(prose[SkipSpace(prose)]) {
        FirstUnitDecides(text, slice);
      }
      assert !Space(prose[SkipSpace(prose)]);
    }
  }

  /** For instance, `ok {}` yields nothing. */
  lemma ProseExample(slice: Option<Text>)
    ensures IsSlice([0x6f, 0x6b, 0x20] + Print(Object([], [])) + [], slice) <==> slice == None
  {
    var text: Text := [0x6f, 0x6b, 0x20] + Print(Object([], [])) + [];
    assert SkipSpace(text) == 0 && text[0] == 0x6f;
    FirstUnitDecides(text, slice);
  }

  lemma BracketedIsJson(w: Text) returns (v: Json)
    requires Neutral(w)
    ensures v.Array? && JsonOk(v) && Print(v) == [LBRACKET] + w + [RBRACKET]
  {
    var item := Item([], Scalar(w), []);
    v := Array([], [item]);
    assert ItemOk(item);
    assert PrintItem(item) == [] + Print(item.value) + [] == Print(item.value);
    assert PrintItems([item]) == w + [];
  }

  /** And `[note] {}` yields the note: a bracketed remark is cut out in place of the payload. */
  lemma RemarkIsTaken(w: Text, v: Json, slice: Option<Text>)
    requires Neutral(w) && JsonOk(v) && (v.Array? || v.Object?)
    ensures var remark := [LBRACKET] + w + [RBRACKET];
            IsSlice(remark + ([0x20] + Print(v)), slice) <==> slice == Some(remark)
  {
    var note := BracketedIsJson(w);
    SliceOfPrinted([], note, [0x20] + Print(v), slice);
    assert [] + Print(note) == Print(note);
  }
}
