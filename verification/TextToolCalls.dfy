/**
 * The `[TOOL_CALLS]` loop of packages/agent/src/content-tool-calls.ts: the JSON payloads that follow the tag in a
 * text a model wrote.
 */
module TextToolCalls {
  import opened Std
  import opened JsonSlice

  /** `[TOOL_CALLS]` */
  const TAG: Text := [0x5b, 0x54, 0x4f, 0x4f, 0x4c, 0x5f, 0x43, 0x41, 0x4c, 0x4c, 0x53, 0x5d]

  predicate TagAt(t: Text, i: nat) {
    i + |TAG| <= |t| && t[i..i + |TAG|] == TAG
  }

  /** `indexOf` for the tag. */
  function IndexOfTag(t: Text, from: nat): (r: Option<nat>)
    ensures r.Some? ==> from <= r.value && TagAt(t, r.value) && forall i: nat :: from <= i < r.value ==> !TagAt(t, i)
    ensures r.None? ==> forall i: nat :: from <= i ==> !TagAt(t, i)
    decreases |t| - from
  {
    if from >= |t| then None
    else if TagAt(t, from) then Some(from)
    else IndexOfTag(t, from + 1)
  }

  /** What `sliceBalancedJson` answers, which its contract determines. */
  ghost function SliceIn(text: Text): (slice: Option<Text>)
    ensures IsSlice(text, slice)
  {
    SliceExists(text);
    var slice :| IsSlice(text, slice);
    slice
  }

  lemma SliceExists(text: Text)
    ensures exists slice :: IsSlice(text, slice)
  {
    if forall t :: !IsSlice(text, Some(t)) {
      forall t: Text | BalancesAtEnd(t) && Opens(t[0]) ensures !StartsWith(text[SkipSpace(text)..], t) {
        assert !IsSlice(text, Some(t));
      }
      assert IsSlice(text, None);
    }
  }

  lemma SliceUnique(text: Text, a: Option<Text>, b: Option<Text>)
    requires IsSlice(text, a) && IsSlice(text, b)
    ensures a == b
  {
    if a.Some? && b.Some? {
      BalancingPrefixUnique(text[SkipSpace(text)..], a.value, b.value);
    }
  }

  function Listed(slice: Option<Text>): seq<Text> {
    if slice.Some? then [slice.value] else []
  }

  /** What follows the first tag. */
  function AfterTag(t: Text): (rest: Option<Text>)
    ensures rest.Some? ==> |rest.value| < |t|
  {
    match IndexOfTag(t, 0)
    case None => None
    case Some(k) => Some(t[k + |TAG|..])
  }

  /** The payloads of a text: one attempt right after each tag, the next tag being looked for from there on. */
  ghost function Payloads(t: Text): seq<Text>
    decreases |t|
  {
    match AfterTag(t)
    case None => []
    case Some(rest) => Listed(SliceIn(rest)) + Payloads(rest)
  }

  method CollectPayloads(text: Text) returns (payloads: seq<Text>)
    ensures payloads == Payloads(text)
  {
    payloads := [];
    var rest := text;
    var index := IndexOfTag(rest, 0);
    while index.Some?
      invariant index == IndexOfTag(rest, 0)
      invariant payloads + Payloads(rest) == Payloads(text)
      decreases |rest|
    {
      var next := rest[index.value + |TAG|..];
      var payload := SliceBalancedJson(next);
      SliceUnique(next, payload, SliceIn(next));
      ConcatAssociative(payloads, Listed(payload), Payloads(next));
      if payload.Some? {
        payloads := payloads + [payload.value];
      } else {
        assert payloads + [] == payloads;
      }
      rest := next;
      index := IndexOfTag(rest, 0);
    }
    assert payloads + [] == payloads;
  }

  // ------------------------------------------------------------------------------------------
  // Calls written as tagged JSON are collected
  // ------------------------------------------------------------------------------------------

  /** No tag of `a + b` starts in `a`. */
  ghost predicate Untagged(a: Text, b: Text) {
    forall i: nat :: i < |a| ==> !TagAt(a + b, i)
  }

  lemma TagAtShift(a: Text, b: Text, i: nat)
    ensures TagAt(a + b, |a| + i) == TagAt(b, i)
  {
    if i + |TAG| <= |b| {
      assert (a + b)[|a| + i..|a| + i + |TAG|] == b[i..i + |TAG|];
    }
  }

  lemma FirstTagShift(a: Text, b: Text)
    requires Untagged(a, b)
    ensures IndexOfTag(a + b, 0)
         == match IndexOfTag(b, 0) case Some(k) => Some(|a| + k) case None => None
  {
    var first, inner := IndexOfTag(a + b, 0), IndexOfTag(b, 0);
    if inner.Some? {
      TagAtShift(a, b, inner.value);
    }
    if first.Some? {
      TagAtShift(a, b, first.value - |a|);
    }
  }

  lemma AfterTagShift(a: Text, b: Text)
    requires Untagged(a, b)
    ensures AfterTag(a + b) == AfterTag(b)
  {
    FirstTagShift(a, b);
    if IndexOfTag(b, 0).Some? {
      var k := IndexOfTag(b, 0).value;
      assert (a + b)[|a| + k + |TAG|..] == b[k + |TAG|..];
    }
  }

  /** Text without a tag contributes nothing. */
  lemma SkipUntagged(a: Text, b: Text)
    requires Untagged(a, b)
    ensures Payloads(a + b) == Payloads(b)
  {
    AfterTagShift(a, b);
  }

  lemma AfterFirstTag(rest: Text)
    ensures AfterTag(TAG + rest) == Some(rest)
  {
    var t := TAG + rest;
    assert t[0..|TAG|] == TAG;
    assert TagAt(t, 0) && t[|TAG|..] == rest;
  }

  lemma TagFirst(rest: Text)
    ensures Payloads(TAG + rest) == Listed(SliceIn(rest)) + Payloads(rest)
  {
    AfterFirstTag(rest);
  }

  /** White space as ECMA-262 sections 12.2 and 12.3 list it: tab to CR, no-break space, the blanks, BOM. */
  const WHITE_SPACE: set<CodeUnit> := {
    0x09, 0x0a, 0x0b, 0x0c, 0x0d, 0x20, 0xa0, 0x1680, 0x2000, 0x2001, 0x2002, 0x2003, 0x2004, 0x2005, 0x2006, 0x2007,
    0x2008, 0x2009, 0x200a, 0x2028, 0x2029, 0x202f, 0x205f, 0x3000, 0xfeff}

  lemma WhiteSpaceIsSpace(c: CodeUnit)
    ensures c in WHITE_SPACE <==> Space(c)
  {
  }

  /** A call as a model writes it: some prose, the tag, white space, and an array or object. */
  datatype Written = Written(prose: Text, ws: Text, payload: Json)

  ghost predicate WrittenOk(w: Written) {
    JsonOk(w.payload) && (w.payload.Array? || w.payload.Object?)
    && forall i :: 0 <= i < |w.ws| ==> w.ws[i] in WHITE_SPACE
  }

  function Write(calls: seq<Written>, tail: Text): Text {
    if calls == [] then tail
    else
      var tag := [0x5b, 0x54, 0x4f, 0x4f, 0x4c, 0x5f, 0x43, 0x41, 0x4c, 0x4c, 0x53, 0x5d];
      calls[0].prose + (tag + (calls[0].ws + Print(calls[0].payload) + Write(calls[1..], tail)))
  }

  /** A tag with a payload after it. */
  ghost predicate FeedsAt(t: Text, i: nat) {
    TagAt(t, i) && SliceIn(t[i + |TAG|..]).Some?
  }

  /** No payload follows a tag of `a + b` that starts in `a`. */
  ghost predicate Barren(a: Text, b: Text) {
    forall i: nat :: i < |a| ==> !FeedsAt(a + b, i)
  }

  /** Besides the tags that introduce the calls, no tag has a payload after it. */
  ghost predicate NoStrayPayload(calls: seq<Written>, tail: Text) {
    if calls == [] then Barren(tail, [])
    else
      var body := calls[0].ws + Print(calls[0].payload);
      && Barren(calls[0].prose, TAG + (body + Write(calls[1..], tail)))
      && Barren(body, Write(calls[1..], tail))
      && NoStrayPayload(calls[1..], tail)
  }

  function Printed(calls: seq<Written>): seq<Text> {
    seq(|calls|, i requires 0 <= i < |calls| => Print(calls[i].payload))
  }

  lemma TaggedCall(ws: Text, v: Json, rest: Text)
    requires JsonOk(v) && (v.Array? || v.Object?) && forall i :: 0 <= i < |ws| ==> Space(ws[i])
    ensures Payloads(TAG + (ws + Print(v) + rest)) == [Print(v)] + Payloads(ws + Print(v) + rest)
  {
    var after := ws + Print(v) + rest;
    TagFirst(after);
    SliceOfPrinted(ws, v, rest, SliceIn(after));
  }

  lemma PrintedFirst(calls: seq<Written>)
    requires calls != []
    ensures Printed(calls) == [Print(calls[0].payload)] + Printed(calls[1..])
  {
  }

  lemma TagUnits(t: Text, i: nat)
    requires TagAt(t, i)
    ensures t[i] == LBRACKET && forall k :: i < k < i + |TAG| ==> t[k] != LBRACKET
  {
    assert forall k :: i <= k < i + |TAG| ==> t[k] == t[i..i + |TAG|][k - i];
  }

  /** Tags do not overlap: a bracket stands at the start of a tag and nowhere else in it. */
  lemma TagsApart(t: Text, i: nat, j: nat)
    requires TagAt(t, i) && TagAt(t, j) && i < j
    ensures i + |TAG| <= j
  {
    TagUnits(t, i);
    TagUnits(t, j);
  }

  /** Between a first tag at `k` and its end nothing else feeds. */
  lemma NothingBetween(t: Text, k: nat, i: nat)
    requires IndexOfTag(t, 0) == Some(k) && i < k + |TAG|
    ensures FeedsAt(t, i) ==> i == k && SliceIn(t[k + |TAG|..]).Some?
  {
    if FeedsAt(t, i) && k < i {
      TagsApart(t, k, i);
    }
  }

  lemma RestOf(a: Text, b: Text, next: nat)
    requires next <= |a|
    ensures (a + b)[next..] == a[next..] + b
  {
  }

  lemma SuffixOfSuffix(t: Text, i: nat, j: nat)
    requires i + j <= |t|
    ensures t[i..][j..] == t[i + j..]
  {
  }

  lemma FeedsInSuffix(t: Text, next: nat, i: nat)
    requires next <= |t|
    ensures FeedsAt(t[next..], i) == FeedsAt(t, next + i)
  {
    if next + i + |TAG| <= |t| {
      assert t[next..][i..i + |TAG|] == t[next + i..next + i + |TAG|];
      SuffixOfSuffix(t, next, i + |TAG|);
    }
  }

  lemma FeedsInRest(a: Text, b: Text, next: nat, i: nat)
    requires next <= |a|
    ensures FeedsAt(a[next..] + b, i) == FeedsAt(a + b, next + i)
  {
    RestOf(a, b, next);
    FeedsInSuffix(a + b, next, i);
  }

  lemma BarrenRest(a: Text, b: Text, next: nat)
    requires next <= |a|
    ensures Barren(a[next..], b) <==> forall i: nat :: next <= i < |a| ==> !FeedsAt(a + b, i)
  {
    if Barren(a[next..], b) {
      forall i: nat | next <= i < |a| ensures !FeedsAt(a + b, i) {
        FeedsInRest(a, b, next, i - next);
      }
    } else {
      var i: nat :| i < |a[next..]| && FeedsAt(a[next..] + b, i);
      FeedsInRest(a, b, next, i);
    }
  }

  lemma BarrenAfter(a: Text, b: Text, k: nat)
    requires k + |TAG| <= |a| && IndexOfTag(a + b, 0) == Some(k)
    ensures Barren(a, b) <==> !FeedsAt(a + b, k) && Barren(a[k + |TAG|..], b)
  {
    BarrenRest(a, b, k + |TAG|);
    forall i: nat | i < k + |TAG| && i != k ensures !FeedsAt(a + b, i) {
      NothingBetween(a + b, k, i);
    }
  }

  /** A first tag that reaches from `a` into `b` hides no tag of `b`. */
  lemma TagAcross(a: Text, b: Text, k: nat)
    requires k < |a| < k + |TAG| && IndexOfTag(a + b, 0) == Some(k)
    ensures Payloads((a + b)[k + |TAG|..]) == Payloads(b)
    ensures Barren(a, b) <==> !FeedsAt(a + b, k)
  {
    var n := k + |TAG| - |a|;
    assert (a + b)[k + |TAG|..] == b[n..] && b == b[..n] + b[n..];
    forall i: nat | i < n ensures !TagAt(b, i) {
      TagAtShift(a, b, i);
      if TagAt(a + b, |a| + i) {
        TagsApart(a + b, k, |a| + i);
      }
    }
    SkipUntagged(b[..n], b[n..]);
    forall i: nat | i < |a| && i != k ensures !FeedsAt(a + b, i) {
      NothingBetween(a + b, k, i);
    }
  }

  /** What the first tag of `a + b` leaves to be looked at, when it starts in `a`. */
  lemma FirstTagInside(a: Text, b: Text, k: nat)
    requires k < |a| && IndexOfTag(a + b, 0) == Some(k)
    ensures var a' := if k + |TAG| <= |a| then a[k + |TAG|..] else [];
            && Payloads((a + b)[k + |TAG|..]) == Payloads(a' + b)
            && (Barren(a, b) <==> !FeedsAt(a + b, k) && Barren(a', b))
  {
    if k + |TAG| <= |a| {
      assert (a + b)[k + |TAG|..] == a[k + |TAG|..] + b;
      BarrenAfter(a, b, k);
    } else {
      assert [] + b == b;
      TagAcross(a, b, k);
    }
  }

  /** What is collected from tags that start in `a` comes first, and is nothing exactly when `a` is barren. */
  lemma {:induction false} StrayPayloads(a: Text, b: Text) returns (strays: seq<Text>)
    ensures Payloads(a + b) == strays + Payloads(b)
    ensures strays == [] <==> Barren(a, b)
    decreases |a|
  {
    var first := IndexOfTag(a + b, 0);
    if first.Some? && first.value < |a| {
      var k := first.value;
      FirstTagInside(a, b, k);
      var a' := if k + |TAG| <= |a| then a[k + |TAG|..] else [];
      var others := StrayPayloads(a', b);
      var own := Listed(SliceIn((a + b)[k + |TAG|..]));
      strays := own + others;
      ConcatAssociative(own, others, Payloads(b));
      assert AfterTag(a + b) == Some((a + b)[k + |TAG|..]);
    } else {
      strays := [];
      SkipUntagged(a, b);
      assert [] + Payloads(b) == Payloads(b);
    }
  }

  lemma WrittenCallCollected(w: Written, others: Text) returns (before: seq<Text>, inside: seq<Text>)
    requires WrittenOk(w)
    ensures Payloads(w.prose + (TAG + (w.ws + Print(w.payload) + others)))
         == before + ([Print(w.payload)] + (inside + Payloads(others)))
    ensures before == [] <==> Barren(w.prose, TAG + (w.ws + Print(w.payload) + others))
    ensures inside == [] <==> Barren(w.ws + Print(w.payload), others)
  {
    forall i | 0 <= i < |w.ws| ensures Space(w.ws[i]) {
      WhiteSpaceIsSpace(w.ws[i]);
    }
    before := StrayPayloads(w.prose, TAG + (w.ws + Print(w.payload) + others));
    TaggedCall(w.ws, w.payload, others);
    inside := StrayPayloads(w.ws + Print(w.payload), others);
  }

  /** Every written call is collected, whatever else is. */
  lemma {:induction false} AtLeastTheCalls(calls: seq<Written>, tail: Text)
    requires forall i :: 0 <= i < |calls| ==> WrittenOk(calls[i])
    ensures |Payloads(Write(calls, tail))| >= |calls|
    decreases |calls|
  {
    if calls != [] {
      AtLeastTheCalls(calls[1..], tail);
      var before, inside := WrittenCallCollected(calls[0], Write(calls[1..], tail));
    }
  }

  lemma NothingStray(first: Text, before: seq<Text>, inside: seq<Text>, left: seq<Text>, printed: seq<Text>)
    requires |left| >= |printed|
    ensures before + ([first] + (inside + left)) == [first] + printed <==> before == inside == [] && left == printed
  {
    var all := before + ([first] + (inside + left));
    if all == [first] + printed {
      assert |all| == |before| + 1 + |inside| + |left|;
      assert all[1..] == left && ([first] + printed)[1..] == printed;
    }
  }

  /**
   * Calls written one after another come back whole, in order and alone, if and only if no other tag has a
   * payload after it.
   */
  lemma {:induction false} WrittenCallsCollected(calls: seq<Written>, tail: Text)
    requires forall i :: 0 <= i < |calls| ==> WrittenOk(calls[i])
    ensures Payloads(Write(calls, tail)) == Printed(calls) <==> NoStrayPayload(calls, tail)
    decreases |calls|
  {
    if calls == [] {
      var strays := StrayPayloads(tail, []);
      assert tail + [] == tail && strays + [] == strays;
    } else {
      var others := Write(calls[1..], tail);
      var before, inside := WrittenCallCollected(calls[0], others);
      AtLeastTheCalls(calls[1..], tail);
      PrintedFirst(calls);
      NothingStray(Print(calls[0].payload), before, inside, Payloads(others), Printed(calls[1..]));
      WrittenCallsCollected(calls[1..], tail);
    }
  }

  function PlainUnits(t: Text): seq<StringUnit> {
    seq(|t|, i requires 0 <= i < |t| => Plain(t[i]))
  }

  lemma {:induction false} PrintPlainUnits(t: Text)
    ensures PrintUnits(PlainUnits(t)) == t
  {
    if t != [] {
      PrintPlainUnits(t[1..]);
      assert PlainUnits(t)[1..] == PlainUnits(t[1..]);
      assert t == [t[0]] + t[1..];
    }
  }

  /** An array with one string in it, spelled without escapes. */
  function StringInArray(t: Text): Json {
    Array([], [Item([], String(PlainUnits(t)), [])])
  }

  lemma StringInArrayPrinted(t: Text)
    requires QUOTE !in t && BACKSLASH !in t
    ensures JsonOk(StringInArray(t)) && Print(StringInArray(t)) == [LBRACKET, QUOTE] + (t + [QUOTE, RBRACKET])
  {
    PrintPlainUnits(t);
    var items := [Item([], String(PlainUnits(t)), [])];
    assert PrintItems(items) == PrintItem(items[0]) == PrintString(PlainUnits(t));
    Bracketed(t);
  }

  lemma Bracketed(t: Text)
    ensures [LBRACKET] + ([QUOTE] + t + [QUOTE]) + [RBRACKET] == [LBRACKET, QUOTE] + (t + [QUOTE, RBRACKET])
  {
  }

  lemma BareTaggedCall(v: Json, rest: Text)
    requires JsonOk(v) && (v.Array? || v.Object?)
    ensures Payloads(TAG + (Print(v) + rest)) == [Print(v)] + Payloads(Print(v) + rest)
  {
    assert [] + Print(v) + rest == Print(v) + rest;
    TaggedCall([], v, rest);
  }

  lemma NothingTagged(t: Text)
    requires Untagged(t, [])
    ensures Payloads(t) == []
  {
    assert t + [] == t;
    SkipUntagged(t, []);
  }

  lemma InnerCall(pre: Text, inner: Json, post: Text)
    requires JsonOk(inner) && inner.Object?
    requires Untagged(pre, TAG + (Print(inner) + post)) && Untagged(Print(inner) + post, [])
    ensures Payloads(pre + (TAG + (Print(inner) + post))) == [Print(inner)]
  {
    SkipUntagged(pre, TAG + (Print(inner) + post));
    BareTaggedCall(inner, post);
    NothingTagged(Print(inner) + post);
  }

  lemma TagInside(v: Json, pre: Text, inner: Json, post: Text)
    requires JsonOk(v) && v.Array? && JsonOk(inner) && inner.Object?
    requires Print(v) == pre + (TAG + (Print(inner) + post))
    requires Untagged(pre, TAG + (Print(inner) + post)) && Untagged(Print(inner) + post, [])
    ensures Payloads(TAG + Print(v)) == [Print(v), Print(inner)]
  {
    assert Print(v) + [] == Print(v);
    BareTaggedCall(v, []);
    InnerCall(pre, inner, post);
  }

  /** A tag inside a payload's string is taken for another call: one written call, two collected payloads. */
  lemma TagInPayloadIsCollectedToo()
    ensures var v := StringInArray(TAG + [LBRACE, RBRACE]);
            JsonOk(v) && Payloads(TAG + Print(v)) == [Print(v), [LBRACE, RBRACE]]
  {
    var empty, pre, post := Object([], []), [LBRACKET, QUOTE], [QUOTE, RBRACKET];
    assert Print(empty) == [LBRACE, RBRACE];
    StringInArrayPrinted(TAG + [LBRACE, RBRACE]);
    ConcatAssociative(TAG, [LBRACE, RBRACE], post);
    NoEarlyTag(pre + (TAG + (Print(empty) + post)), 2);
    NoEarlyTag(Print(empty) + post + [], 4);
    TagInside(StringInArray(TAG + [LBRACE, RBRACE]), pre, empty, post);
  }

  lemma NoEarlyTag(t: Text, n: nat)
    requires n <= |t| && forall i :: 0 <= i < n && i + 1 < |t| ==> t[i] != TAG[0] || t[i + 1] != TAG[1]
    ensures forall i: nat :: i < n ==> !TagAt(t, i)
  {
    forall i: nat | i < n ensures !TagAt(t, i) {
      if i + |TAG| <= |t| {
        assert t[i..i + |TAG|][0] == t[i] && t[i..i + |TAG|][1] == t[i + 1];
      }
    }
  }
}
