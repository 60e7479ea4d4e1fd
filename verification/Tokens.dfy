/**
 * The word tokenizer shared by packages/agent/src/degeneracy.ts and
 * packages/agent/src/reasoning-loop.ts: fed piece by piece, it finds the words of the whole.
 */
module Tokens {
  import opened Std

  /** The parts of Unicode the tokenizer leans on: what a word character is, lower-casing, and the stop words. */
  datatype Language = Language(isWord: CodeUnit -> bool, lower: Text -> Text, isStop: Text -> bool)

  /** An n-gram: its words joined by a blank, which no word contains, so the sequence itself is the key. */
  type Gram = seq<Text>

  // ------------------------------------------------------------------------------------------
  // Words of a whole text
  // ------------------------------------------------------------------------------------------

  /** The unfinished word at the end of `t`. */
  function Carry(lang: Language, t: Text): Text {
    if t == [] || !lang.isWord(t[|t| - 1]) then [] else Carry(lang, t[..|t| - 1]) + [t[|t| - 1]]
  }

  /** The finished words of `t`, lower-cased: those some non-word character already follows. */
  function Words(lang: Language, t: Text): seq<Text> {
    if t == [] then []
    else
      var init := t[..|t| - 1];
      if !lang.isWord(t[|t| - 1]) && Carry(lang, init) != []
      then Words(lang, init) + [lang.lower(Carry(lang, init))]
      else Words(lang, init)
  }

  /** All words of `t`, the one at its very end included. */
  function AllWords(lang: Language, t: Text): seq<Text> {
    Words(lang, t) + (if Carry(lang, t) == [] then [] else [lang.lower(Carry(lang, t))])
  }

  ghost predicate WordRun(lang: Language, t: Text) { forall i :: 0 <= i < |t| ==> lang.isWord(t[i]) }

  lemma {:induction false} WordRunTokens(lang: Language, t: Text)
    requires WordRun(lang, t)
    ensures Carry(lang, t) == t && Words(lang, t) == []
  {
    if t != [] {
      WordRunTokens(lang, t[..|t| - 1]);
    }
  }

  lemma {:induction false} CarryIsRun(lang: Language, t: Text)
    ensures WordRun(lang, Carry(lang, t)) && |Carry(lang, t)| <= |t|
  {
    if t != [] && lang.isWord(t[|t| - 1]) {
      CarryIsRun(lang, t[..|t| - 1]);
    }
  }

  /** Streaming: holding back only the unfinished word loses nothing. */
  lemma {:induction false} TokensAppend(lang: Language, a: Text, b: Text)
    ensures Words(lang, a + b) == Words(lang, a) + Words(lang, Carry(lang, a) + b)
    ensures Carry(lang, a + b) == Carry(lang, Carry(lang, a) + b)
  {
    if b == [] {
      assert a + b == a && Carry(lang, a) + b == Carry(lang, a);
      CarryIsRun(lang, a);
      WordRunTokens(lang, Carry(lang, a));
    } else {
      var b' := b[..|b| - 1];
      TokensAppend(lang, a, b');
      assert (a + b)[..|a + b| - 1] == a + b';
      var c := Carry(lang, a) + b;
      assert c[..|c| - 1] == Carry(lang, a) + b';
    }
  }

  lemma EndOfWord(lang: Language, t: Text, c: CodeUnit)
    requires !lang.isWord(c) && Carry(lang, t) != []
    ensures Words(lang, t + [c]) == Words(lang, t) + [lang.lower(Carry(lang, t))]
  {
    assert (t + [c])[..|t|] == t;
  }

  lemma NothingCarried(lang: Language, t: Text)
    requires t == [] || !lang.isWord(t[|t| - 1])
    ensures Carry(lang, t) == []
  {
  }

  /** A run of word characters between others is one more word, in lower case; what it ends in does not matter. */
  lemma OneMoreWord(lang: Language, t: Text, run: Text, c: CodeUnit)
    requires t == [] || !lang.isWord(t[|t| - 1])
    requires run != [] && WordRun(lang, run) && !lang.isWord(c)
    ensures Words(lang, t + run + [c]) == Words(lang, t) + [lang.lower(run)]
  {
    hide Words, Carry, WordRun;
    NothingCarried(lang, t);
    WordRunTokens(lang, run);
    TokensAppend(lang, t, run);
    assert [] + run == run && Words(lang, t) + [] == Words(lang, t);
    EndOfWord(lang, t + run, c);
  }

  /** No other unit adds a word: not one more of a run, and not the next of a gap. */
  lemma NoWordMore(lang: Language, t: Text, c: CodeUnit)
    requires lang.isWord(c) || t == [] || !lang.isWord(t[|t| - 1])
    ensures Words(lang, t + [c]) == Words(lang, t)
  {
    assert (t + [c])[..|t|] == t;
  }

  lemma {:induction false} SkipNonWords(lang: Language, t: Text, i: nat, j: nat)
    requires i <= j <= |t| && (forall k :: i <= k < j ==> !lang.isWord(t[k]))
    ensures AllWords(lang, t[..j]) == AllWords(lang, t[..i])
    ensures i < j ==> Carry(lang, t[..j]) == []
    decreases j - i
  {
    if i < j {
      SkipNonWords(lang, t, i, j - 1);
      assert t[..j][..j - 1] == t[..j - 1];
    }
  }

  lemma {:induction false} TakeWord(lang: Language, t: Text, start: nat, end: nat)
    requires start < end <= |t| && (forall k :: start <= k < end ==> lang.isWord(t[k]))
    requires Carry(lang, t[..start]) == []
    ensures Words(lang, t[..end]) == Words(lang, t[..start]) && Carry(lang, t[..end]) == t[start..end]
    decreases end - start
  {
    assert t[..end][..end - 1] == t[..end - 1];
    if start + 1 < end {
      TakeWord(lang, t, start, end - 1);
      assert t[start..end] == t[start..end - 1] + [t[end - 1]];
    }
  }

  // ------------------------------------------------------------------------------------------
  // The regular-expression loop
  // ------------------------------------------------------------------------------------------

  /** One step of a global match of `WORD_RE`: the first maximal word run at or after `from`. */
  method NextWord(lang: Language, buffer: Text, from: nat) returns (start: nat, end: nat)
    requires from <= |buffer|
    ensures from <= start <= end <= |buffer| && (start == end ==> start == |buffer|)
    ensures forall k :: from <= k < start ==> !lang.isWord(buffer[k])
    ensures forall k :: start <= k < end ==> lang.isWord(buffer[k])
    ensures end < |buffer| ==> !lang.isWord(buffer[end])
  {
    start := from;
    while start < |buffer| && !lang.isWord(buffer[start])
      invariant from <= start <= |buffer| && forall k :: from <= k < start ==> !lang.isWord(buffer[k])
    {
      start := start + 1;
    }
    end := start;
    while end < |buffer| && lang.isWord(buffer[end])
      invariant start <= end <= |buffer| && forall k :: start <= k < end ==> lang.isWord(buffer[k])
      invariant start < |buffer| ==> lang.isWord(buffer[start])
    {
      end := end + 1;
    }
  }

  /** Splits `buffer` into its finished words and the run that touches its end. */
  method SplitWords(lang: Language, buffer: Text) returns (words: seq<Text>, trailing: Text)
    ensures words == Words(lang, buffer) && trailing == Carry(lang, buffer)
  {
    words, trailing := [], [];
    var pos := 0;
    while true
      invariant 0 <= pos <= |buffer| && words == AllWords(lang, buffer[..pos])
      invariant pos == 0 || (pos < |buffer| && !lang.isWord(buffer[pos]))
      decreases |buffer| - pos
    {
      var start, end := NextWord(lang, buffer, pos);
      SkipNonWords(lang, buffer, pos, start);
      assert buffer[..0] == [];
      assert Carry(lang, buffer[..start]) == [];
      if start == end {
        assert buffer[..start] == buffer;
        return;
      }
      TakeWord(lang, buffer, start, end);
      if end == |buffer| {
        assert buffer[..end] == buffer;
        trailing := buffer[start..end];
        return;
      }
      words := words + [lang.lower(buffer[start..end])];
      pos := end;
    }
  }
}
