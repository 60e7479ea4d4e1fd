/**
 * A loop the detector of packages/agent/src/degeneracy.ts does not report: a sentence whose last word stutters. The
 * probe sees the stutter only, and the stutter is too short to be a loop of its own.
 */
module DegeneracyStutter {
  import opened Std
  import opened Tokens
  import opened Degeneracy

  const BLANK: CodeUnit := 0x20

  const AND: Text := [0x61, 0x6e, 0x64]
  const SO: Text := [0x73, 0x6f]
  const IT: Text := [0x69, 0x74]
  const IS: Text := [0x69, 0x73]
  const WHAT: Text := [0x77, 0x68, 0x61, 0x74]
  const WAS: Text := [0x77, 0x61, 0x73]
  const THEN: Text := [0x74, 0x68, 0x65, 0x6e]
  const NO: Text := [0x6e, 0x6f]

  /** `and so it is what it was and then ` */
  function Opening(): (t: Text)
    ensures |t| == 34 && t[32] == 0x6e && t[33] == BLANK && NEWLINE !in t
  {
    AND + [BLANK] + (SO + [BLANK]) + (IT + [BLANK]) + (IS + [BLANK]) + (WHAT + [BLANK]) + (IT + [BLANK])
    + (WAS + [BLANK]) + (AND + [BLANK]) + (THEN + [BLANK])
  }

  function Copies(u: Text, n: nat): (t: Text)
    ensures |t| == n * |u|
  {
    if n == 0 then [] else Copies(u, n - 1) + u
  }

  lemma {:induction false} CopiesFront(u: Text, n: nat)
    ensures Copies(u, n + 1) == u + Copies(u, n)
  {
    if n == 0 {
      assert [] + u == u + [];
    } else {
      CopiesFront(u, n - 1);
      ConcatAssociative(u, Copies(u, n - 1), u);
    }
  }

  /** Copies of a unit have the unit's length as a period. */
  lemma CopiesPeriod(u: Text, n: nat)
    requires n > 0
    ensures forall k :: |u| <= k < |Copies(u, n)| ==> Copies(u, n)[k] == Copies(u, n)[k - |u|]
  {
    CopiesFront(u, n - 1);
    var t, shorter := Copies(u, n), Copies(u, n - 1);
    forall k | |u| <= k < |t| ensures t[k] == t[k - |u|] {
      assert t[k] == shorter[k - |u|];
    }
  }

  function Unit(): (t: Text)
    ensures |t| == 70
  {
    Opening() + Copies(NO + [BLANK], 12)
  }

  /** Ten verbatim copies of the sentence. */
  function Stutter(): (t: Text)
    ensures |t| == 700
  {
    Copies(Unit(), 10)
  }

  // ------------------------------------------------------------------------------------------
  // What is measured
  // ------------------------------------------------------------------------------------------

  lemma UnitEnd()
    ensures var u := Unit();
            && u[32] == 0x6e && u[33] == BLANK && u[34] == 0x6e && u[35] == 0x6f && u[36] == BLANK
            && (forall k :: 37 <= k < 70 ==> u[k] == u[k - 3])
  {
    var stutter := Copies(NO + [BLANK], 12);
    CopiesFront(NO + [BLANK], 11);
    CopiesPeriod(NO + [BLANK], 12);
    assert forall k :: 34 <= k < 70 ==> Unit()[k] == stutter[k - 34];
  }

  /** A text of 700 units that ends in twelve times `no `, after an `n` and a blank. */
  ghost predicate EndsStuttering(t: Text) {
    && |t| == 700
    && t[662] == 0x6e && t[663] == BLANK && t[664] == 0x6e && t[665] == 0x6f && t[666] == BLANK
    && (forall k :: 667 <= k < 700 ==> t[k] == t[k - 3])
  }

  lemma StutterEnds(u: Text, t: Text)
    requires u == Unit() && |t| == 700 && t[630..] == u
    ensures EndsStuttering(t)
  {
    UnitEnd();
    assert forall k :: 630 <= k < 700 ==> t[k] == t[630..][k - 630];
  }

  lemma {:induction false} Threes(t: Text, i: nat, k: nat)
    requires EndsStuttering(t) && 664 <= i <= k < 700 && (k - i) % 3 == 0
    ensures t[k] == t[i]
    decreases k
  {
    if i < k {
      Threes(t, i, k - 3);
    }
  }

  lemma LastThree(t: Text)
    requires EndsStuttering(t)
    ensures t[697] == 0x6e && t[698] == 0x6f && t[699] == BLANK
  {
    Threes(t, 664, 697);
    Threes(t, 665, 698);
    Threes(t, 666, 699);
  }

  lemma NoCloserProbe(t: Text, d: nat)
    requires EndsStuttering(t) && 1 <= d < 3
    ensures !ProbeRecurs(t, PROBE_CHARS, d)
  {
    LastThree(t);
    assert t[668..][31] == t[699] && t[668 - d..700 - d][31] == t[699 - d];
  }

  lemma StutterMeasured(t: Text, p: nat, run: nat)
    requires EndsStuttering(t) && MeasuredRun(t, p, run)
    ensures p == 3 && run <= 37
  {
    assert ProbeRecurs(t, PROBE_CHARS, 3);
    NoCloserProbe(t, 1);
    NoCloserProbe(t, 2);
  }

  lemma {:induction false} NoNewline(u: Text, n: nat)
    requires NEWLINE !in u
    ensures NEWLINE !in Copies(u, n)
  {
    if n > 0 {
      NoNewline(u, n - 1);
    }
  }

  lemma StutterRepeats()
    ensures MaximalRepetition(Stutter(), 70, 700) && NEWLINE !in Stutter()
  {
    CopiesPeriod(Unit(), 10);
    NoNewline(NO + [BLANK], 12);
    NoNewline(Unit(), 10);
  }

  // ------------------------------------------------------------------------------------------
  // It reads as language
  // ------------------------------------------------------------------------------------------

  /** The words of the sentence are words, in lower case, and stop words; a blank is none. */
  ghost predicate ReadsTheWords(lang: Language) {
    && !lang.isWord(BLANK) && lang.lower(Stutter()) == Stutter()
    && forall w <- {AND, SO, IT, IS, WHAT, WAS, THEN, NO} :: lang.isStop(w) && WordRun(lang, w)
  }

  /** At least `n` finished words, all stop words, and no unfinished one. */
  ghost predicate StopWords(lang: Language, t: Text, n: nat) {
    var words := Words(AsIs(lang), t);
    && Carry(AsIs(lang), t) == [] && |words| >= n
    && forall i :: 0 <= i < |words| ==> lang.isStop(words[i])
  }

  lemma StopWordsAppend(lang: Language, a: Text, b: Text, m: nat, n: nat)
    requires StopWords(lang, a, m) && StopWords(lang, b, n)
    ensures StopWords(lang, a + b, m + n)
  {
    TokensAppend(AsIs(lang), a, b);
    assert [] + b == b;
  }

  lemma StopWord(lang: Language, w: Text)
    requires w != [] && WordRun(lang, w) && lang.isStop(w) && !lang.isWord(BLANK)
    ensures StopWords(lang, w + [BLANK], 1)
  {
    var t := w + [BLANK];
    assert t[..|t| - 1] == w;
    WordRunTokens(AsIs(lang), w);
  }

  lemma {:induction false} StopWordCopies(lang: Language, u: Text, m: nat, n: nat)
    requires StopWords(lang, u, m)
    ensures StopWords(lang, Copies(u, n), n * m)
  {
    if n > 0 {
      StopWordCopies(lang, u, m, n - 1);
      StopWordsAppend(lang, Copies(u, n - 1), u, (n - 1) * m, m);
      assert n * m == (n - 1) * m + m;
    }
  }

  lemma OpeningWords(lang: Language)
    requires ReadsTheWords(lang)
    ensures StopWords(lang, Opening(), 9)
  {
    StopWord(lang, AND);
    StopWord(lang, SO);
    StopWord(lang, IT);
    StopWord(lang, IS);
    StopWord(lang, WHAT);
    StopWord(lang, WAS);
    StopWord(lang, THEN);
    var t := AND + [BLANK];
    t := AddWord(lang, t, SO, 1);
    t := AddWord(lang, t, IT, 2);
    t := AddWord(lang, t, IS, 3);
    t := AddWord(lang, t, WHAT, 4);
    t := AddWord(lang, t, IT, 5);
    t := AddWord(lang, t, WAS, 6);
    t := AddWord(lang, t, AND, 7);
    t := AddWord(lang, t, THEN, 8);
  }

  lemma AddWord(lang: Language, t: Text, w: Text, n: nat) returns (t': Text)
    requires StopWords(lang, t, n) && StopWords(lang, w + [BLANK], 1)
    ensures t' == t + (w + [BLANK]) && StopWords(lang, t', n + 1)
  {
    t' := t + (w + [BLANK]);
    StopWordsAppend(lang, t, w + [BLANK], n, 1);
  }

  lemma StutterWords(lang: Language)
    requires ReadsTheWords(lang)
    ensures StopWords(lang, Stutter(), 9)
  {
    OpeningWords(lang);
    StopWord(lang, NO);
    StopWordCopies(lang, NO + [BLANK], 0, 12);
    StopWordsAppend(lang, Opening(), Copies(NO + [BLANK], 12), 9, 0);
    StopWordCopies(lang, Unit(), 0, 9);
    StopWordsAppend(lang, Copies(Unit(), 9), Unit(), 0, 9);
  }

  lemma {:induction false} AllStop(lang: Language, tokens: seq<Text>)
    requires forall i :: 0 <= i < |tokens| ==> lang.isStop(tokens[i])
    ensures StopCount(lang, tokens) == |tokens|
  {
    if tokens != [] {
      AllStop(lang, tokens[..|tokens| - 1]);
    }
  }

  /** A text of stop words, in lower case, reads as language. */
  lemma StopWordsRead(lang: Language, t: Text, n: nat)
    requires StopWords(lang, t, n) && n > 0 && lang.lower(t) == t
    ensures |RunTokens(lang, t)| >= n && ReadsAsLanguage(lang, RunTokens(lang, t))
  {
    var tokens := RunTokens(lang, t);
    assert tokens == Words(AsIs(lang), t) + [] == Words(AsIs(lang), t);
    AllStop(lang, tokens);
  }

  lemma StutterPassesGates(lang: Language)
    requires ReadsTheWords(lang)
    ensures LoopGates(lang, Stutter(), 70, 700)
  {
    var t := Stutter();
    StutterRepeats();
    StutterWords(lang);
    assert t[|t| - 700..] == t;
    StopWordsRead(lang, t, 9);
  }

  /**
   * The loop check stays silent on ten verbatim copies of a 70-character sentence, although this repetition
   * passes every gate: what it measures instead has period 3 and 37 characters.
   */
  lemma StutterIsMissed(lang: Language)
    requires ReadsTheWords(lang)
    ensures MaximalRepetition(Stutter(), 70, 700) && LoopGates(lang, Stutter(), 70, 700)
    ensures forall loop :: !Loops(lang, Stutter(), loop)
  {
    StutterRepeats();
    StutterPassesGates(lang);
    StutterEnds(Unit(), Stutter());
    forall loop | Loops(lang, Stutter(), loop) ensures false {
      StutterMeasured(Stutter(), loop.period, loop.run);
    }
  }
}
