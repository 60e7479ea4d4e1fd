/**
 * One delta on which both detectors of packages/agent/src/agent-loop.ts fire: the reasoning is a single word said over
 * and over, so the guard decides and the text degenerates. The decision then advances the ladder and reaches nobody.
 */
module LostDecision {
  import opened Std
  import opened Tokens
  import opened AgentLog
  import opened AgentLoop
  import opened DegeneracyStutter
  import D = Degeneracy
  import R = ReasoningLoop

  /** `no ` */
  const SAID: Text := NO + [BLANK]

  /** 1601 times the same word, which is some 1200 tokens. */
  function Drone(): (t: Text)
    ensures |t| == 4803
  {
    Copies(SAID, 1601)
  }

  /** What the loop check sees of it: its last 4000 characters. */
  function DroneTail(): (t: Text)
    ensures |t| == D.TAIL_CHARS
  {
    Last(Drone(), D.TAIL_CHARS)
  }

  /** `no` is a word in lower case and a stop word; a blank is none. */
  ghost predicate ReadsNo(lang: Language) {
    && !lang.isWord(BLANK) && WordRun(lang, NO) && lang.isStop(NO)
    && lang.lower(NO) == NO && lang.lower(DroneTail()) == DroneTail()
  }

  lemma {:induction false} CopiesSplit(u: Text, a: nat, b: nat)
    ensures Copies(u, a + b) == Copies(u, a) + Copies(u, b)
  {
    if b == 0 {
      assert Copies(u, a) + [] == Copies(u, a);
    } else {
      CopiesSplit(u, a, b - 1);
      assert Copies(u, a + b) == Copies(u, a + (b - 1)) + u;
      ConcatAssociative(Copies(u, a), Copies(u, b - 1), u);
    }
  }

  // ------------------------------------------------------------------------------------------
  // The reasoning loops
  // ------------------------------------------------------------------------------------------

  lemma SaidOnce(lang: Language)
    requires ReadsNo(lang)
    ensures Carry(lang, SAID) == [] && Words(lang, SAID) == [NO]
  {
    assert SAID[..|SAID| - 1] == NO && SAID[|SAID| - 1] == BLANK;
    WordRunTokens(lang, NO);
  }

  /** All words are the same one. */
  ghost predicate Says(words: seq<Text>, n: nat) {
    |words| == n && forall i :: 0 <= i < n ==> words[i] == NO
  }

  lemma {:induction false} SaidWords(lang: Language, n: nat)
    requires ReadsNo(lang)
    ensures Carry(lang, Copies(SAID, n)) == [] && Says(Words(lang, Copies(SAID, n)), n)
  {
    if n > 0 {
      SaidWords(lang, n - 1);
      SaidOnce(lang);
      var t := Copies(SAID, n - 1);
      TokensAppend(lang, t, SAID);
      assert [] + SAID == SAID && Copies(SAID, n) == t + SAID;
    }
  }

  lemma AlikeIsSimilar(a: set<Gram>)
    ensures R.Similar(a, a)
  {
    assert a * a == a && a + a == a;
  }

  lemma ReasoningLoops(guard: R.ReasoningLoopGuard)
    requires ReadsNo(guard.lang) && guard.since == Drone()
    ensures guard.Looping()
  {
    SaidWords(guard.lang, 1601);
    var all := Words(guard.lang, Drone());
    var a, b := R.Chunk(all, 11), R.Chunk(all, 12);
    assert a == b by {
      assert forall i :: 0 <= i < R.CHUNK_WORDS ==> a[i] == all[1320 + i] && b[i] == all[1440 + i];
    }
    AlikeIsSimilar(R.Ngrams(R.Chunk(all, 11)));
  }

  // ------------------------------------------------------------------------------------------
  // The text degenerates
  // ------------------------------------------------------------------------------------------

  lemma TailShape()
    ensures DroneTail() == [BLANK] + Copies(SAID, 1333)
  {
    CopiesSplit(SAID, 268, 1333);
    assert Copies(SAID, 268) == Copies(SAID, 267) + SAID;
    assert Copies(SAID, 268)[803..] == [BLANK];
  }

  lemma TailRepeats()
    ensures var t := DroneTail();
            && t[3997] == 0x6e && t[3998] == 0x6f && t[3999] == BLANK
            && forall k :: 3 <= k < 4000 ==> t[k] == t[k - 3]
  {
    CopiesPeriod(SAID, 1601);
    assert Copies(SAID, 1601) == Copies(SAID, 1600) + SAID;
    assert forall k :: 0 <= k < 4000 ==> DroneTail()[k] == Drone()[k + 803];
  }

  lemma TailMeasured()
    ensures D.MeasuredRun(DroneTail(), 3, 4000)
  {
    var t := DroneTail();
    TailRepeats();
    assert D.ProbeRecurs(t, D.PROBE_CHARS, 3);
    forall d: nat | 1 <= d < 3 ensures !D.ProbeRecurs(t, D.PROBE_CHARS, d) {
      assert t[3968..][31] == t[3999] && t[3968 - d..4000 - d][31] == t[3999 - d];
    }
  }

  lemma TextDegenerates(lang: Language)
    requires ReadsNo(lang)
    ensures D.Loops(lang, DroneTail(), D.Loop(3, 4000))
  {
    var t := DroneTail();
    TailMeasured();
    TailRepeats();
    TailShape();
    StopWord(lang, NO);
    StopWordCopies(lang, SAID, 1, 1333);
    StopWordsAppend(lang, [BLANK], Copies(SAID, 1333), 0, 1333);
    assert t[|t| - 4000..] == t && t[|t| - 3..] == [t[3997], t[3998], t[3999]];
    StopWordsRead(lang, t, 1333);
  }

  // ------------------------------------------------------------------------------------------
  // The loop's own step
  // ------------------------------------------------------------------------------------------

  /**
   * Whatever the run's state, when this delta is the first thinking a response streams to a guard that remembers
   * nothing, the guard decides, the response is stopped as degenerate, and no message is due.
   */
  method DeltaLosesDecision(run: AgentRun, added: bool, block: int, loopGuard: R.ReasoningLoopGuard,
                            detector: D.DegeneracyDetector)
    returns (r: Option<StreamResult>)
    requires run.Streaming(added) && run.Undisturbed() && run.GuardInStep(loopGuard) && run.DetectorInStep(detector)
    requires ReadsNo(loopGuard.lang) && detector.lang == loopGuard.lang
    requires loopGuard.Forgotten() && !loopGuard.sawToolCall && detector.block == [] && !detector.reported
    modifies run`context, run`log, run`mon, loopGuard, detector
    modifies run.agent`messages, run.agent`streamingMessage, run.agent`errorMessage, run.agent`pendingToolCalls
    ensures r.Some? && r.value.Streamed? && r.value.decision.None?
    ensures run.Inv() && run.mon.guard.triggers == old(run.mon.guard.triggers) + 1
    ensures run.mon.turn.cause == ByDegeneracy && !run.mon.guard.due
  {
    hide Monitor, R.Remembers, R.ReasoningLoopGuard.Looping, D.DegeneracyDetector.WindowOutcome, Copies, ReadsNo;
    var delta := Drone();
    ghost var report, found;
    r, report, found := run.CutIfLooping(ThinkingDelta(block, delta), added, loopGuard, detector);
    assert [] + delta == delta;
    ReasoningLoops(loopGuard);
    TextDegenerates(detector.lang);
    assert detector.tail == DroneTail();
    assert detector.HasLoop(detector.tail);
  }
}
