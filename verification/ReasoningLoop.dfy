/** The cross-turn reasoning-loop guard of packages/agent/src/reasoning-loop.ts. */
module ReasoningLoop {
  import opened Std
  import opened Tokens
  import opened AgentLog

  const REASONING_TOKEN_LIMIT: nat := 1200
  const CHARS_PER_TOKEN: nat := 4
  const NO_PROGRESS_TURN_LIMIT: nat := 2
  const CHUNK_WORDS: nat := 120
  const NGRAM_MIN: nat := 3
  const NGRAM_MAX: nat := 5
  const CHECK_EVERY_CHARS: nat := 256

  predicate GramAt(words: seq<Text>, gram: Gram, i: nat) {
    i + |gram| <= |words| && words[i..i + |gram|] == gram
  }

  /** The grams of length `n` that start before `i`. */
  function GramsBefore(words: seq<Text>, n: nat, i: nat): set<Gram>
    requires i > 0 ==> i + n <= |words| + 1
  {
    if i == 0 then {} else GramsBefore(words, n, i - 1) + {words[i - 1..i - 1 + n]}
  }

  function GramsOfLength(words: seq<Text>, n: nat): set<Gram> {
    if n <= |words| then GramsBefore(words, n, |words| - n + 1) else {}
  }

  /** The grams shorter than `n`. */
  function GramsBelow(words: seq<Text>, n: nat): set<Gram> {
    if n <= NGRAM_MIN then {} else GramsBelow(words, n - 1) + GramsOfLength(words, n - 1)
  }

  function Ngrams(words: seq<Text>): set<Gram> {
    GramsBelow(words, NGRAM_MAX + 1)
  }

  lemma {:induction false} GramsBeforeMembers(words: seq<Text>, n: nat, i: nat, gram: Gram)
    requires i > 0 ==> i + n <= |words| + 1
    ensures gram in GramsBefore(words, n, i) <==> |gram| == n && exists k: nat :: k < i && GramAt(words, gram, k)
  {
    if i > 0 {
      GramsBeforeMembers(words, n, i - 1, gram);
      if gram == words[i - 1..i - 1 + n] {
        assert GramAt(words, gram, i - 1);
      }
    }
  }

  lemma GramsOfLengthMembers(words: seq<Text>, n: nat, gram: Gram)
    ensures gram in GramsOfLength(words, n) <==> |gram| == n && exists k: nat :: GramAt(words, gram, k)
  {
    if n <= |words| {
      GramsBeforeMembers(words, n, |words| - n + 1, gram);
    }
  }

  lemma {:induction false} GramsBelowMembers(words: seq<Text>, n: nat, gram: Gram)
    ensures gram in GramsBelow(words, n) <==> NGRAM_MIN <= |gram| < n && exists k: nat :: GramAt(words, gram, k)
  {
    if n > NGRAM_MIN {
      GramsBelowMembers(words, n - 1, gram);
      GramsOfLengthMembers(words, n - 1, gram);
    }
  }

  /** The compared set holds exactly the runs of three, four or five consecutive words of the chunk. */
  lemma NgramsAreTheGrams(words: seq<Text>, gram: Gram)
    ensures gram in Ngrams(words)
       <==> NGRAM_MIN <= |gram| <= NGRAM_MAX && exists k: nat :: GramAt(words, gram, k)
  {
    GramsBelowMembers(words, NGRAM_MAX + 1, gram);
  }

  method NgramSet(words: seq<Text>) returns (grams: set<Gram>)
    ensures grams == Ngrams(words)
  {
    grams := {};
    var n := NGRAM_MIN;
    while n <= NGRAM_MAX
      invariant NGRAM_MIN <= n <= NGRAM_MAX + 1
      invariant grams == GramsBelow(words, n)
    {
      grams := AddGramsOfLength(words, n, grams);
      n := n + 1;
    }
  }

  method AddGramsOfLength(words: seq<Text>, n: nat, shorter: set<Gram>) returns (grams: set<Gram>)
    ensures grams == shorter + GramsOfLength(words, n)
  {
    grams := shorter;
    var i := 0;
    while i + n <= |words|
      invariant 0 <= i && (i > 0 ==> i + n <= |words| + 1)
      invariant grams == shorter + GramsBefore(words, n, i)
    {
      assert shorter + (GramsBefore(words, n, i) + {words[i..i + n]}) == grams + {words[i..i + n]};
      grams := grams + {words[i..i + n]};
      i := i + 1;
    }
  }

  /** Counts the shared grams; the measure itself is `shared / (|a| + |b| - shared)`, or 1 for two empty sets. */
  method SharedGrams(a: set<Gram>, b: set<Gram>) returns (shared: nat)
    ensures shared == |a * b|
  {
    shared := 0;
    var rest := a;
    while rest != {}
      invariant rest <= a && shared + |rest * b| == |a * b|
      decreases rest
    {
      var gram :| gram in rest;
      ghost var before := rest;
      rest := rest - {gram};
      if gram in b {
        assert before * b == rest * b + {gram};
        shared := shared + 1;
      } else {
        assert before * b == rest * b;
      }
    }
  }

  /** The Jaccard index of two sets is above 0.8: their overlap, against their union. */
  ghost predicate Similar(a: set<Gram>, b: set<Gram>) {
    (a == {} && b == {}) || 10 * |a * b| > 8 * |a + b|
  }

  method JaccardAboveThreshold(a: set<Gram>, b: set<Gram>) returns (above: bool)
    ensures above == Similar(a, b)
  {
    if |a| == 0 && |b| == 0 {
      return true;
    }
    var shared := SharedGrams(a, b);
    assert |a + b| == |a| + |b| - |a * b|;
    return 10 * shared > 8 * (|a| + |b| - shared);
  }

  // ------------------------------------------------------------------------------------------
  // What the guard remembers of the reasoning since the last progress
  // ------------------------------------------------------------------------------------------

  /** The `c`-th full chunk of words. */
  function Chunk(words: seq<Text>, c: nat): seq<Text>
    requires (c + 1) * CHUNK_WORDS <= |words|
  {
    words[c * CHUNK_WORDS..(c + 1) * CHUNK_WORDS]
  }

  /** The n-gram sets of the last two full chunks. */
  function LastChunkSets(words: seq<Text>, full: nat): (sets: seq<set<Gram>>)
    requires full * CHUNK_WORDS <= |words|
    ensures |sets| == Min(full, 2)
  {
    if full == 0 then []
    else if full == 1 then [Ngrams(Chunk(words, 0))]
    else [Ngrams(Chunk(words, full - 2)), Ngrams(Chunk(words, full - 1))]
  }

  datatype TurnProgress = TurnProgress(
    toolCalls: nat, replExecutions: nat, filesChanged: nat, commandsExecuted: nat, newObservationBytes: nat)
  {
    predicate Any() {
      toolCalls > 0 || replExecutions > 0 || filesChanged > 0 || commandsExecuted > 0 || newObservationBytes > 0
    }
  }

  const REPL_NAMES: seq<Text> := [[0x72, 0x65, 0x70, 0x6c]]

  /** `bash`, `exec`, `run`, `shell` */
  const COMMAND_NAMES: seq<Text> := [
    [0x62, 0x61, 0x73, 0x68], [0x65, 0x78, 0x65, 0x63], [0x72, 0x75, 0x6e], [0x73, 0x68, 0x65, 0x6c, 0x6c]]

  /** `edit`, `write`, `patch`, `apply`, `create` */
  const EDIT_NAMES: seq<Text> := [
    [0x65, 0x64, 0x69, 0x74], [0x77, 0x72, 0x69, 0x74, 0x65], [0x70, 0x61, 0x74, 0x63, 0x68],
    [0x61, 0x70, 0x70, 0x6c, 0x79], [0x63, 0x72, 0x65, 0x61, 0x74, 0x65]]

  predicate PartAt(t: Text, part: Text, i: nat) {
    i + |part| <= |t| && t[i..i + |part|] == part
  }

  predicate Contains(t: Text, part: Text) {
    exists i: nat :: i <= |t| && PartAt(t, part, i)
  }

  /** A lower-cased name is one of `names`, or contains one. */
  predicate Classed(name: Text, names: seq<Text>, whole: bool) {
    exists k :: 0 <= k < |names| && (if whole then name == names[k] else Contains(name, names[k]))
  }

  /** How many calls fall into a class. */
  function Named(lang: Language, calls: seq<ToolCall>, names: seq<Text>, whole: bool): (n: nat)
    ensures n <= |calls|
  {
    if calls == [] then 0
    else
      Named(lang, calls[..|calls| - 1], names, whole)
      + (if Classed(lang.lower(calls[|calls| - 1].name), names, whole) then 1 else 0)
  }

  /** What a turn observably did. */
  function ProgressOf(lang: Language, calls: seq<ToolCall>, results: Transcript): TurnProgress {
    TurnProgress(|calls|, Named(lang, calls, REPL_NAMES, true), Named(lang, calls, EDIT_NAMES, false),
                 Named(lang, calls, COMMAND_NAMES, false), ObservedBytes(results))
  }

  /** Whatever the tools are called, a turn made progress exactly when there were calls or observed text. */
  lemma ProgressIsAnything(lang: Language, calls: seq<ToolCall>, results: Transcript)
    ensures ProgressOf(lang, calls, results).Any() <==> |calls| > 0 || ObservedBytes(results) > 0
  {
  }

  /** Counts what the turn did: calls by the broad classes their names fall into, and observed text. */
  method ExtractTurnProgress(lang: Language, message: AgentMessage, results: Transcript)
    returns (progress: TurnProgress)
    ensures progress == if message.role == AssistantRole then ProgressOf(lang, message.toolCalls, results)
                        else TurnProgress(0, 0, 0, 0, 0)
  {
    if message.role != AssistantRole {
      return TurnProgress(0, 0, 0, 0, 0);
    }
    var replExecutions, filesChanged, commandsExecuted := 0, 0, 0;
    for i := 0 to |message.toolCalls|
      invariant replExecutions == Named(lang, message.toolCalls[..i], REPL_NAMES, true)
      invariant commandsExecuted == Named(lang, message.toolCalls[..i], COMMAND_NAMES, false)
      invariant filesChanged == Named(lang, message.toolCalls[..i], EDIT_NAMES, false)
    {
      assert message.toolCalls[..i + 1][..i] == message.toolCalls[..i];
      var name := lang.lower(message.toolCalls[i].name);
      if Classed(name, REPL_NAMES, true) {
        replExecutions := replExecutions + 1;
      }
      if Classed(name, COMMAND_NAMES, false) {
        commandsExecuted := commandsExecuted + 1;
      }
      if Classed(name, EDIT_NAMES, false) {
        filesChanged := filesChanged + 1;
      }
    }
    assert message.toolCalls[..|message.toolCalls|] == message.toolCalls;
    var bytes: nat := 0;
    for i := 0 to |results|
      invariant bytes == ObservedBytes(results[..i])
    {
      assert results[..i + 1][..i] == results[..i];
      bytes := bytes + results[i].observationBytes;
    }
    assert results[..|results|] == results;
    progress := TurnProgress(|message.toolCalls|, replExecutions, filesChanged, commandsExecuted, bytes);
  }

  /** What the guard's fields are when `since` was observed since the last progress. */
  ghost predicate Remembers(lang: Language, since: Text, chars: nat, charsSinceCheck: nat, carry: Text,
                            words: seq<Text>, chunkSets: seq<set<Gram>>)
  {
    var all := Words(lang, since);
    var full := |all| / CHUNK_WORDS;
    && chars == |since|
    && carry == Carry(lang, since)
    && words == all[full * CHUNK_WORDS..]
    && chunkSets == LastChunkSets(all, full)
    && charsSinceCheck < CHECK_EVERY_CHARS
  }

  lemma NothingRemembered(lang: Language)
    ensures Remembers(lang, [], 0, 0, [], [], [])
  {
  }

  // ------------------------------------------------------------------------------------------
  // When reasoning loops, in words alone
  // ------------------------------------------------------------------------------------------

  predicate ThreeAlike(a: seq<Text>, i: int, b: seq<Text>, j: int)
    requires 0 <= i <= |a| - 3 && 0 <= j <= |b| - 3
  {
    a[i] == b[j] && a[i + 1] == b[j + 1] && a[i + 2] == b[j + 2]
  }

  /** No three words in a row of the last 120 but one are said in a row in the last 120; an odd end does not count. */
  ghost predicate AllNew(all: seq<Text>) {
    var end := 120 * (|all| / 120);
    |all| >= 240
    && forall i, j :: end - 240 <= i <= end - 123 && end - 120 <= j <= end - 3 ==> !ThreeAlike(all, i, all, j)
  }

  /** The last 120 words are the 120 before them. */
  ghost predicate SaidAgain(all: seq<Text>) {
    var end := 120 * (|all| / 120);
    |all| >= 240 && all[end - 240..end - 120] == all[end - 120..end]
  }

  /** `grams` are the different runs of three, four or five words in `words`. */
  ghost predicate RunsOf(words: seq<Text>, grams: set<Gram>) {
    forall gram :: gram in grams <==> 3 <= |gram| <= 5 && exists k: nat :: GramAt(words, gram, k)
  }

  lemma NgramsAreRuns(words: seq<Text>)
    ensures RunsOf(words, Ngrams(words))
  {
    hide Ngrams, GramAt;
    forall gram
      ensures gram in Ngrams(words) <==> 3 <= |gram| <= 5 && exists k: nat :: GramAt(words, gram, k)
    {
      NgramsAreTheGrams(words, gram);
    }
  }

  lemma RunsUnique(words: seq<Text>, x: set<Gram>, y: set<Gram>)
    requires RunsOf(words, x) && RunsOf(words, y)
    ensures x == y
  {
    hide GramAt;
    assert forall gram :: gram in x <==> gram in y;
  }

  lemma LastTwoChunks(all: seq<Text>)
    requires |all| >= 240
    ensures var full := |all| / CHUNK_WORDS; var end := 120 * (|all| / 120);
            && Chunk(all, full - 2) == all[end - 240..end - 120] && Chunk(all, full - 1) == all[end - 120..end]
  {
  }

  lemma SomeRun(words: seq<Text>, grams: set<Gram>)
    requires |words| >= 3 && RunsOf(words, grams)
    ensures words[..3] in grams && |grams| > 0
  {
    assert GramAt(words, words[..3], 0);
  }

  lemma SimilarMeasured(a: set<Gram>, b: set<Gram>)
    requires |a| > 0
    ensures Similar(a, b) <==> 5 * |a * b| > 4 * |a + b|
  {
  }

  /**
   * Reasoning loops exactly when more than 4800 characters came since the last progress, two times 120 words did, and
   * the last two 120 share more than four of five of the different runs of three to five words either has.
   */
  lemma LoopingMeasured(guard: ReasoningLoopGuard, previous: set<Gram>, current: set<Gram>)
    requires var all := Words(guard.lang, guard.since); var end := 120 * (|all| / 120);
             |all| >= 240 ==> RunsOf(all[end - 240..end - 120], previous) && RunsOf(all[end - 120..end], current)
    ensures guard.Looping() <==> |guard.since| > 4800 && |Words(guard.lang, guard.since)| >= 240
                                 && 5 * |previous * current| > 4 * |previous + current|
  {
    hide RunsOf, Ngrams, Words, Similar;
    var all := Words(guard.lang, guard.since);
    if |all| >= 240 {
      LastTwoChunks(all);
      var end := 120 * (|all| / 120);
      var a, b := all[end - 240..end - 120], all[end - 120..end];
      NgramsAreRuns(a);
      NgramsAreRuns(b);
      RunsUnique(a, previous, Ngrams(a));
      RunsUnique(b, current, Ngrams(b));
      SomeRun(a, previous);
      SimilarMeasured(previous, current);
    }
  }

  lemma NewRunsShareNothing(a: seq<Text>, b: seq<Text>, x: set<Gram>, y: set<Gram>)
    requires RunsOf(a, x) && RunsOf(b, y)
    requires forall i, j :: 0 <= i <= |a| - 3 && 0 <= j <= |b| - 3 ==> !ThreeAlike(a, i, b, j)
    ensures x * y == {}
  {
    if gram :| gram in x * y {
      var i: nat :| GramAt(a, gram, i);
      var j: nat :| GramAt(b, gram, j);
      HeadOfGram(a, gram, i);
      HeadOfGram(b, gram, j);
      assert ThreeAlike(a, i, b, j);
      assert false;
    }
  }

  lemma HeadOfGram(words: seq<Text>, gram: Gram, i: nat)
    requires |gram| >= 3 && GramAt(words, gram, i)
    ensures i <= |words| - 3 && ThreeAlike(words, i, gram, 0)
  {
  }

  lemma AllNewSlices(all: seq<Text>)
    requires AllNew(all)
    ensures var end := 120 * (|all| / 120); var a, b := all[end - 240..end - 120], all[end - 120..end];
            forall i, j :: 0 <= i <= 117 && 0 <= j <= 117 ==> !ThreeAlike(a, i, b, j)
  {
    var end := 120 * (|all| / 120);
    var a, b := all[end - 240..end - 120], all[end - 120..end];
    forall i, j | 0 <= i <= 117 && 0 <= j <= 117
      ensures !ThreeAlike(a, i, b, j)
    {
      assert !ThreeAlike(all, end - 240 + i, all, end - 120 + j);
    }
  }

  /** Reasoning that says only new things never loops; saying the same again does once it is long enough. */
  lemma ReasoningMeasured(guard: ReasoningLoopGuard)
    ensures guard.Looping() ==> |guard.since| > 4800 && |Words(guard.lang, guard.since)| >= 240
                                && !AllNew(Words(guard.lang, guard.since))
    ensures |guard.since| > 4800 && SaidAgain(Words(guard.lang, guard.since)) ==> guard.Looping()
  {
    hide ReasoningLoopGuard.Looping, Ngrams, RunsOf, Words, AllNew;
    var all := Words(guard.lang, guard.since);
    if |all| < 240 {
      LoopingMeasured(guard, {}, {});
    } else {
      var end := 120 * (|all| / 120);
      var a, b := all[end - 240..end - 120], all[end - 120..end];
      NgramsAreRuns(a);
      NgramsAreRuns(b);
      LoopingMeasured(guard, Ngrams(a), Ngrams(b));
      SomeRun(a, Ngrams(a));
      if AllNew(all) {
        AllNewSlices(all);
        NewRunsShareNothing(a, b, Ngrams(a), Ngrams(b));
      }
      assert Ngrams(a) * Ngrams(a) == Ngrams(a) == Ngrams(a) + Ngrams(a);
    }
  }

  class ReasoningLoopGuard {
    const lang: Language
    var phase: nat
    var sawToolCall: bool
    var reasoningChars: nat
    var charsSinceCheck: nat
    var carry: Text
    var words: seq<Text>
    var chunkSets: seq<set<Gram>>
    var noProgressTurns: nat
    /** All thinking observed since the last progress. */
    ghost var since: Text

    constructor (lang: Language)
      ensures Valid() && phase == 0 && noProgressTurns == 0 && since == [] && this.lang == lang
    {
      this.lang := lang;
      phase, sawToolCall, reasoningChars, charsSinceCheck, noProgressTurns := 0, false, 0, 0, 0;
      carry, words, chunkSets, since := [], [], [], [];
      NothingRemembered(lang);
    }

    /** The streamed state is a function of all the text since the last progress, however it was cut up. */
    ghost predicate Valid()
      reads this
    {
      Remembers(lang, since, reasoningChars, charsSinceCheck, carry, words, chunkSets)
    }

    method BeginTurn()
      modifies this`sawToolCall
      ensures !sawToolCall && (old(Valid()) ==> Valid())
    {
      sawToolCall := false;
    }

    method NoteToolCallSeen()
      modifies this`sawToolCall
      ensures sawToolCall && (old(Valid()) ==> Valid())
    {
      sawToolCall := true;
    }

    /** Fires when a check is due, enough was reasoned, and the last two full chunks are alike. */
    ghost predicate Looping()
      reads this`since
    {
      var all := Words(lang, since);
      var full := |all| / CHUNK_WORDS;
      && |since| > REASONING_TOKEN_LIMIT * CHARS_PER_TOKEN
      && full >= 2
      && Similar(Ngrams(Chunk(all, full - 2)), Ngrams(Chunk(all, full - 1)))
    }

    /**
     * What a thinking delta does: unless a tool call was seen it is remembered, and the guard fires exactly when a
     * check is due and all that was observed since the last progress loops.
     */
    twostate predicate Observed(delta: Text, fires: bool)
      reads this
    {
      var due := !old(sawToolCall) && old(charsSinceCheck) + |delta| >= CHECK_EVERY_CHARS;
      && since == (if old(sawToolCall) then old(since) else old(since) + delta)
      && (fires <==> due && delta != [] && Looping())
      && charsSinceCheck == (if old(sawToolCall) then old(charsSinceCheck)
                             else if due then 0 else old(charsSinceCheck) + |delta|)
    }

    method ObserveThinking(delta: Text) returns (fires: bool)
      requires Valid()
      modifies this`reasoningChars, this`charsSinceCheck, this`carry, this`words, this`chunkSets, this`since
      ensures Valid() && Observed(delta, fires)
      ensures fires ==> old(charsSinceCheck) + |delta| >= 256 && |since| > 4800 && |Words(lang, since)| >= 240
      ensures fires ==> !AllNew(Words(lang, since))
      ensures SaidAgain(Words(lang, since)) && |since| > 4800 && old(charsSinceCheck) + |delta| >= 256
         ==> fires || old(sawToolCall) || delta == []
    {
      hide Looping, Words, Carry, LastChunkSets, AllNew, SaidAgain;
      if sawToolCall || |delta| == 0 {
        assert since + delta == since || sawToolCall;
        return false;
      }
      reasoningChars := reasoningChars + |delta|;
      charsSinceCheck := charsSinceCheck + |delta|;
      IngestWords(delta);
      if charsSinceCheck < CHECK_EVERY_CHARS {
        return false;
      }
      charsSinceCheck := 0;
      fires := IsLooping();
      ReasoningMeasured(this);
    }

    method IngestWords(text: Text)
      requires carry == Carry(lang, since)
      requires var all := Words(lang, since); var full := |all| / CHUNK_WORDS;
               words == all[full * CHUNK_WORDS..] && chunkSets == LastChunkSets(all, full)
      modifies this`carry, this`words, this`chunkSets, this`since
      ensures since == old(since) + text && carry == Carry(lang, since)
      ensures var all := Words(lang, since); var full := |all| / CHUNK_WORDS;
              words == all[full * CHUNK_WORDS..] && chunkSets == LastChunkSets(all, full)
    {
      var added, trailing := SplitWords(lang, carry + text);
      TokensAppend(lang, since, text);
      ghost var before := Words(lang, since);
      ghost var full: nat := |before| / CHUNK_WORDS;
      since := since + text;
      ghost var all := Words(lang, since);
      assert all == before + added;
      words := words + added;
      carry := trailing;
      assert words == all[full * CHUNK_WORDS..];
      LastChunkSetsPrefix(before, added, full);
      while |words| >= CHUNK_WORDS
        invariant full * CHUNK_WORDS <= |all| && words == all[full * CHUNK_WORDS..]
        invariant chunkSets == LastChunkSets(all, full)
        invariant since == old(since) + text && carry == trailing && all == Words(lang, since)
      {
        ChunkStep(all, full);
        var grams := NgramSet(words[..CHUNK_WORDS]);
        words := words[CHUNK_WORDS..];
        chunkSets := chunkSets + [grams];
        if |chunkSets| > 2 {
          chunkSets := chunkSets[1..];
        }
        full := full + 1;
      }
      FullChunks(|all|, full);
    }

    method IsLooping() returns (looping: bool)
      requires Valid()
      ensures looping == Looping()
      ensures looping ==> |since| > 4800 && |Words(lang, since)| >= 240 && !AllNew(Words(lang, since))
      ensures |since| > 4800 && SaidAgain(Words(lang, since)) ==> looping
    {
      hide AllNew, SaidAgain;
      ReasoningMeasured(this);
      if (reasoningChars + CHARS_PER_TOKEN - 1) / CHARS_PER_TOKEN <= REASONING_TOKEN_LIMIT {
        return false;
      }
      if |chunkSets| < 2 {
        return false;
      }
      looping := JaccardAboveThreshold(chunkSets[|chunkSets| - 2], chunkSets[|chunkSets| - 1]);
    }

    /** Settles a finished turn: progress forgets everything, and the streak of turns without it is counted. */
    method FinishTurn(progress: TurnProgress) returns (fires: bool)
      modifies this`noProgressTurns, this`reasoningChars, this`charsSinceCheck, this`words, this`carry, this`chunkSets,
               this`since
      ensures progress.Any() ==> noProgressTurns == 0 && !fires && Forgotten()
      ensures !progress.Any() ==> noProgressTurns == old(noProgressTurns) + 1
      ensures !progress.Any() ==> unchanged(`reasoningChars, `charsSinceCheck, `words, `carry, `chunkSets, `since)
      ensures !progress.Any() ==> fires == (noProgressTurns >= 2)
      ensures old(Valid()) ==> Valid()
    {
      hide Remembers;
      if progress.toolCalls > 0 || progress.replExecutions > 0 || progress.filesChanged > 0
         || progress.commandsExecuted > 0 || progress.newObservationBytes > 0
      {
        noProgressTurns, reasoningChars, charsSinceCheck := 0, 0, 0;
        words, carry, chunkSets, since := [], [], [], [];
        ForgottenIsValid(this);
        return false;
      }
      noProgressTurns := noProgressTurns + 1;
      return noProgressTurns >= NO_PROGRESS_TURN_LIMIT;
    }

    ghost predicate Forgotten()
      reads this
    {
      since == [] && words == [] && carry == [] && chunkSets == [] && reasoningChars == 0 && charsSinceCheck == 0
    }

    /** Climbs the ladder, which never rearms. */
    method Trigger() returns (decision: Decision)
      requires phase <= 2
      modifies this`phase
      ensures decision == LADDER[old(phase)] && phase == Min(old(phase) + 1, 2) && (old(Valid()) ==> Valid())
    {
      if phase == 0 {
        phase := 1;
        return Steer;
      }
      if phase == 1 {
        phase := 2;
        return AbortAndContinue;
      }
      return StopRun;
    }
  }

  /** A guard that has forgotten everything stands for the empty text. */
  lemma ForgottenIsValid(g: ReasoningLoopGuard)
    requires g.Forgotten()
    ensures g.Valid()
  {
    NothingRemembered(g.lang);
  }

  /** One more full chunk: its set joins, and the oldest of three leaves. */
  lemma ChunkStep(all: seq<Text>, full: nat)
    requires (full + 1) * CHUNK_WORDS <= |all|
    ensures var words := all[full * CHUNK_WORDS..];
            words[..CHUNK_WORDS] == Chunk(all, full) && words[CHUNK_WORDS..] == all[(full + 1) * CHUNK_WORDS..]
    ensures var sets := LastChunkSets(all, full) + [Ngrams(Chunk(all, full))];
            LastChunkSets(all, full + 1) == if |sets| > 2 then sets[1..] else sets
  {
  }

  lemma FullChunks(length: nat, full: nat)
    requires full * CHUNK_WORDS <= length < (full + 1) * CHUNK_WORDS
    ensures full == length / CHUNK_WORDS
  {
  }

  lemma LastChunkSetsPrefix(before: seq<Text>, added: seq<Text>, full: nat)
    requires full * CHUNK_WORDS <= |before|
    ensures LastChunkSets(before, full) == LastChunkSets(before + added, full)
  {
    forall c: nat | c < full ensures Chunk(before, c) == Chunk(before + added, c) {
    }
  }
}
