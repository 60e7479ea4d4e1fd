/** The streaming degeneracy detector of packages/agent/src/degeneracy.ts. */
module Degeneracy {
  import opened Std
  import opened Tokens

  const WINDOW_WORDS: nat := 120
  const NGRAM: nat := 4
  const CHECK_EVERY_WORDS: nat := 20
  const MIN_NGRAM_REPEATS: nat := 7
  const CONSECUTIVE_CHECKS: nat := 2
  const TAIL_CHARS: nat := 4000
  const CHECK_EVERY_CHARS: nat := 128
  const PROBE_CHARS: nat := 32
  const MIN_LOOP_CHARS: nat := 480
  const MIN_LOOP_REPEATS: nat := 4
  const MAX_LOOP_PERIOD: nat := 512
  const MIN_LOOP_TOKENS: nat := 8
  const NEWLINE: CodeUnit := 0x0a

  // ------------------------------------------------------------------------------------------
  // The language gate
  // ------------------------------------------------------------------------------------------

  function StopCount(lang: Language, tokens: seq<Text>): (n: nat)
    ensures n <= |tokens|
  {
    if tokens == [] then 0
    else StopCount(lang, tokens[..|tokens| - 1]) + (if lang.isStop(tokens[|tokens| - 1]) then 1 else 0)
  }

  /** At least 35 per cent of the tokens are stop words; an empty stretch is not language. */
  predicate ReadsAsLanguage(lang: Language, tokens: seq<Text>) {
    tokens != [] && 100 * StopCount(lang, tokens) >= 35 * |tokens|
  }

  method LanguageGate(lang: Language, tokens: seq<Text>) returns (passes: bool)
    ensures passes == ReadsAsLanguage(lang, tokens)
  {
    if |tokens| == 0 {
      return false;
    }
    var stopwords := 0;
    for i := 0 to |tokens|
      invariant stopwords == StopCount(lang, tokens[..i])
    {
      assert tokens[..i + 1][..i] == tokens[..i];
      if lang.isStop(tokens[i]) {
        stopwords := stopwords + 1;
      }
    }
    assert tokens[..|tokens|] == tokens;
    return 100 * stopwords >= 35 * |tokens|;
  }

  // ------------------------------------------------------------------------------------------
  // Verbatim loops
  // ------------------------------------------------------------------------------------------

  /** The last `run` characters of `t` repeat themselves every `p` characters. */
  ghost predicate SuffixPeriod(t: Text, run: nat, p: nat)
    requires run <= |t|
  {
    forall k :: |t| - run + p <= k < |t| ==> t[k] == t[k - p]
  }

  /** The last `n` characters recur `d` characters earlier. */
  ghost predicate ProbeRecurs(t: Text, n: nat, d: nat) {
    n + d <= |t| && t[|t| - n - d..|t| - d] == t[|t| - n..]
  }

  /**
   * The run the detector measures: `p` is the smallest distance at which the 32-character probe recurs, and
   * `run` the longest suffix with period `p`.
   */
  ghost predicate MeasuredRun(t: Text, p: nat, run: nat) {
    && 1 <= p <= run <= |t| && ProbeRecurs(t, PROBE_CHARS, p)
    && (forall d: nat :: 1 <= d < p ==> !ProbeRecurs(t, PROBE_CHARS, d))
    && SuffixPeriod(t, run, p)
    && (run == |t| || t[|t| - run - 1] != t[|t| - run - 1 + p])
  }

  /** The same tokenizer without lower-casing, for text that is lower-cased already. */
  function AsIs(lang: Language): Language {
    lang.(lower := (t: Text) => t)
  }

  /** The words of a stretch, lower-cased as a whole and then split. */
  function RunTokens(lang: Language, t: Text): seq<Text> {
    AllWords(AsIs(lang), lang.lower(t))
  }

  /** What makes a measured run a reportable loop. */
  ghost predicate LoopGates(lang: Language, t: Text, p: nat, run: nat)
    requires p <= run <= |t|
  {
    && |t| >= MIN_LOOP_CHARS + PROBE_CHARS && p <= MAX_LOOP_PERIOD && NEWLINE !in t[|t| - p..]
    && run >= MIN_LOOP_CHARS && run >= p * MIN_LOOP_REPEATS
    && |RunTokens(lang, t[|t| - run..])| >= MIN_LOOP_TOKENS
    && ReadsAsLanguage(lang, RunTokens(lang, t[|t| - run..]))
  }

  datatype Loop = Loop(period: nat, run: nat)

  /** `lastIndexOf(probe, from)` for the probe that is the last `n` characters. */
  method LastIndexOf(t: Text, n: nat, from: nat) returns (previous: int)
    requires n + from < |t|
    ensures -1 <= previous <= from
    ensures previous >= 0 ==> ProbeRecurs(t, n, |t| - n - previous)
    ensures forall d: nat :: |t| - n - from <= d < |t| - n - previous ==> !ProbeRecurs(t, n, d)
  {
    previous := from;
    while previous >= 0 && t[previous..previous + n] != t[|t| - n..]
      invariant -1 <= previous <= from
      invariant forall d: nat :: |t| - n - from <= d < |t| - n - previous ==> !ProbeRecurs(t, n, d)
    {
      assert !ProbeRecurs(t, n, |t| - n - previous);
      previous := previous - 1;
    }
  }

  /** The run of period `period` at the end of `tail`, however far it reaches. */
  method MeasureRun(tail: Text, period: nat) returns (run: nat)
    requires 1 <= period < |tail|
    ensures period <= run <= |tail| && SuffixPeriod(tail, run, period)
    ensures run == |tail| || tail[|tail| - run - 1] != tail[|tail| - run - 1 + period]
  {
    var i := |tail| - 1;
    while i - period >= 0 && tail[i] == tail[i - period]
      invariant period - 1 <= i < |tail|
      invariant forall k :: i < k < |tail| ==> tail[k] == tail[k - period]
    {
      i := i - 1;
    }
    run := |tail| - 1 - i + period;
  }

  /** The verbatim-loop check: it reports the measured run whenever that run passes the gates, and nothing else. */
  method InspectTail(lang: Language, tail: Text) returns (found: Option<Loop>)
    ensures forall loop :: found == Some(loop) <==> Loops(lang, tail, loop)
  {
    if |tail| < MIN_LOOP_CHARS + PROBE_CHARS {
      return None;
    }
    var previous := LastIndexOf(tail, PROBE_CHARS, |tail| - PROBE_CHARS - 1);
    if previous < 0 {
      NothingMeasured(tail);
      return None;
    }
    var period := |tail| - PROBE_CHARS - previous;
    var run := MeasureRun(tail, period);
    OnlyMeasuredLoops(lang, tail, period, run);
    var passes := JudgeRun(lang, tail, period, run);
    return if passes then Some(Loop(period, run)) else None;
  }

  lemma OnlyMeasuredLoops(lang: Language, t: Text, p: nat, run: nat)
    requires MeasuredRun(t, p, run)
    ensures forall loop :: Loops(lang, t, loop) <==> loop == Loop(p, run) && LoopGates(lang, t, p, run)
  {
    forall loop | Loops(lang, t, loop) ensures loop == Loop(p, run) {
      MeasuredRunUnique(t, p, run, loop.period, loop.run);
    }
  }

  lemma NothingMeasured(t: Text)
    requires |t| > PROBE_CHARS && forall d: nat :: 1 <= d < |t| - PROBE_CHARS + 1 ==> !ProbeRecurs(t, PROBE_CHARS, d)
    ensures forall p: nat, run: nat :: !MeasuredRun(t, p, run)
  {
  }

  method JudgeRun(lang: Language, tail: Text, period: nat, run: nat) returns (passes: bool)
    requires 1 <= period <= run <= |tail| && |tail| >= MIN_LOOP_CHARS + PROBE_CHARS
    ensures passes == LoopGates(lang, tail, period, run)
  {
    if period > MAX_LOOP_PERIOD || NEWLINE in tail[|tail| - period..] {
      return false;
    }
    if run < MIN_LOOP_CHARS || run < period * MIN_LOOP_REPEATS {
      return false;
    }
    var tokens, trailing := SplitWords(AsIs(lang), lang.lower(tail[|tail| - run..]));
    if trailing != [] {
      tokens := tokens + [trailing];
    }
    assert tokens == RunTokens(lang, tail[|tail| - run..]);
    if |tokens| < MIN_LOOP_TOKENS {
      return false;
    }
    passes := LanguageGate(lang, tokens);
  }

  lemma MeasuredRunUnique(t: Text, p: nat, run: nat, p': nat, run': nat)
    requires MeasuredRun(t, p, run) && MeasuredRun(t, p', run')
    ensures p == p' && run == run'
  {
  }

  /** A period shorter than the measured one would make the probe recur earlier. */
  lemma ProbeFollowsPeriod(t: Text, run: nat, q: nat)
    requires PROBE_CHARS + q <= run <= |t| && SuffixPeriod(t, run, q)
    ensures ProbeRecurs(t, PROBE_CHARS, q)
  {
  }

  /** The `b`-th block of `p` characters from the end is a copy of the last one. */
  predicate IsCopy(t: Text, p: nat, b: nat) {
    var end := |t| - b * p;
    p <= end <= |t| && t[end - p..end] == t[|t| - p..]
  }

  lemma {:induction false} BlocksAreCopies(t: Text, p: nat, run: nat, b: nat)
    requires 1 <= p <= run <= |t| && SuffixPeriod(t, run, p) && b * p + p <= run
    ensures IsCopy(t, p, b)
    decreases b
  {
    if b > 0 {
      var end := |t| - b * p;
      assert b * p == (b - 1) * p + p;
      BlocksAreCopies(t, p, run, b - 1);
      assert t[end - p..end] == t[end..end + p];
    } else {
      assert b * p == 0;
    }
  }

  lemma QuotientBound(run: nat, p: nat, k: nat)
    requires p >= 1 && run >= p * k
    ensures run / p >= k
  {
    assert run == run / p * p + run % p;
    MulMonotone(run / p + 1, k, p);
  }

  lemma MulMonotone(a: nat, b: nat, p: nat)
    ensures a <= b ==> a * p <= b * p
  {
  }

  lemma WholeBlock(run: nat, p: nat, b: nat)
    requires p >= 1 && b < run / p
    ensures b * p + p <= run
  {
    assert run == run / p * p + run % p;
    MulMonotone(b + 1, run / p, p);
    assert (b + 1) * p == b * p + p;
  }

  /** Every report names the least period of the run, and the run ends in at least four copies of the unit. */
  lemma LoopReportIsLeastPeriod(t: Text, p: nat, run: nat)
    requires MeasuredRun(t, p, run) && run >= MIN_LOOP_CHARS && run >= p * MIN_LOOP_REPEATS
    ensures SuffixPeriod(t, run, p) && forall q: nat :: 1 <= q < p ==> !SuffixPeriod(t, run, q)
    ensures run / p >= MIN_LOOP_REPEATS && forall b: nat :: b < run / p ==> IsCopy(t, p, b)
  {
    forall q: nat | 1 <= q < p ensures !SuffixPeriod(t, run, q) {
      if SuffixPeriod(t, run, q) {
        ProbeFollowsPeriod(t, run, q);
      }
    }
    QuotientBound(run, p, MIN_LOOP_REPEATS);
    forall b: nat | b < run / p ensures IsCopy(t, p, b) {
      WholeBlock(run, p, b);
      BlocksAreCopies(t, p, run, b);
    }
  }

  /** A repetition that ends the text and reaches no further left. */
  ghost predicate MaximalRepetition(t: Text, p: nat, run: nat) {
    && 1 <= p && p + PROBE_CHARS <= run <= |t| && SuffixPeriod(t, run, p)
    && (run == |t| || t[|t| - run - 1] != t[|t| - run - 1 + p])
  }

  /** A repetition is the one measured exactly when its last 32 characters recur no closer than its period. */
  lemma MeasuredIffProbeIsPrimitive(t: Text, p: nat, run: nat)
    requires MaximalRepetition(t, p, run)
    ensures MeasuredRun(t, p, run) <==> forall d: nat :: 1 <= d < p ==> !ProbeRecurs(t, PROBE_CHARS, d)
  {
    ProbeFollowsPeriod(t, run, p);
  }

  /** A repetition that passes the gates is reported exactly when its last 32 characters recur no closer. */
  lemma ReportedIffProbeIsPrimitive(lang: Language, t: Text, p: nat, run: nat)
    requires MaximalRepetition(t, p, run) && LoopGates(lang, t, p, run)
    ensures Loops(lang, t, Loop(p, run)) <==> forall d: nat :: 1 <= d < p ==> !ProbeRecurs(t, PROBE_CHARS, d)
  {
    MeasuredIffProbeIsPrimitive(t, p, run);
  }

  // ------------------------------------------------------------------------------------------
  // Collapsing vocabulary
  // ------------------------------------------------------------------------------------------

  /** How many of the first `n` 4-grams of the window are `gram`. */
  function GramCount(window: seq<Text>, gram: Gram, n: nat): nat
    requires n > 0 ==> n + NGRAM <= |window| + 1
  {
    if n == 0 then 0 else GramCount(window, gram, n - 1) + (if window[n - 1..n - 1 + NGRAM] == gram then 1 else 0)
  }

  /** The distinct 4-grams among the first `n`. */
  function DistinctGrams(window: seq<Text>, n: nat): set<Gram>
    requires n > 0 ==> n + NGRAM <= |window| + 1
  {
    if n == 0 then {} else DistinctGrams(window, n - 1) + {window[n - 1..n - 1 + NGRAM]}
  }

  ghost predicate IsPeak(window: seq<Text>, n: nat, peak: nat)
    requires n > 0 ==> n + NGRAM <= |window| + 1
  {
    && (forall gram :: GramCount(window, gram, n) <= peak)
    && (peak > 0 ==> exists gram :: GramCount(window, gram, n) == peak)
  }

  method CountGrams(window: seq<Text>) returns (distinct: nat, peak: nat)
    requires |window| >= NGRAM
    ensures distinct == |DistinctGrams(window, |window| - NGRAM + 1)|
    ensures IsPeak(window, |window| - NGRAM + 1, peak)
  {
    var counts: map<Gram, nat> := map[];
    peak := 0;
    for i := 0 to |window| - NGRAM + 1
      invariant counts.Keys == DistinctGrams(window, i)
      invariant forall gram :: GramCount(window, gram, i) == if gram in counts then counts[gram] else 0
      invariant IsPeak(window, i, peak)
    {
      var key := window[i..i + NGRAM];
      var seen := (if key in counts then counts[key] else 0) + 1;
      counts := counts[key := seen];
      assert GramCount(window, key, i + 1) == seen;
      if seen > peak {
        peak := seen;
      }
    }
    distinct := |counts.Keys|;
  }

  /** A window that reads as language, has under 80 per cent distinct 4-grams, and one that recurs seven times. */
  ghost predicate Collapsed(lang: Language, window: seq<Text>)
    requires |window| >= NGRAM
  {
    var total := |window| - NGRAM + 1;
    && ReadsAsLanguage(lang, window)
    && 10 * |DistinctGrams(window, total)| < 8 * total
    && exists gram :: GramCount(window, gram, total) >= MIN_NGRAM_REPEATS
  }

  /** The last 120 words are a full window, and it has collapsed. */
  ghost predicate WindowCollapses(lang: Language, words: seq<Text>) {
    |words| >= WINDOW_WORDS && Collapsed(lang, Last(words, WINDOW_WORDS))
  }

  method WindowCollapsed(lang: Language, window: seq<Text>) returns (collapsed: bool)
    requires |window| >= NGRAM
    ensures collapsed == Collapsed(lang, window)
  {
    var passes := LanguageGate(lang, window);
    if !passes {
      return false;
    }
    var total := |window| - NGRAM + 1;
    var distinct, peak := CountGrams(window);
    return 10 * distinct < 8 * total && peak >= MIN_NGRAM_REPEATS;
  }

  // ------------------------------------------------------------------------------------------
  // The two checks in numbers
  // ------------------------------------------------------------------------------------------

  /** The places of the stop words among the first `n` words. */
  ghost function StopPlaces(lang: Language, words: seq<Text>, n: nat): set<nat>
    requires n <= |words|
  {
    set i: nat | i < n && lang.isStop(words[i])
  }

  lemma {:induction false} StopsCounted(lang: Language, words: seq<Text>, n: nat)
    requires n <= |words|
    ensures StopCount(lang, words[..n]) == |StopPlaces(lang, words, n)|
  {
    if n > 0 {
      StopsCounted(lang, words, n - 1);
      assert words[..n][..n - 1] == words[..n - 1];
      assert StopPlaces(lang, words, n)
          == StopPlaces(lang, words, n - 1) + (if lang.isStop(words[n - 1]) then {n - 1} else {});
    }
  }

  /** At least 35 in a hundred of the words are stop words, and there is a word. */
  ghost predicate Prose(lang: Language, words: seq<Text>) {
    |words| >= 1 && 100 * |StopPlaces(lang, words, |words|)| >= 35 * |words|
  }

  lemma ReadsAsProse(lang: Language, words: seq<Text>)
    ensures ReadsAsLanguage(lang, words) <==> Prose(lang, words)
  {
    StopsCounted(lang, words, |words|);
    assert words[..|words|] == words;
  }

  /**
   * The text ends in a run that repeats itself every `p` characters as far back as it goes, at most 512, the last of
   * them without a line break; the run has 480 characters and four times the repeated piece, eight words and the stop
   * words of prose; and its last 32 characters recur no closer. Of a text under 512 characters nothing is said.
   */
  ghost predicate EndsInLoop(lang: Language, t: Text, p: nat, run: nat) {
    && 1 <= p <= 512 && 480 <= run <= |t| && 4 * p <= run && |t| >= 512
    && (forall k :: |t| - run + p <= k < |t| ==> t[k] == t[k - p])
    && (run < |t| ==> t[|t| - run - 1] != t[|t| - run - 1 + p])
    && (forall k :: |t| - p <= k < |t| ==> t[k] != 0x0a)
    && (forall d: nat :: 1 <= d < p ==> !ProbeRecurs(t, 32, d))
    && var words := AllWords(lang.(lower := (w: Text) => w), lang.lower(t[|t| - run..]));
       |words| >= 8 && Prose(lang, words)
  }

  /** That is what the verbatim-loop check reports. */
  lemma LoopsMeasured(lang: Language, t: Text, p: nat, run: nat)
    ensures Loops(lang, t, Loop(p, run)) <==> EndsInLoop(lang, t, p, run)
  {
    hide AllWords, ReadsAsLanguage, Prose;
    if run <= |t| {
      SameTokens(lang, t[|t| - run..]);
      ReadsAsProse(lang, RunTokens(lang, t[|t| - run..]));
    }
    if 1 <= p <= 512 && 480 <= run <= |t| && 4 * p <= run && |t| >= 512 {
      GatesMeasured(lang, t, p, run);
      ProbeMeasured(t, p, run);
    }
  }

  lemma SameTokens(lang: Language, t: Text)
    ensures RunTokens(lang, t) == AllWords(lang.(lower := (w: Text) => w), lang.lower(t))
  {
    hide AllWords;
    SameWords(lang.(lower := (w: Text) => w), AsIs(lang), lang.lower(t));
  }

  /** How a language lower-cases matters only by what it makes of each word. */
  lemma {:induction false} SameWords(x: Language, y: Language, t: Text)
    requires x.isWord == y.isWord && forall w :: x.lower(w) == y.lower(w)
    ensures AllWords(x, t) == AllWords(y, t) && Words(x, t) == Words(y, t) && Carry(x, t) == Carry(y, t)
  {
    if t != [] {
      SameWords(x, y, t[..|t| - 1]);
    }
  }

  lemma GatesMeasured(lang: Language, t: Text, p: nat, run: nat)
    requires 1 <= p <= 512 && 480 <= run <= |t| && 4 * p <= run && |t| >= 512
    ensures LoopGates(lang, t, p, run)
       <==> (forall k :: |t| - p <= k < |t| ==> t[k] != 0x0a)
            && var words := RunTokens(lang, t[|t| - run..]); |words| >= 8 && ReadsAsLanguage(lang, words)
  {
    hide RunTokens, ReadsAsLanguage;
    var unit := t[|t| - p..];
    assert forall k :: |t| - p <= k < |t| ==> t[k] == unit[k - (|t| - p)];
    assert forall i :: 0 <= i < p ==> unit[i] == t[|t| - p + i];
  }

  lemma ProbeMeasured(t: Text, p: nat, run: nat)
    requires 1 <= p && 4 * p <= run <= |t| && 480 <= run
    ensures MeasuredRun(t, p, run)
       <==> (forall k :: |t| - run + p <= k < |t| ==> t[k] == t[k - p])
            && (run < |t| ==> t[|t| - run - 1] != t[|t| - run - 1 + p])
            && (forall d: nat :: 1 <= d < p ==> !ProbeRecurs(t, 32, d))
  {
    if SuffixPeriod(t, run, p) {
      ProbeFollowsPeriod(t, run, p);
    }
  }

  function FourAt(window: seq<Text>, i: nat): Gram
    requires i + 4 <= |window|
  {
    window[i..i + 4]
  }

  /** The places at which four words in a row are `gram`. */
  ghost function GramPlaces(window: seq<Text>, gram: Gram, n: nat): set<nat>
    requires n > 0 ==> n + 4 <= |window| + 1
  {
    set i: nat | i < n && FourAt(window, i) == gram
  }

  ghost function FourWords(window: seq<Text>, n: nat): set<Gram>
    requires n > 0 ==> n + 4 <= |window| + 1
  {
    set i: nat | i < n :: FourAt(window, i)
  }

  lemma PlacesGrow(window: seq<Text>, gram: Gram, n: nat)
    requires n > 0 && n + 4 <= |window| + 1
    ensures |GramPlaces(window, gram, n)|
         == |GramPlaces(window, gram, n - 1)| + (if FourAt(window, n - 1) == gram then 1 else 0)
  {
    hide FourAt;
    var fewer := GramPlaces(window, gram, n - 1);
    if FourAt(window, n - 1) == gram {
      assert GramPlaces(window, gram, n) == fewer + {n - 1};
    } else {
      assert GramPlaces(window, gram, n) == fewer;
    }
  }

  lemma {:induction false} GramsCounted(window: seq<Text>, gram: Gram, n: nat)
    requires n > 0 ==> n + 4 <= |window| + 1
    ensures GramCount(window, gram, n) == |GramPlaces(window, gram, n)|
  {
    if n > 0 {
      GramsCounted(window, gram, n - 1);
      PlacesGrow(window, gram, n);
    }
  }

  lemma {:induction false} GramsListed(window: seq<Text>, n: nat)
    requires n > 0 ==> n + 4 <= |window| + 1
    ensures DistinctGrams(window, n) == FourWords(window, n)
  {
    if n > 0 {
      GramsListed(window, n - 1);
      assert FourWords(window, n) == FourWords(window, n - 1) + {FourAt(window, n - 1)};
    }
  }

  /** The last 120 words read as prose, have less than 94 different runs of four words, and one of them seven times. */
  ghost predicate SaysLittle(lang: Language, words: seq<Text>) {
    |words| >= 120
    && var window := words[|words| - 120..];
       Prose(lang, window) && |FourWords(window, 117)| < 94
       && exists gram :: |GramPlaces(window, gram, 117)| >= 7
  }

  /** That is what the vocabulary check finds collapsed. */
  lemma CollapseMeasured(lang: Language, words: seq<Text>)
    ensures WindowCollapses(lang, words) <==> SaysLittle(lang, words)
  {
    hide ReadsAsLanguage, Prose, GramCount, DistinctGrams, FourWords, GramPlaces;
    if |words| >= 120 {
      var window, n: nat := words[|words| - 120..], 117;
      ReadsAsProse(lang, window);
      GramsListed(window, n);
      forall gram ensures GramCount(window, gram, n) == |GramPlaces(window, gram, n)| {
        GramsCounted(window, gram, n);
      }
    }
  }

  // ------------------------------------------------------------------------------------------
  // The detector
  // ------------------------------------------------------------------------------------------

  /** What the verbatim-loop check looks for. */
  ghost predicate Loops(lang: Language, t: Text, loop: Loop) {
    loop.period <= loop.run <= |t| && MeasuredRun(t, loop.period, loop.run) && LoopGates(lang, t, loop.period, loop.run)
  }

  datatype Report = LoopReport(loop: Loop, chars: nat) | RepetitionReport(chars: nat)

  /** What the detector's fields are when `block` was streamed, and whether an over-long word was flushed from it. */
  ghost predicate Reflects(lang: Language, block: Text, flushed: bool, chars: nat, tail: Text, carry: Text,
                           words: seq<Text>)
  {
    && chars == |block| && tail == Last(block, TAIL_CHARS)
    && |carry| <= TAIL_CHARS && |words| <= 4 * WINDOW_WORDS
    && (!flushed ==> carry == Carry(lang, block)
                     && Last(words, WINDOW_WORDS) == Last(Words(lang, block), WINDOW_WORDS))
  }

  class DegeneracyDetector {
    const lang: Language
    var blockId: int
    var words: seq<Text>
    var carry: Text
    var tail: Text
    var chars: nat
    var sinceWordCheck: nat
    var sinceCharCheck: nat
    var lowStreak: nat
    var reported: bool
    /** All text of the current block, and whether an over-long word was ever flushed from it. */
    ghost var block: Text
    ghost var flushed: bool

    constructor (lang: Language)
      ensures Valid() && fresh(this) && !reported && this.lang == lang && block == [] && !flushed
    {
      this.lang := lang;
      blockId, words, carry, tail, chars := -1, [], [], [], 0;
      sinceWordCheck, sinceCharCheck, lowStreak, reported := 0, 0, 0, false;
      block, flushed := [], false;
    }

    /** The streamed state, bounded in size, is a function of the block's whole text, however it was cut up. */
    ghost predicate Valid()
      reads this
    {
      Reflects(lang, block, flushed, chars, tail, carry, words)
    }

    method ResetBlock()
      modifies this
      ensures Valid() && block == [] && !flushed && lowStreak == 0 && blockId == old(blockId)
      ensures reported == old(reported) && sinceWordCheck == sinceCharCheck == 0
    {
      words, carry, tail, chars := [], [], [], 0;
      sinceWordCheck, sinceCharCheck, lowStreak := 0, 0, 0;
      block, flushed := [], false;
    }

    /** The words that `text` completes after `carried`, an over-long unfinished one included. */
    function Found(carried: Text, text: Text): seq<Text> {
      Words(lang, carried + text)
      + (if |Carry(lang, carried + text)| > TAIL_CHARS then [lang.lower(Carry(lang, carried + text))] else [])
    }

    function Trimmed(all: seq<Text>): seq<Text> {
      if |all| > 4 * WINDOW_WORDS then Last(all, WINDOW_WORDS) else all
    }

    method Ingest(text: Text) returns (added: nat)
      requires |carry| <= TAIL_CHARS && |words| <= 4 * WINDOW_WORDS
      requires !flushed ==> carry == Carry(lang, block)
                            && Last(words, WINDOW_WORDS) == Last(Words(lang, block), WINDOW_WORDS)
      modifies this`words, this`carry, this`block, this`flushed
      ensures block == old(block) + text && |carry| <= TAIL_CHARS && |words| <= 4 * WINDOW_WORDS
      ensures !old(flushed) ==> flushed == (|Carry(lang, block)| > TAIL_CHARS)
      ensures old(flushed) ==> flushed
      ensures !old(flushed) ==> (carry == Carry(lang, block) <==> !flushed)
      ensures !flushed ==> Last(words, WINDOW_WORDS) == Last(Words(lang, block), WINDOW_WORDS)
      ensures !flushed ==> added == |Words(lang, block)| - |Words(lang, old(block))|
      ensures added == |Found(old(carry), text)| && words == Trimmed(old(words) + Found(old(carry), text))
    {
      var found, trailing := SplitWords(lang, carry + text);
      TokensAppend(lang, block, text);
      LastAppend(words, Words(lang, block), found, WINDOW_WORDS);
      block := block + text;
      ghost var before, complete := words, Found(carry, text);
      words := words + found;
      added := |found|;
      if |trailing| > TAIL_CHARS {
        words := words + [lang.lower(trailing)];
        added := added + 1;
        ConcatAssociative(before, found, [lang.lower(trailing)]);
        trailing := [];
        flushed := true;
      } else {
        assert complete == found;
      }
      carry := trailing;
      assert words == before + complete;
      TrimmedKeeps(words);
      if |words| > WINDOW_WORDS * 4 {
        words := Last(words, WINDOW_WORDS);
      }
    }

    lemma TrimmedKeeps(all: seq<Text>)
      ensures Last(Trimmed(all), WINDOW_WORDS) == Last(all, WINDOW_WORDS) && |Trimmed(all)| <= 4 * WINDOW_WORDS
    {
    }

    /** Two collapsed windows in a row make a report. */
    method InspectWindow() returns (report: Option<Report>)
      requires Valid()
      modifies this`lowStreak
      ensures Valid()
      ensures |words| < WINDOW_WORDS ==> lowStreak == old(lowStreak)
      ensures |words| >= WINDOW_WORDS ==> lowStreak == if WindowCollapses(lang, words) then old(lowStreak) + 1 else 0
      ensures report.Some? <==> WindowCollapses(lang, words) && lowStreak >= CONSECUTIVE_CHECKS
      ensures report.Some? ==> report.value.RepetitionReport? && Justified(report.value)
    {
      if |words| < WINDOW_WORDS {
        return None;
      }
      var collapsed := WindowCollapsed(lang, Last(words, WINDOW_WORDS));
      if !collapsed {
        lowStreak := 0;
        return None;
      }
      lowStreak := lowStreak + 1;
      if lowStreak < CONSECUTIVE_CHECKS {
        return None;
      }
      return Some(RepetitionReport(chars));
    }

    /** What a delta of `blockId` finds already there: nothing, when it opens another content block. */
    ghost function Before(blockId: int): Text
      reads this
    {
      if blockId == this.blockId then block else []
    }

    function CarryBefore(blockId: int): Text
      reads this
    {
      if blockId == this.blockId then carry else []
    }

    function WordsBefore(blockId: int): seq<Text>
      reads this
    {
      if blockId == this.blockId then words else []
    }

    /** A counter that starts over with every content block. */
    ghost function SinceBlock(count: nat, blockId: int): nat
      reads this`blockId
    {
      if blockId == this.blockId then count else 0
    }

    method OpenBlock(blockId: int)
      requires Valid()
      modifies this
      ensures Valid() && this.blockId == blockId && reported == old(reported) && block == old(Before(blockId))
      ensures sinceCharCheck == old(SinceBlock(sinceCharCheck, blockId))
      ensures sinceWordCheck == old(SinceBlock(sinceWordCheck, blockId))
      ensures lowStreak == old(SinceBlock(lowStreak, blockId))
      ensures carry == old(CarryBefore(blockId)) && words == old(WordsBefore(blockId))
    {
      if blockId != this.blockId {
        this.blockId := blockId;
        ResetBlock();
      }
    }

    /**
     * What a delta does: the block and its words grow by it, and a report is made exactly when the check for
     * verbatim loops, or else the one for a collapsed vocabulary, is due and finds what it looks for.
     */
    twostate predicate Pushed(blockId: int, text: Text, new report: Option<Report>, found: seq<Text>)
      reads this
    {
      && this.blockId == blockId && reported == report.Some?
      && block == (if old(this.blockId) == blockId then old(block) + text else text)
      && LoopOutcome(report, old(SinceBlock(sinceCharCheck, blockId)) + |text|)
      && (report.Some? ==> Justified(report.value))
      && found == Found(old(CarryBefore(blockId)), text)
      && words == Trimmed(old(WordsBefore(blockId)) + found)
      && WindowOutcome(report, old(SinceBlock(sinceWordCheck, blockId)) + |found|, old(SinceBlock(lowStreak, blockId)))
    }

    /** Feeds one delta of content block `blockId`. After a report the detector stays silent. */
    method Push(blockId: int, text: Text) returns (report: Option<Report>, ghost found: seq<Text>)
      requires Valid()
      modifies this
      ensures Valid()
      ensures if old(reported) || text == [] then report == None && unchanged(this)
              else Pushed(blockId, text, report, found)
      ensures !old(reported) && text != [] && old(this.blockId) != blockId
              ==> !(report.Some? && report.value.RepetitionReport?) && lowStreak <= 1 && sinceCharCheck <= |text|
      ensures !old(reported) && text != [] && !flushed
              ==> |found| == |Words(lang, block)| - |Words(lang, old(Before(blockId)))|
    {
      hide Reflects, LoopOutcome, WindowOutcome, Justified, Found, Trimmed;
      found := [];
      if reported || |text| == 0 {
        return None, found;
      }
      OpenBlock(blockId);
      found := Absorb(text);
      report := Inspect();
      if report.Some? {
        reported := true;
      }
    }

    /** A loop is reported when the check is due and the tail loops; the counter starts over with the check. */
    ghost predicate LoopOutcome(report: Option<Report>, charsDue: int)
      reads this`tail, this`sinceCharCheck
    {
      && ((report.Some? && report.value.LoopReport?) <==> charsDue >= 128 && HasLoop(tail))
      && sinceCharCheck == Rest(charsDue, 128)
    }

    /** Unless a loop was reported, the second collapsed window in a row is, when that check is due. */
    ghost predicate WindowOutcome(report: Option<Report>, wordsDue: int, streak: nat)
      reads this`words, this`lowStreak, this`sinceWordCheck
    {
      var looped := report.Some? && report.value.LoopReport?;
      var due := !looped && wordsDue >= 20;
      && ((report.Some? && report.value.RepetitionReport?)
          <==> due && WindowCollapses(lang, words) && streak + 1 >= 2)
      && sinceWordCheck == (if looped then wordsDue else Rest(wordsDue, 20))
      && lowStreak == (if !due || |words| < 120 then streak
                       else if WindowCollapses(lang, words) then streak + 1 else 0)
    }

    ghost predicate HasLoop(t: Text) {
      exists loop :: Loops(lang, t, loop)
    }

    /** What a report says holds of the state it was made in. */
    ghost predicate Justified(report: Report)
      reads this`block, this`tail, this`words, this`lowStreak
    {
      && report.chars == |block|
      && match report
         case LoopReport(loop, _) => Loops(lang, tail, loop)
         case RepetitionReport(_) =>
           WindowCollapses(lang, words) && lowStreak >= 2
    }

    /** What a counter is left at by a check that is due from `limit` on. */
    function Rest(count: int, limit: nat): int {
      if count >= limit then 0 else count
    }

    method Absorb(text: Text) returns (ghost found: seq<Text>)
      requires Valid()
      modifies this`chars, this`tail, this`sinceCharCheck, this`sinceWordCheck
      modifies this`words, this`carry, this`block, this`flushed
      ensures Valid() && block == old(block) + text && sinceCharCheck == old(sinceCharCheck) + |text|
      ensures found == Found(old(carry), text) && words == Trimmed(old(words) + found)
      ensures sinceWordCheck == old(sinceWordCheck) + |found|
      ensures !flushed ==> |found| == |Words(lang, block)| - |Words(lang, old(block))|
    {
      chars := chars + |text|;
      TailAppend(block, text);
      tail := if |tail| + |text| > TAIL_CHARS then Last(tail + text, TAIL_CHARS) else tail + text;
      sinceCharCheck := sinceCharCheck + |text|;
      found := Found(carry, text);
      var added := Ingest(text);
      sinceWordCheck := sinceWordCheck + added;
    }

    /** The two checks, each when it is due; the vocabulary is not looked at when the tail already loops. */
    method Inspect() returns (report: Option<Report>)
      requires Valid()
      modifies this`sinceCharCheck, this`sinceWordCheck, this`lowStreak
      ensures Valid() && (report.Some? ==> Justified(report.value))
      ensures LoopOutcome(report, old(sinceCharCheck)) && WindowOutcome(report, old(sinceWordCheck), old(lowStreak))
      ensures sinceCharCheck <= old(sinceCharCheck) && lowStreak <= old(lowStreak) + 1
      ensures report.Some? && report.value.RepetitionReport? ==> lowStreak >= 2
    {
      report := None;
      if sinceCharCheck >= CHECK_EVERY_CHARS {
        sinceCharCheck := 0;
        var loop := InspectTail(lang, tail);
        if loop.Some? {
          return Some(LoopReport(loop.value, chars));
        }
      }
      if sinceWordCheck >= CHECK_EVERY_WORDS {
        sinceWordCheck := 0;
        report := InspectWindow();
      }
    }
  }

  lemma LastAppend<T>(x: seq<T>, y: seq<T>, z: seq<T>, n: nat)
    ensures Last(x, n) == Last(y, n) ==> Last(x + z, n) == Last(y + z, n)
  {
    if Last(x, n) == Last(y, n) {
      var a, b := Last(x + z, n), Last(y + z, n);
      if |z| < n {
        assert a == Last(Last(x, n) + z, n) && b == Last(Last(y, n) + z, n);
      }
    }
  }

  lemma TailAppend(block: Text, text: Text)
    ensures Last(Last(block, TAIL_CHARS) + text, TAIL_CHARS) == Last(block + text, TAIL_CHARS)
  {
  }
}
