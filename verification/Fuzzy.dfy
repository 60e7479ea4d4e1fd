/** Fuzzy matching of packages/tui/src/fuzzy.ts. Scores are counted in tenths. */
module Fuzzy {
  import opened Std
  import opened Subsequences
  import opened Tokens

  datatype FuzzyMatch = FuzzyMatch(matches: bool, score: int)

  const NO_MATCH := FuzzyMatch(false, 0)

  /** `[\s\-_./:]`, with white space left to `space`. */
  predicate Boundary(space: CodeUnit -> bool, c: CodeUnit) {
    space(c) || c == 0x2d || c == 0x5f || c == 0x2e || c == 0x2f || c == 0x3a
  }

  /** The leftmost places of the query's units in the text, as far as they are found from `i` on. */
  function Greedy(query: Text, text: Text, i: nat): (positions: seq<nat>)
    requires i <= |text|
    ensures |positions| <= |query|
    decreases |text| - i
  {
    if query == [] || i == |text| then []
    else if text[i] == query[0] then [i] + Greedy(query[1..], text, i + 1)
    else Greedy(query, text, i + 1)
  }

  /** The greedy places are an embedding, they are found exactly for subsequences, and no embedding is further left. */
  lemma {:induction false} GreedyIsLeftmost(query: Text, text: Text, i: nat)
    requires i <= |text|
    ensures |Greedy(query, text, i)| == |query| <==> Subsequence(query, text[i..])
    ensures |Greedy(query, text, i)| == |query| ==> Embedding(query, text, i, Greedy(query, text, i))
    decreases |text| - i
  {
    if query != [] && i < |text| {
      assert text[i..][1..] == text[i + 1..];
      if text[i] == query[0] {
        GreedyIsLeftmost(query[1..], text, i + 1);
        GreedyStep(query, text[i..]);
      } else {
        GreedyIsLeftmost(query, text, i + 1);
      }
    }
  }

  lemma {:induction false} NoEmbeddingFurtherLeft(query: Text, text: Text, i: nat, positions: seq<nat>, k: nat)
    requires i <= |text| && Embedding(query, text, i, positions) && k < |query|
    ensures k < |Greedy(query, text, i)| && Greedy(query, text, i)[k] <= positions[k]
    decreases |text| - i
  {
    if text[i] == query[0] {
      if k > 0 {
        assert Embedding(query[1..], text, i + 1, positions[1..]);
        NoEmbeddingFurtherLeft(query[1..], text, i + 1, positions[1..], k - 1);
      }
    } else {
      assert positions[0] != i;
      assert forall j :: 0 < j < |query| ==> positions[0] < positions[j];
      NoEmbeddingFurtherLeft(query, text, i + 1, positions, k);
    }
  }

  /** The `k`-th place, with -1 before the first. */
  function Place(positions: seq<nat>, k: int): int
    requires -1 <= k < |positions|
  {
    if k < 0 then -1 else positions[k]
  }

  /** How many of the last places up to the `k`-th follow one another directly. */
  function Consecutive(positions: seq<nat>, k: nat): nat
    requires k < |positions|
  {
    if Place(positions, k - 1) + 1 == positions[k]
    then (if k == 0 then 1 else Consecutive(positions, k - 1) + 1)
    else 0
  }

  /** What the first `k` places score: runs and word starts are rewarded, gaps and late places penalised. */
  function Score(space: CodeUnit -> bool, text: Text, positions: seq<nat>, k: nat): int
    requires k <= |positions| && forall i :: 0 <= i < |positions| ==> positions[i] < |text|
  {
    if k == 0 then 0
    else
      var at: int := positions[k - 1];
      var last := Place(positions, k - 2);
      Score(space, text, positions, k - 1)
      + (if last == at - 1 then -50 * Consecutive(positions, k - 1) else if last >= 0 then 20 * (at - last - 1) else 0)
      + (if at == 0 || Boundary(space, text[at - 1]) then -100 else 0)
      + at
  }

  /** A place at the start of the text, or behind a blank or one of `- _ . / :`. */
  predicate StartsWord(space: CodeUnit -> bool, text: Text, at: int)
    requires 0 <= at <= |text|
  {
    at == 0 || space(text[at - 1]) || text[at - 1] in [0x2d, 0x5f, 0x2e, 0x2f, 0x3a]
  }

  lemma BoundaryStartsWord(space: CodeUnit -> bool, text: Text, at: int)
    requires 0 <= at <= |text|
    ensures StartsWord(space, text, at) <==> at == 0 || Boundary(space, text[at - 1])
  {
    var c := if at == 0 then 0x2d else text[at - 1];
    assert c in [0x2d, 0x5f, 0x2e, 0x2f, 0x3a] <==> c == 0x2d || c == 0x5f || c == 0x2e || c == 0x2f || c == 0x3a;
  }

  /** The `run` places before the `k`-th and that one follow one another directly, and no more do. */
  ghost predicate RunBefore(positions: seq<nat>, k: nat, run: nat)
    requires run <= k < |positions|
  {
    && (forall j :: k - run <= j <= k ==> positions[j] + (k - j) == positions[k])
    && (run < k ==> positions[k - run - 1] + run + 1 != positions[k])
  }

  lemma {:induction false} RunCounted(positions: seq<nat>, k: nat, run: nat)
    requires run <= k < |positions| && RunBefore(positions, k, run)
    ensures Consecutive(positions, k) == if run == k && positions[0] == 0 then k + 1 else run
  {
    if run > 0 {
      assert positions[k - 1] + 1 == positions[k];
      assert RunBefore(positions, k - 1, run - 1);
      RunCounted(positions, k - 1, run - 1);
    }
  }

  /**
   * What one more place adds: a tenth for every unit before it; ten points less at the start of a word; five less for
   * every place of its run so far, one more if that run opens the text; two more for every unit skipped.
   */
  lemma PlaceScores(space: CodeUnit -> bool, text: Text, positions: seq<nat>, k: nat, run: nat)
    requires run <= k < |positions| && forall i :: 0 <= i < |positions| ==> positions[i] < |text|
    requires RunBefore(positions, k, run)
    ensures var at := positions[k];
            Score(space, text, positions, k + 1) - Score(space, text, positions, k)
            == at - (if StartsWord(space, text, at) then 100 else 0)
               + (if run == k && positions[0] == 0 then -50 * (k + 1)
                  else if run > 0 then -50 * run
                  else if k > 0 then 20 * (at - positions[k - 1] - 1) else 0)
  {
    RunCounted(positions, k, run);
    BoundaryStartsWord(space, text, positions[k]);
    if run > 0 {
      assert positions[k - 1] + 1 == positions[k];
    }
  }

  lemma GreedyInRange(query: Text, text: Text, i: nat)
    requires i <= |text|
    ensures forall k :: 0 <= k < |Greedy(query, text, i)| ==> i <= Greedy(query, text, i)[k] < |text|
    decreases |text| - i
  {
  }

  function MatchOf(space: CodeUnit -> bool, query: Text, text: Text): FuzzyMatch {
    GreedyInRange(query, text, 0);
    var positions := Greedy(query, text, 0);
    if query == [] then FuzzyMatch(true, 0)
    else if |positions| < |query| then NO_MATCH
    else FuzzyMatch(true, Score(space, text, positions, |query|) + (if query == text then -1000 else 0))
  }

  /** A query matches exactly when it is a subsequence of the text, so never when it is longer. */
  lemma MatchOfIffSubsequence(space: CodeUnit -> bool, query: Text, text: Text)
    ensures MatchOf(space, query, text).matches <==> Subsequence(query, text)
    ensures |query| > |text| ==> MatchOf(space, query, text) == NO_MATCH
  {
    GreedyIsLeftmost(query, text, 0);
    assert text[0..] == text;
    if |query| > |text| && Subsequence(query, text) {
      SubsequenceTail(query, text);
    }
  }

  /** The places still to be found, before and after the scan looks at one unit. */
  lemma ScanStep(query: Text, text: Text, positions: seq<nat>, q: nat, i: nat)
    requires i < |text| && q < |query| && q <= |positions|
    requires positions[q..] == Greedy(query[q..], text, i)
    ensures text[i] == query[q] ==> q < |positions| && positions[q] == i
    ensures text[i] == query[q] ==> positions[q + 1..] == Greedy(query[q + 1..], text, i + 1)
    ensures text[i] != query[q] ==> positions[q..] == Greedy(query[q..], text, i + 1)
  {
    if text[i] == query[q] {
      assert positions[q..][0] == i;
      assert positions[q + 1..] == positions[q..][1..];
      assert query[q..][1..] == query[q + 1..];
    }
  }

  /** The left-to-right scan: it matches exactly the subsequences of the text. */
  method MatchQuery(space: CodeUnit -> bool, query: Text, text: Text) returns (m: FuzzyMatch)
    ensures m == MatchOf(space, query, text)
    ensures m.matches <==> Subsequence(query, text)
  {
    MatchOfIffSubsequence(space, query, text);
    if |query| == 0 {
      return FuzzyMatch(true, 0);
    }
    if |query| > |text| {
      return NO_MATCH;
    }
    ghost var positions := Greedy(query, text, 0);
    GreedyInRange(query, text, 0);
    var queryIndex, score, lastMatchIndex, consecutiveMatches := 0, 0, -1, 0;
    var i := 0;
    while i < |text| && queryIndex < |query|
      invariant 0 <= i <= |text| && 0 <= queryIndex <= |query| && queryIndex <= |positions|
      invariant positions[queryIndex..] == Greedy(query[queryIndex..], text, i)
      invariant score == Score(space, text, positions, queryIndex)
      invariant lastMatchIndex == Place(positions, queryIndex - 1)
      invariant consecutiveMatches == if queryIndex == 0 then 0 else Consecutive(positions, queryIndex - 1)
      decreases |text| - i
    {
      ScanStep(query, text, positions, queryIndex, i);
      if text[i] == query[queryIndex] {
        var isWordBoundary := i == 0 || Boundary(space, text[i - 1]);
        if lastMatchIndex == i - 1 {
          consecutiveMatches := consecutiveMatches + 1;
          score := score - consecutiveMatches * 50;
        } else {
          consecutiveMatches := 0;
          if lastMatchIndex >= 0 {
            score := score + (i - lastMatchIndex - 1) * 20;
          }
        }
        if isWordBoundary {
          score := score - 100;
        }
        score := score + i;
        lastMatchIndex := i;
        queryIndex := queryIndex + 1;
      }
      i := i + 1;
    }
    if queryIndex < |query| {
      return NO_MATCH;
    }
    if query == text {
      score := score - 1000;
    }
    return FuzzyMatch(true, score);
  }

  // ------------------------------------------------------------------------------------------
  // An exact match is the best one
  // ------------------------------------------------------------------------------------------

  lemma {:induction false} GreedyOnItself(query: Text, i: nat)
    requires i <= |query|
    ensures Greedy(query[i..], query, i) == seq(|query| - i, k requires 0 <= k < |query| - i => i + k)
    decreases |query| - i
  {
    if i < |query| {
      GreedyOnItself(query, i + 1);
      assert query[i..][1..] == query[i + 1..];
      assert Greedy(query[i..], query, i) == [i] + Greedy(query[i + 1..], query, i + 1);
    }
  }

  lemma {:induction false} RunAtMost(positions: seq<nat>, k: nat)
    requires k < |positions|
    ensures Consecutive(positions, k) <= k + 1
    ensures (forall j :: 0 <= j <= k ==> positions[j] == j) ==> Consecutive(positions, k) == k + 1
  {
    if k > 0 { RunAtMost(positions, k - 1); }
  }

  /** Place by place, no embedding scores below the query's own places in itself. */
  lemma {:induction false} OwnPlacesScoreLeast(space: CodeUnit -> bool, query: Text, text: Text, own: seq<nat>,
                                               positions: seq<nat>, k: nat)
    requires Embedding(query, text, 0, positions) && k <= |query| == |own|
    requires forall j :: 0 <= j < |own| ==> own[j] == j
    ensures Score(space, query, own, k) <= Score(space, text, positions, k)
  {
    hide Consecutive;
    if k > 0 {
      OwnPlacesScoreLeast(space, query, text, own, positions, k - 1);
      RunAtMost(own, k - 1);
      RunAtMost(positions, k - 1);
      PlacesAreLate(query, text, positions, k - 1);
    }
  }

  lemma {:induction false} PlacesAreLate(query: Text, text: Text, positions: seq<nat>, k: nat)
    requires Embedding(query, text, 0, positions) && k < |query|
    ensures k <= positions[k] && (k > 0 ==> positions[k - 1] < positions[k])
  {
    if k > 0 { PlacesAreLate(query, text, positions, k - 1); }
  }

  /** In every other text it is found in, a query scores at least a hundred points worse than in itself. */
  lemma ExactMatchIsBest(space: CodeUnit -> bool, query: Text, text: Text)
    requires query != [] && query != text && Subsequence(query, text)
    ensures MatchOf(space, query, query).matches && MatchOf(space, query, text).matches
    ensures MatchOf(space, query, query).score + 1000 <= MatchOf(space, query, text).score
  {
    GreedyIsLeftmost(query, text, 0);
    assert text[0..] == text && query[0..] == query;
    GreedyOnItself(query, 0);
    var own := Greedy(query, query, 0);
    assert forall j :: 0 <= j < |own| ==> own[j] == j;
    OwnPlacesScoreLeast(space, query, text, own, Greedy(query, text, 0), |query|);
  }

  // ------------------------------------------------------------------------------------------
  // The letter/digit swap
  // ------------------------------------------------------------------------------------------

  predicate Letter(c: int) { 0x61 <= c <= 0x7a }

  /** The query is a run of letters and then a run of digits, or the other way round, cut at `k`. */
  predicate Splits(query: Text, k: int) {
    && 0 < k < |query|
    && ((forall i :: 0 <= i < |query| ==> if i < k then Letter(query[i]) else Digit(query[i]))
        || (forall i :: 0 <= i < |query| ==> if i < k then Digit(query[i]) else Letter(query[i])))
  }

  /** `swapped` is the query with its two runs put the other way round. */
  ghost predicate Swaps(query: Text, swapped: Text) {
    exists k :: Splits(query, k) && swapped == query[k..] + query[..k]
  }

  lemma OneSplit(query: Text, j: int, k: int)
    requires Splits(query, j) && Splits(query, k)
    ensures j == k
  {
    var first, between := query[0], query[Min(j, k)];
    assert Letter(first) || Digit(first);
    assert Letter(between) || Digit(between);
  }

  /** The swapped query, or the empty text when the query is not of either form. */
  function SwapQuery(query: Text, k: nat): Text
    decreases |query| - k
  {
    if k >= |query| then []
    else if Splits(query, k) then query[k..] + query[..k]
    else SwapQuery(query, k + 1)
  }

  lemma {:induction false} SwapQueryFindsSwap(query: Text, k: nat)
    requires 1 <= k && forall j :: 0 < j < k ==> !Splits(query, j)
    ensures SwapQuery(query, k) == [] ==> forall t :: !Swaps(query, t)
    ensures SwapQuery(query, k) != [] ==> forall t :: Swaps(query, t) <==> t == SwapQuery(query, k)
    decreases |query| - k
  {
    if k < |query| && !Splits(query, k) {
      SwapQueryFindsSwap(query, k + 1);
    } else if k < |query| {
      forall j | Splits(query, j) ensures j == k {
        OneSplit(query, j, k);
      }
    }
  }

  /** A query matches directly, or with its letters and digits swapped. */
  ghost predicate Matches(lower: Text -> Text, query: Text, text: Text) {
    || Subsequence(lower(query), lower(text))
    || exists t :: Swaps(lower(query), t) && Subsequence(t, lower(text))
  }

  /** The result of one query against one text; a swapped match costs 5 points. */
  function MatchResult(lower: Text -> Text, space: CodeUnit -> bool, query: Text, text: Text): FuzzyMatch {
    var primary := MatchOf(space, lower(query), lower(text));
    var swapped := SwapQuery(lower(query), 1);
    if primary.matches || swapped == [] then primary
    else
      var second := MatchOf(space, swapped, lower(text));
      if second.matches then FuzzyMatch(true, second.score + 50) else primary
  }

  /** The swap is tried only when the query itself is not found, and costs five points. */
  lemma SwapIsSecond(lower: Text -> Text, space: CodeUnit -> bool, query: Text, text: Text, swapped: Text)
    requires Swaps(lower(query), swapped)
    ensures Subsequence(lower(query), lower(text))
       ==> MatchResult(lower, space, query, text) == MatchOf(space, lower(query), lower(text))
    ensures !Subsequence(lower(query), lower(text)) && Subsequence(swapped, lower(text))
       ==> MatchResult(lower, space, query, text)
           == FuzzyMatch(true, MatchOf(space, swapped, lower(text)).score + 50)
  {
    SwapQueryFindsSwap(lower(query), 1);
    MatchOfIffSubsequence(space, lower(query), lower(text));
    MatchOfIffSubsequence(space, swapped, lower(text));
  }

  method Match(lower: Text -> Text, space: CodeUnit -> bool, query: Text, text: Text) returns (m: FuzzyMatch)
    ensures m == MatchResult(lower, space, query, text)
    ensures m.matches <==> Matches(lower, query, text)
  {
    SwapQueryFindsSwap(lower(query), 1);
    var primary := MatchQuery(space, lower(query), lower(text));
    if primary.matches {
      return primary;
    }
    var swapped := SwapQuery(lower(query), 1);
    if |swapped| == 0 {
      return primary;
    }
    var second := MatchQuery(space, swapped, lower(text));
    if !second.matches {
      return primary;
    }
    return FuzzyMatch(true, second.score + 50);
  }

  // ------------------------------------------------------------------------------------------
  // Filtering
  // ------------------------------------------------------------------------------------------

  datatype Scored<T> = Scored(item: T, score: int)

  /** The white-space separated tokens of a query. */
  function QueryTokens(space: CodeUnit -> bool, query: Text): seq<Text> {
    AllWords(Separated(space), query)
  }

  function Separated(space: CodeUnit -> bool): Language {
    Language((c: CodeUnit) => !space(c), (t: Text) => t, (t: Text) => false)
  }

  ghost predicate AllMatch(lower: Text -> Text, tokens: seq<Text>, text: Text) {
    forall i :: 0 <= i < |tokens| ==> Matches(lower, tokens[i], text)
  }

  predicate Ordered<T>(results: seq<Scored<T>>) {
    forall i, j :: 0 <= i < j < |results| ==> results[i].score <= results[j].score
  }

  /** The results with a given score, in order. */
  function WithScore<T>(results: seq<Scored<T>>, score: int): seq<Scored<T>> {
    if results == [] then []
    else (if results[0].score == score then [results[0]] else []) + WithScore(results[1..], score)
  }

  /** Insertion into an ordered list, before everything that scores as much. */
  function Insert<T>(x: Scored<T>, rest: seq<Scored<T>>): seq<Scored<T>> {
    if rest == [] || x.score <= rest[0].score then [x] + rest else [rest[0]] + Insert(x, rest[1..])
  }

  /** The language's stable sort, by score. */
  function StableSort<T>(results: seq<Scored<T>>): seq<Scored<T>> {
    if results == [] then [] else Insert(results[0], StableSort(results[1..]))
  }

  lemma OrderedCons<T>(x: Scored<T>, rest: seq<Scored<T>>)
    requires Ordered(rest) && (rest != [] ==> x.score <= rest[0].score)
    ensures Ordered([x] + rest)
  {
    assert forall j :: 0 <= j < |rest| ==> rest[0].score <= rest[j].score;
  }

  lemma WithScoreCons<T>(x: Scored<T>, rest: seq<Scored<T>>, score: int)
    ensures WithScore([x] + rest, score) == (if x.score == score then [x] else []) + WithScore(rest, score)
  {
    assert ([x] + rest)[1..] == rest;
  }

  lemma {:induction false} InsertOrders<T>(x: Scored<T>, rest: seq<Scored<T>>)
    requires Ordered(rest)
    ensures Ordered(Insert(x, rest)) && |Insert(x, rest)| == |rest| + 1
    ensures Insert(x, rest)[0].score == if rest == [] then x.score else Min(x.score, rest[0].score)
  {
    if rest == [] || x.score <= rest[0].score {
      OrderedCons(x, rest);
    } else {
      InsertOrders(x, rest[1..]);
      OrderedCons(rest[0], Insert(x, rest[1..]));
    }
  }

  /** Insertion keeps the others in order and goes in front of those that score as much. */
  lemma {:induction false} InsertKeeps<T>(x: Scored<T>, rest: seq<Scored<T>>, score: int)
    ensures WithScore(Insert(x, rest), score) == (if x.score == score then [x] else []) + WithScore(rest, score)
  {
    if rest == [] || x.score <= rest[0].score {
      WithScoreCons(x, rest, score);
    } else {
      var first, others := [rest[0]], WithScore(rest[1..], score);
      WithScoreCons(rest[0], Insert(x, rest[1..]), score);
      InsertKeeps(x, rest[1..], score);
      if rest[0].score == score {
        assert WithScore(Insert(x, rest), score) == first + ([] + others);
        assert WithScore(rest, score) == first + others;
      } else {
        assert [] + others == others;
      }
    }
  }

  /** Sorting orders by score, keeps every result, and keeps the order of results that score alike. */
  lemma {:induction false} StableSortKeeps<T>(results: seq<Scored<T>>, score: int)
    ensures Ordered(StableSort(results)) && |StableSort(results)| == |results|
    ensures WithScore(StableSort(results), score) == WithScore(results, score)
  {
    if results != [] {
      StableSortKeeps(results[1..], score);
      InsertOrders(results[0], StableSort(results[1..]));
      InsertKeeps(results[0], StableSort(results[1..]), score);
    }
  }

  function Items<T>(results: seq<Scored<T>>): seq<T> {
    seq(|results|, i requires 0 <= i < |results| => results[i].item)
  }

  ghost function Filter<T>(items: seq<T>, keep: T -> bool): seq<T> {
    if items == [] then []
    else
      var init, last := items[..|items| - 1], items[|items| - 1];
      Filter(init, keep) + (if keep(last) then [last] else [])
  }

  lemma {:induction false} FilterAll<T>(items: seq<T>, keep: T -> bool)
    requires forall i :: 0 <= i < |items| ==> keep(items[i])
    ensures Filter(items, keep) == items
  {
    if items != [] {
      FilterAll(items[..|items| - 1], keep);
    }
  }

  /** The sum of the scores of the first `n` tokens. */
  function Total(lower: Text -> Text, space: CodeUnit -> bool, tokens: seq<Text>, text: Text, n: nat): int
    requires n <= |tokens|
  {
    if n == 0 then 0
    else Total(lower, space, tokens, text, n - 1) + MatchResult(lower, space, tokens[n - 1], text).score
  }

  /** One more token adds its score, wherever it stands among the others. */
  lemma {:induction false} TokensScoreTogether(lower: Text -> Text, space: CodeUnit -> bool, tokens: seq<Text>,
                                               text: Text, k: nat, n: nat)
    requires k < n <= |tokens|
    ensures Total(lower, space, tokens, text, n)
         == MatchResult(lower, space, tokens[k], text).score
            + Total(lower, space, tokens[..k] + tokens[k + 1..], text, n - 1)
  {
    hide MatchResult;
    var others := tokens[..k] + tokens[k + 1..];
    if n == k + 1 {
      SameTokensTotal(lower, space, tokens, others, text, k);
    } else {
      TokensScoreTogether(lower, space, tokens, text, k, n - 1);
      assert others[n - 2] == tokens[n - 1];
    }
  }

  lemma {:induction false} SameTokensTotal(lower: Text -> Text, space: CodeUnit -> bool, a: seq<Text>, b: seq<Text>,
                                           text: Text, n: nat)
    requires n <= |a| && n <= |b| && forall i :: 0 <= i < n ==> a[i] == b[i]
    ensures Total(lower, space, a, text, n) == Total(lower, space, b, text, n)
  {
    hide MatchResult;
    if n > 0 { SameTokensTotal(lower, space, a, b, text, n - 1); }
  }

  /** Scores one item: the sum over the tokens, or nothing when one of them does not match. */
  method ScoreItem(lower: Text -> Text, space: CodeUnit -> bool, tokens: seq<Text>, text: Text)
    returns (score: Option<int>)
    ensures score.Some? <==> AllMatch(lower, tokens, text)
    ensures score.Some? ==> score.value == Total(lower, space, tokens, text, |tokens|)
  {
    var total := 0;
    for i := 0 to |tokens|
      invariant total == Total(lower, space, tokens, text, i)
      invariant forall j :: 0 <= j < i ==> Matches(lower, tokens[j], text)
    {
      var m := Match(lower, space, tokens[i], text);
      if !m.matches {
        return None;
      }
      total := total + m.score;
    }
    return Some(total);
  }

  /**
   * Filters by all tokens of the query and sorts by score: every item whose tokens all match is there, once per
   * occurrence, and nothing else; `matched` are the results before sorting. A query without tokens keeps every
   * item as it stands.
   */
  method FuzzyFilterScored<T(!new)>(lower: Text -> Text, space: CodeUnit -> bool, items: seq<T>, query: Text,
                                    getText: T -> Text)
    returns (results: seq<Scored<T>>, ghost matched: seq<Scored<T>>)
    ensures Items(matched) == Filter(items, (item: T) => AllMatch(lower, QueryTokens(space, query), getText(item)))
    ensures var tokens := QueryTokens(space, query);
            forall i :: 0 <= i < |matched| ==>
              matched[i].score == Total(lower, space, tokens, getText(matched[i].item), |tokens|)
    ensures Ordered(results) && |results| == |matched|
    ensures forall score :: WithScore(results, score) == WithScore(matched, score)
  {
    var words, trailing := SplitWords(Separated(space), query);
    var tokens := words + (if trailing == [] then [] else [trailing]);
    assert tokens == QueryTokens(space, query);
    ghost var keep := (item: T) => AllMatch(lower, tokens, getText(item));
    if |tokens| == 0 {
      results := seq(|items|, i requires 0 <= i < |items| => Scored(items[i], 0));
      FilterAll(items, keep);
      assert Items(results) == items;
      return results, results;
    }
    var kept: seq<Scored<T>> := [];
    for i := 0 to |items|
      invariant Items(kept) == Filter(items[..i], keep)
      invariant forall k :: 0 <= k < |kept| ==>
                  kept[k].score == Total(lower, space, tokens, getText(kept[k].item), |tokens|)
    {
      assert items[..i + 1][..i] == items[..i];
      var score := ScoreItem(lower, space, tokens, getText(items[i]));
      if score.Some? {
        var next := kept + [Scored(items[i], score.value)];
        assert Items(next) == Items(kept) + [items[i]];
        kept := next;
      }
    }
    assert items[..|items|] == items;
    matched := kept;
    forall score ensures WithScore(StableSort(kept), score) == WithScore(kept, score) {
      StableSortKeeps(kept, score);
    }
    StableSortKeeps(kept, 0);
    results := StableSort(kept);
  }
}
