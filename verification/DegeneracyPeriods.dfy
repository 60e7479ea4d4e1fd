/**
 * Which repetitions the loop check of packages/agent/src/degeneracy.ts is sure to report: those whose least period is
 * at most one more than the length of its probe. This is the theorem of Fine and Wilf on texts with two periods, and
 * as there the bound is exact: a repetition of the next period can be missed.
 */
module DegeneracyPeriods {
  import opened Std
  import opened Tokens
  import opened Degeneracy
  import opened DegeneracyStutter

  /** `w` repeats itself every `p` units. */
  ghost predicate Period(w: Text, p: nat) {
    forall k :: p <= k < |w| ==> w[k] == w[k - p]
  }

  lemma {:induction false} PeriodMultiple(w: Text, g: nat, a: nat, k: nat)
    requires Period(w, g) && a * g <= k < |w|
    ensures w[k] == w[k - a * g]
    decreases a
  {
    if a == 0 {
      assert a * g == 0;
    } else {
      assert a * g == (a - 1) * g + g;
      PeriodMultiple(w, g, a - 1, k);
      assert w[k - (a - 1) * g] == w[k - (a - 1) * g - g];
    }
  }

  /** A text with two periods has their difference as a period, once the shorter one is cut off. */
  lemma PeriodDifference(w: Text, p: nat, q: nat)
    requires 1 <= q <= p && q <= |w| && Period(w, p) && Period(w, q)
    ensures Period(w[..|w| - q], p - q) && Period(w[..|w| - q], q)
  {
    var u := w[..|w| - q];
    forall k | p - q <= k < |u| ensures u[k] == u[k - (p - q)] {
      assert w[k + q] == w[k] && w[k + q] == w[k + q - p];
    }
  }

  /** And a common divisor of both, found for the shorter text, is one of the whole text. */
  lemma PeriodExtends(w: Text, q: nat, g: nat, b: nat)
    requires 1 <= g && b >= 1 && q == b * g && 2 * q <= |w| + 1 && q < |w|
    requires Period(w, q) && Period(w[..|w| - q], g) && q <= |w| - q
    ensures Period(w, g)
  {
    var u := w[..|w| - q];
    assert q == (b - 1) * g + g;
    forall k | g <= k < |w| ensures w[k] == w[k - g] {
      if k < |u| {
        assert u[k] == u[k - g];
      } else if k - g < |u| {
        PeriodMultiple(u, g, b - 1, k - g);
        assert w[k] == w[k - q] == u[k - q];
      } else {
        assert w[k] == u[k - q] && w[k - g] == u[k - g - q];
      }
    }
  }

  lemma FactorBound(b: nat, g: nat)
    ensures b * g >= 1 ==> b >= 1 && g <= b * g
  {
    if b >= 1 {
      assert b * g == (b - 1) * g + g && (b - 1) * g >= 0;
    } else {
      assert b * g == 0;
    }
  }

  /** Fine and Wilf: a text with periods `p` and `q` and `p + q - 1` units has a common divisor of them as a period. */
  lemma {:induction false} FineWilf(w: Text, p: nat, q: nat) returns (g: nat, a: nat, b: nat)
    requires 1 <= p && 1 <= q && p + q <= |w| + 1 && Period(w, p) && Period(w, q)
    ensures 1 <= g && p == a * g && q == b * g && Period(w, g)
    decreases p + q, q
  {
    if p == q {
      g, a, b := p, 1, 1;
    } else if p < q {
      g, b, a := FineWilf(w, q, p);
    } else {
      PeriodDifference(w, p, q);
      var c;
      g, c, b := FineWilf(w[..|w| - q], p - q, q);
      a := c + b;
      assert a * g == c * g + b * g;
      FactorBound(b, g);
      PeriodExtends(w, q, g, b);
    }
  }

  // ------------------------------------------------------------------------------------------
  // What the probe sees
  // ------------------------------------------------------------------------------------------

  /** A probe that recurs at distance `d` gives the end of the text the period `d`. */
  lemma RecurringProbe(t: Text, d: nat)
    requires ProbeRecurs(t, PROBE_CHARS, d)
    ensures Period(t[|t| - PROBE_CHARS - d..], d)
  {
    var s := t[|t| - PROBE_CHARS - d..];
    forall k | d <= k < |s| ensures s[k] == s[k - d] {
      assert t[|t| - PROBE_CHARS..][k - d] == t[|t| - PROBE_CHARS - d..|t| - d][k - d];
    }
  }

  lemma SuffixAsText(t: Text, n: nat, p: nat)
    requires n <= |t|
    ensures SuffixPeriod(t, n, p) <==> Period(t[|t| - n..], p)
  {
    var s := t[|t| - n..];
    assert forall k :: 0 <= k < n ==> s[k] == t[|t| - n + k];
    if Period(s, p) {
      forall k | |t| - n + p <= k < |t| ensures t[k] == t[k - p] {
        assert s[k - (|t| - n)] == s[k - (|t| - n) - p];
      }
    }
  }

  /** A period of the end of a repetition that divides the repetition's own reaches one unit further left. */
  lemma OneUnitFurther(t: Text, run: nat, p: nat, g: nat, a: nat, n: nat)
    requires 1 <= g && a >= 1 && p == a * g && p <= n < run <= |t|
    requires SuffixPeriod(t, run, p) && SuffixPeriod(t, n, g)
    ensures SuffixPeriod(t, n + 1, g)
  {
    var s, first, q := t[|t| - n..], |t| - n - 1, (a - 1) * g;
    assert p == q + g && q >= 0;
    SuffixAsText(t, n, g);
    assert s[p - 1] == s[g - 1] by {
      PeriodMultiple(s, g, a - 1, p - 1);
    }
    assert t[first] == t[first + p] == s[p - 1] && t[first + g] == s[g - 1];
    forall k | first + g <= k < |t| ensures t[k] == t[k - g] {
    }
  }

  lemma {:induction false} WholeRepetition(t: Text, run: nat, p: nat, g: nat, a: nat, n: nat)
    requires 1 <= g && a >= 1 && p == a * g && p <= n <= run <= |t|
    requires SuffixPeriod(t, run, p) && SuffixPeriod(t, n, g)
    ensures SuffixPeriod(t, run, g)
    decreases run - n
  {
    if n < run {
      OneUnitFurther(t, run, p, g, a, n);
      WholeRepetition(t, run, p, g, a, n + 1);
    }
  }

  /** A probe that recurs closer than a period of at most 33 shortens that period. */
  lemma CloserProbeDivides(t: Text, p: nat, run: nat, d: nat) returns (g: nat)
    requires 1 <= d < p <= PROBE_CHARS + 1 && p + PROBE_CHARS <= run <= |t| && SuffixPeriod(t, run, p)
    requires ProbeRecurs(t, PROBE_CHARS, d)
    ensures 1 <= g <= d && SuffixPeriod(t, run, g)
  {
    var n := PROBE_CHARS + d;
    RecurringProbe(t, d);
    assert SuffixPeriod(t, n, p);
    SuffixAsText(t, n, p);
    var a, b;
    g, a, b := FineWilf(t[|t| - n..], p, d);
    SuffixAsText(t, n, g);
    FactorBound(a, g);
    FactorBound(b, g);
    WholeRepetition(t, run, p, g, a, n);
  }

  /** A repetition that passes the gates and whose least period is at most 33 is always reported. */
  lemma ShortPeriodsAreReported(lang: Language, t: Text, p: nat, run: nat)
    requires MaximalRepetition(t, p, run) && LoopGates(lang, t, p, run)
    requires p <= PROBE_CHARS + 1 && forall q: nat :: 1 <= q < p ==> !SuffixPeriod(t, run, q)
    ensures Loops(lang, t, Loop(p, run))
  {
    forall d: nat | 1 <= d < p ensures !ProbeRecurs(t, PROBE_CHARS, d) {
      if ProbeRecurs(t, PROBE_CHARS, d) {
        var g := CloserProbeDivides(t, p, run, d);
      }
    }
    ReportedIffProbeIsPrimitive(lang, t, p, run);
  }

  // ------------------------------------------------------------------------------------------
  // The bound is exact
  // ------------------------------------------------------------------------------------------

  const LETTER: Text := [0x61]

  /** An `a` among 33 blanks. */
  function Spread(): (t: Text)
    ensures |t| == 34
  {
    [BLANK] + (LETTER + [BLANK]) + Copies([BLANK], 31)
  }

  function Spreads(): (t: Text)
    ensures |t| == 544
  {
    Copies(Spread(), 16)
  }

  lemma {:induction false} Blanks(n: nat)
    ensures forall k :: 0 <= k < n ==> Copies([BLANK], n)[k] == BLANK
  {
    if n > 0 {
      Blanks(n - 1);
    }
  }

  /** A text of 544 units whose last 67 are an `a`, 33 blanks, an `a` and 32 blanks. */
  ghost predicate EndsSpread(t: Text) {
    && |t| == 544 && t[477] == 0x61 && t[511] == 0x61
    && forall k :: 478 <= k < 544 && k != 511 ==> t[k] == BLANK
  }

  lemma SpreadEnds(u: Text, t: Text)
    requires u == Spread() && |t| == 544 && t[510..] == u && t[476..510] == u
    ensures EndsSpread(t)
  {
    Blanks(31);
    assert forall k :: 0 <= k < 34 ==> u[k] == if k == 1 then 0x61 else BLANK;
    assert forall k :: 0 <= k < 34 ==> t[510 + k] == t[510..][k] && t[476 + k] == t[476..510][k];
    assert forall k :: 476 <= k < 510 ==> t[k] == u[k - 476];
    assert forall k :: 510 <= k < 544 ==> t[k] == u[k - 510];
  }

  lemma SpreadMeasured(t: Text, p: nat, run: nat)
    requires EndsSpread(t) && MeasuredRun(t, p, run)
    ensures p == 33 && run <= 65
  {
    assert ProbeRecurs(t, PROBE_CHARS, 33);
    forall d: nat | 1 <= d < 33 ensures !ProbeRecurs(t, PROBE_CHARS, d) {
      assert t[512 - d..544 - d][d - 1] == t[511] && t[512..][d - 1] == t[511 + d];
    }
    assert t[511] != t[478];
  }

  lemma SpreadsRepeat()
    ensures MaximalRepetition(Spreads(), 34, 544) && NEWLINE !in Spreads() && EndsSpread(Spreads())
    ensures forall q: nat :: 1 <= q < 34 ==> !SuffixPeriod(Spreads(), 544, q)
  {
    var u, t, n := Spread(), Spreads(), 14;
    CopiesPeriod(u, 16);
    NoNewline([BLANK], 31);
    NoNewline(u, 16);
    assert Copies(u, n + 2) == Copies(u, n) + u + u;
    SpreadEnds(u, t);
    forall q: nat | 1 <= q < 34 ensures !SuffixPeriod(t, 544, q) {
      assert t[511] != t[511 - q];
    }
  }

  /** `a` is a word in lower case and a stop word; a blank is none. */
  ghost predicate ReadsA(lang: Language) {
    !lang.isWord(BLANK) && lang.lower(Spreads()) == Spreads() && lang.isStop(LETTER) && WordRun(lang, LETTER)
  }

  lemma SpreadWords(lang: Language)
    requires ReadsA(lang)
    ensures StopWords(lang, Spreads(), 16)
  {
    StopWord(lang, LETTER);
    assert StopWords(lang, [BLANK], 0);
    StopWordCopies(lang, [BLANK], 0, 31);
    StopWordsAppend(lang, [BLANK], LETTER + [BLANK], 0, 1);
    StopWordsAppend(lang, [BLANK] + (LETTER + [BLANK]), Copies([BLANK], 31), 1, 0);
    StopWordCopies(lang, Spread(), 1, 16);
  }

  lemma SpreadsPassGates(lang: Language)
    requires ReadsA(lang)
    ensures LoopGates(lang, Spreads(), 34, 544)
  {
    var t := Spreads();
    SpreadsRepeat();
    SpreadWords(lang);
    StopWordsRead(lang, t, 16);
    assert t[|t| - 544..] == t;
  }

  /** A repetition with least period 34 can pass every gate and go unreported. */
  lemma LongerPeriodIsMissed(lang: Language)
    requires ReadsA(lang)
    ensures MaximalRepetition(Spreads(), 34, 544) && LoopGates(lang, Spreads(), 34, 544)
    ensures forall q: nat :: 1 <= q < 34 ==> !SuffixPeriod(Spreads(), 544, q)
    ensures forall loop :: !Loops(lang, Spreads(), loop)
  {
    SpreadsRepeat();
    SpreadsPassGates(lang);
    forall loop | Loops(lang, Spreads(), loop) ensures false {
      SpreadMeasured(Spreads(), loop.period, loop.run);
    }
  }
}
