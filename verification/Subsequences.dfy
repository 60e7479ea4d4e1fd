/** Subsequences of texts: some units kept, in order. */
module Subsequences {
  import opened Std

  /** `sub` keeps some units of `s`, in order. */
  predicate Subsequence(sub: Text, s: Text)
    decreases |s|
  {
    sub == [] || (s != [] && ((sub[0] == s[0] && Subsequence(sub[1..], s[1..])) || Subsequence(sub, s[1..])))
  }

  lemma {:induction false} SubsequenceSkip(sub: Text, s: Text, n: nat)
    requires n <= |s| && Subsequence(sub, s[n..])
    ensures Subsequence(sub, s)
    decreases n
  {
    if n > 0 {
      assert s[n - 1..][1..] == s[n..];
      SubsequenceSkip(sub, s, n - 1);
    } else {
      assert s[0..] == s;
    }
  }

  lemma {:induction false} SubsequenceTransitive(a: Text, b: Text, c: Text)
    requires Subsequence(a, b) && Subsequence(b, c)
    ensures Subsequence(a, c)
    decreases |c|
  {
    if a != [] {
      if b[0] == c[0] && Subsequence(b[1..], c[1..]) {
        if a[0] == b[0] && Subsequence(a[1..], b[1..]) {
          SubsequenceTransitive(a[1..], b[1..], c[1..]);
        } else {
          SubsequenceTransitive(a, b[1..], c[1..]);
        }
      } else {
        SubsequenceTransitive(a, b, c[1..]);
      }
    }
  }

  lemma {:induction false} SubsequenceCons(c: CodeUnit, sub: Text, s: Text)
    requires s != [] && s[0] == c && Subsequence(sub, s[1..])
    ensures Subsequence([c] + sub, s)
  {
    assert ([c] + sub)[1..] == sub;
  }

  lemma {:induction false} SubsequenceTail(sub: Text, s: Text)
    requires sub != [] && Subsequence(sub, s)
    ensures Subsequence(sub[1..], s) && |sub| <= |s|
    decreases |s|
  {
    if Subsequence(sub, s[1..]) {
      SubsequenceTail(sub, s[1..]);
    } else if |sub| > 1 {
      SubsequenceTail(sub[1..], s[1..]);
    }
  }

  /** Taking the first unit that fits loses nothing. */
  lemma GreedyStep(sub: Text, s: Text)
    requires sub != [] && s != [] && sub[0] == s[0]
    ensures Subsequence(sub, s) <==> Subsequence(sub[1..], s[1..])
  {
    if Subsequence(sub, s[1..]) {
      SubsequenceTail(sub, s[1..]);
    }
  }

  /** The positions where the units of `sub` are found in `s`, from `lo` on. */
  ghost predicate Embedding(sub: Text, s: Text, lo: nat, positions: seq<nat>) {
    && |positions| == |sub|
    && (forall k :: 0 <= k < |sub| ==> lo <= positions[k] < |s| && s[positions[k]] == sub[k])
    && (forall i, j :: 0 <= i < j < |sub| ==> positions[i] < positions[j])
  }

  /** An embedding is what makes a subsequence one. */
  lemma {:induction false} EmbeddedIsSubsequence(sub: Text, s: Text, lo: nat, positions: seq<nat>)
    requires lo <= |s| && Embedding(sub, s, lo, positions)
    ensures Subsequence(sub, s[lo..])
    decreases |sub|
  {
    if sub != [] {
      var p := positions[0];
      EmbeddedIsSubsequence(sub[1..], s, p + 1, positions[1..]);
      assert s[p..][1..] == s[p + 1..];
      assert Subsequence(sub, s[p..]);
      assert s[lo..][p - lo..] == s[p..];
      SubsequenceSkip(sub, s[lo..], p - lo);
    }
  }
}
