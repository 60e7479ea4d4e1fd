/** Small shared vocabulary: optional values and text as UTF-16 code units. */
module Std {

  datatype Option<+T> = None | Some(value: T)

  /** One UTF-16 code unit, the unit JavaScript strings are indexed by. */
  type CodeUnit = x: int | 0 <= x < 0x1_0000

  type Text = seq<CodeUnit>

  const BACKSLASH: CodeUnit := 0x5c
  const LBRACKET: CodeUnit := 0x5b
  const RBRACKET: CodeUnit := 0x5d

  /** The ASCII digits. */
  predicate Digit(c: int) { 0x30 <= c <= 0x39 }

  /** `s[i]`, with -1 standing for the `undefined` of an index past the end. */
  function At(s: Text, i: nat): int {
    if i < |s| then s[i] else -1
  }

  predicate StartsWith(s: Text, prefix: Text) {
    |prefix| <= |s| && s[..|prefix|] == prefix
  }

  predicate EndsWith(s: Text, suffix: Text) {
    |suffix| <= |s| && s[|s| - |suffix|..] == suffix
  }

  /** The last `n` elements, or everything when there are fewer. */
  function Last<T>(s: seq<T>, n: nat): seq<T> {
    if |s| <= n then s else s[|s| - n..]
  }

  lemma ConcatAssociative<T>(a: seq<T>, b: seq<T>, c: seq<T>)
    ensures (a + b) + c == a + (b + c)
  {
  }

  function Min(a: int, b: int): int {
    if a < b then a else b
  }

  function Max(a: int, b: int): int {
    if a < b then b else a
  }
}
