/** The string comparisons the commands use: ASCII case folding, prefix matching, word splitting. */
module Strings {

  /** `LOWER`: only the letters A to Z fold. */
  function Lower(c: char): char {
    if 'A' <= c <= 'Z' then (c as int + 32) as char else c
  }

  const CAPITALS := "ABCDEFGHIJKLMNOPQRSTUVWXYZ"
  const LETTERS := "abcdefghijklmnopqrstuvwxyz"

  /** Each capital folds to its own small letter, and nothing else folds. */
  lemma LettersFold(c: char)
    ensures if c in CAPITALS then exists i :: 0 <= i < 26 && CAPITALS[i] == c && Lower(c) == LETTERS[i] else Lower(c) == c
  {
    if 'A' <= c <= 'Z' {
      var i := c as int - 'A' as int;
      assert CAPITALS[i] == c && LETTERS[i] == Lower(c);
    } else {
      assert forall i :: 0 <= i < 26 ==> 'A' <= CAPITALS[i] <= 'Z';
    }
  }

  function Fold(s: string): (r: string)
    ensures |r| == |s|
    ensures forall i :: 0 <= i < |s| ==> r[i] == Lower(s[i])
  {
    seq(|s|, i requires 0 <= i < |s| => Lower(s[i]))
  }

  /** True when a is a case-insensitive prefix of b, i.e. when C's `str_prefix(a, b)` returns false. */
  predicate IsPrefix(a: string, b: string) {
    |a| <= |b| && Fold(a) == Fold(b)[..|a|]
  }

  /** True when C's `str_cmp(a, b)` returns 0. */
  predicate SameText(a: string, b: string) {
    Fold(a) == Fold(b)
  }
}
