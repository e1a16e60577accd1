/** Case folding of command arguments (`str.lower()`). */
module Text {

  /** The upper-case letters the model folds: ASCII `A`..`Z` and KELVIN SIGN
      (U+212A), the one non-ASCII character whose lower case is an ASCII
      letter (`k`). */
  predicate IsUpper(c: char)
  {
    'A' <= c <= 'Z' || c == '\U{212A}'
  }

  /** The lower case of one character: an ASCII capital becomes the letter 32
      code points above it, KELVIN SIGN becomes `k`, the rest stay. */
  function LowerChar(c: char): (d: char)
    ensures !IsUpper(d)
    ensures 'A' <= c <= 'Z' ==> d as int == c as int + 32 && 'a' <= d <= 'z'
    ensures c == '\U{212A}' ==> d == 'k'
    ensures !IsUpper(c) ==> d == c
  {
    if 'A' <= c <= 'Z' then (c as int + 32) as char
    else if c == '\U{212A}' then 'k'
    else c
  }

  /** A string with no character that folding would change. */
  predicate IsLower(s: string)
  {
    forall i | 0 <= i < |s| :: !IsUpper(s[i])
  }

  /** `s.lower()`, character by character. */
  function Lower(s: string): (r: string)
    ensures |r| == |s|
    ensures forall i | 0 <= i < |s| :: r[i] == LowerChar(s[i])
    ensures IsLower(r)
    ensures IsLower(s) ==> r == s
  {
    seq(|s|, i requires 0 <= i < |s| => LowerChar(s[i]))
  }

  /** A word of lower-case ASCII letters, such as a command choice. */
  predicate IsAsciiWord(w: string)
  {
    forall i | 0 <= i < |w| :: 'a' <= w[i] <= 'z'
  }

  /** `s` spells `w` with any of its letters capitalised. */
  predicate SpellsAnyCase(s: string, w: string)
  {
    |s| == |w| && forall i | 0 <= i < |s| :: s[i] == w[i] || s[i] as int == w[i] as int - 32
  }

  /** Every capitalisation of a lower-case word folds back to the word. */
  lemma {:induction false} LowerAnyCase(s: string, w: string)
    requires IsAsciiWord(w) && SpellsAnyCase(s, w)
    ensures Lower(s) == w
  {
    forall i | 0 <= i < |s|
      ensures Lower(s)[i] == w[i]
    {
      if s[i] != w[i] {
        assert 'A' <= s[i] <= 'Z';
      }
    }
  }

  /** Folding twice is folding once. */
  lemma LowerIdempotent(s: string)
    ensures Lower(Lower(s)) == Lower(s)
  {
  }
}
