/** Strings, bytes and the handful of string operations the relay uses. */
module Text {

  /** One octet of a request or response body. */
  newtype byte = x: int | 0 <= x < 256

  /** Python's `s.startswith(prefix)`. */
  predicate StartsWith(s: string, prefix: string) {
    |prefix| <= |s| && s[..|prefix|] == prefix
  }

  /** ASCII lower-casing of one character; header names are ASCII. */
  function LowerChar(c: char): char {
    if 'A' <= c <= 'Z' then (c as int + 32) as char else c
  }

  /** ASCII lower-casing of a whole string: the key header names are compared by. */
  function Lower(s: string): string {
    seq(|s|, i requires 0 <= i < |s| => LowerChar(s[i]))
  }

  /** Lower-casing twice changes nothing more. */
  lemma LowerIdempotent(s: string)
    ensures Lower(Lower(s)) == Lower(s)
  {
  }

  /** A prefix of a longer prefix of `s` is itself a prefix of `s`. */
  lemma StartsWithShorter(s: string, prefix: string, more: string)
    requires StartsWith(s, prefix + more)
    ensures StartsWith(s, prefix)
  {
    assert s[..|prefix|] == (s[..|prefix + more|])[..|prefix|];
  }
}
