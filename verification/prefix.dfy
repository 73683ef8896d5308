/**
 Prefix matching on strings, as JavaScript's `String.prototype.startsWith`
 does it when no start position is given: an exact comparison of the leading
 characters, with no normalisation of any kind.
 */
module Prefix {

  /** `s.startsWith(p)`: walk both strings one character at a time; the
      query is a prefix when it runs out first and every pair agreed. */
  predicate StartsWith(s: string, p: string)
    decreases p
  {
    if p == [] then true
    else if s == [] then false
    else s[0] == p[0] && StartsWith(s[1..], p[1..])
  }

  /** Reference definition: the first |p| characters of `s` are exactly `p`. */
  predicate IsSlicePrefix(s: string, p: string)
  {
    |p| <= |s| && s[..|p|] == p
  }

  /** The character-by-character and the slice definitions agree. */
  lemma {:induction false} StartsWithIsSlicePrefix(s: string, p: string)
    ensures StartsWith(s, p) <==> IsSlicePrefix(s, p)
    decreases p
  {
    if p == [] {
    } else if s == [] {
    } else {
      StartsWithIsSlicePrefix(s[1..], p[1..]);
      if IsSlicePrefix(s, p) {
        assert s[1..][..|p| - 1] == s[..|p|][1..];
      }
      if StartsWith(s, p) {
        assert s[..|p|] == [s[0]] + s[1..][..|p| - 1];
      }
    }
  }

  /** A string that starts with `q` also starts with every prefix of `q`:
      lengthening a query can only narrow what it matches. */
  lemma {:induction false} StartsWithTransitive(s: string, q: string, p: string)
    requires StartsWith(s, q) && StartsWith(q, p)
    ensures StartsWith(s, p)
    decreases p
  {
    if p != [] {
      StartsWithTransitive(s[1..], q[1..], p[1..]);
    }
  }
}
