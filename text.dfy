/**
 * String helpers with Python's meaning: `pat in s`, `s.find(pat)`,
 * `s.startswith(p)`, `s[:n]`, `''.join(...)` and `c * n`.
 */
module Text {

  /** `pat` occurs in `s` starting at index `i`. */
  predicate OccursAt(s: string, pat: string, i: int) {
    0 <= i && i + |pat| <= |s| && s[i..i + |pat|] == pat
  }

  /** `s.find(pat)` restricted to positions `i` and later. */
  function IndexFrom(s: string, pat: string, i: nat): (r: int)
    decreases |s| + 1 - i
    ensures r == -1 || (i <= r && OccursAt(s, pat, r))
    ensures forall k :: i <= k && (r == -1 || k < r) ==> !OccursAt(s, pat, k)
  {
    if i + |pat| > |s| then -1
    else if s[i..i + |pat|] == pat then i
    else IndexFrom(s, pat, i + 1)
  }

  /** Python's `s.find(pat)`: the first index where `pat` occurs, or -1. */
  function IndexOf(s: string, pat: string): (r: int)
    ensures r == -1 || (0 <= r && OccursAt(s, pat, r))
    ensures forall k :: 0 <= k && (r == -1 || k < r) ==> !OccursAt(s, pat, k)
  {
    IndexFrom(s, pat, 0)
  }

  /** Python's `pat in s`. */
  predicate Contains(s: string, pat: string)
    ensures Contains(s, pat) <==> exists k :: OccursAt(s, pat, k)
  {
    IndexOf(s, pat) != -1
  }

  /** If `big` contains `small` at offset `d`, then every occurrence of `big` yields one of `small`. */
  lemma ContainsInner(s: string, big: string, small: string, d: nat)
    requires d + |small| <= |big| && big[d..d + |small|] == small
    requires Contains(s, big)
    ensures Contains(s, small)
  {
    var k :| OccursAt(s, big, k);
    assert s[k..k + |big|] == big;
    forall j | 0 <= j < |small| ensures s[k + d..k + d + |small|][j] == small[j] {
      assert s[k..k + |big|][d + j] == big[d + j];
    }
    assert OccursAt(s, small, k + d);
  }

  /** Python's `s.startswith(p)`. */
  predicate StartsWith(s: string, p: string) {
    |p| <= |s| && s[..|p|] == p
  }

  /** Python's slice `s[:n]` for a non-negative `n`. */
  function Take(s: string, n: nat): string {
    if |s| <= n then s else s[..n]
  }

  /** The concatenation of the pieces in order, as `''.join(pieces)` or repeated `+=`. */
  function Concat(pieces: seq<string>): string {
    if pieces == [] then "" else Concat(pieces[..|pieces| - 1]) + pieces[|pieces| - 1]
  }

  /** Python's `c * n` for a one-character string `c`. */
  function Repeat(c: char, n: nat): (r: string)
    ensures |r| == n && forall i :: 0 <= i < n ==> r[i] == c
  {
    seq(n, _ => c)
  }
}
