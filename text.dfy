/** The JavaScript string operations the script calls: `includes` and
    `replace` with a string pattern (which replaces only the first
    occurrence), and `IndexOf`, the first-occurrence search underneath both. Strings are sequences of UTF-16 code units in the
    browser and sequences of characters here. */
module Text {

  /** `pat` occurs in `s` starting at index `i`. */
  predicate OccursAt(s: string, pat: string, i: int)
  {
    0 <= i && i + |pat| <= |s| && s[i..i + |pat|] == pat
  }

  /** The search underneath `includes` and `replace`: the first index at
      which `pat` occurs, or -1 (what `s.indexOf(pat)` returns). */
  function IndexOf(s: string, pat: string): (r: int)
    ensures -1 <= r <= |s|
    ensures r >= 0 ==> OccursAt(s, pat, r)
    ensures r >= 0 ==> forall j :: 0 <= j < r ==> !OccursAt(s, pat, j)
    ensures r < 0 ==> forall j :: !OccursAt(s, pat, j)
    decreases |s|
  {
    if |pat| > |s| then -1
    else if s[..|pat|] == pat then 0
    else
      var k := IndexOf(s[1..], pat);
      ShiftOccurrence(s, pat);
      if k < 0 then -1 else k + 1
  }

  /** Occurrences in the tail of `s` are the occurrences in `s` one place later. */
  lemma ShiftOccurrence(s: string, pat: string)
    requires |s| > 0
    ensures forall j :: 1 <= j ==> (OccursAt(s, pat, j) <==> OccursAt(s[1..], pat, j - 1))
  {
    forall j | 1 <= j
      ensures OccursAt(s, pat, j) <==> OccursAt(s[1..], pat, j - 1)
    {
      if j + |pat| <= |s| {
        ShiftSlice(s, j, |pat|);
      }
    }
  }

  lemma ShiftSlice(s: string, j: int, n: nat)
    requires 1 <= j && j + n <= |s|
    ensures s[j..j + n] == s[1..][j - 1..j - 1 + n]
  {
    var a, b := s[j..j + n], s[1..][j - 1..j - 1 + n];
    assert |a| == |b|;
    forall k | 0 <= k < n ensures a[k] == b[k] {
      assert a[k] == s[j + k];
      assert b[k] == s[1..][j - 1 + k] == s[j + k];
    }
  }

  /** `s.includes(pat)`. */
  function Includes(s: string, pat: string): (r: bool)
    ensures r <==> exists i :: OccursAt(s, pat, i)
  {
    IndexOf(s, pat) >= 0
  }

  /** `s.replace(pat, rep)` with a string `pat`: only the first occurrence is
      replaced; a string without `pat` is returned unchanged. `rep` is
      inserted literally: the `$` patterns JavaScript expands in a
      replacement string are not modelled (the script only passes ""). */
  function ReplaceFirst(s: string, pat: string, rep: string): (r: string)
    ensures !Includes(s, pat) ==> r == s
    ensures Includes(s, pat) ==>
              exists i :: OccursAt(s, pat, i) && r == s[..i] + rep + s[i + |pat|..]
                          && forall j :: 0 <= j < i ==> !OccursAt(s, pat, j)
  {
    var i := IndexOf(s, pat);
    if i < 0 then s else s[..i] + rep + s[i + |pat|..]
  }

  /** Replacing a prefix removes exactly that prefix, whatever follows it
      (a later occurrence of the pattern is left alone). */
  lemma ReplacePrefix(pat: string, rest: string)
    ensures ReplaceFirst(pat + rest, pat, "") == rest
  {
    assert OccursAt(pat + rest, pat, 0);
    assert IndexOf(pat + rest, pat) == 0;
  }
}
