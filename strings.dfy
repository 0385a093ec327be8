/** JavaScript's `String#indexOf` and `String#replace` with a string pattern
    (which replaces the first occurrence only), over `seq<char>`. */
module Strings {
  import opened Wrappers

  /** `pat` starts at index `j` of `s`. */
  predicate OccursAt(s: string, pat: string, j: int) {
    0 <= j && j + |pat| <= |s| && s[j..j + |pat|] == pat
  }

  lemma ShiftOccurrence(s: string, pat: string, j: int)
    requires |s| > 0 && 0 <= j
    ensures OccursAt(s[1..], pat, j) <==> OccursAt(s, pat, j + 1)
  {
    if 0 <= j && j + |pat| <= |s| - 1 {
      assert s[1..][j..j + |pat|] == s[j + 1..j + 1 + |pat|];
    }
  }

  /** `s.indexOf(pat)`: the first index where `pat` occurs, or nothing. */
  function IndexOf(s: string, pat: string): (r: Option<nat>)
    ensures r.Some? ==> OccursAt(s, pat, r.value)
    ensures r.Some? ==> forall j :: 0 <= j < r.value ==> !OccursAt(s, pat, j)
    ensures r.None? ==> forall j :: !OccursAt(s, pat, j)
    decreases |s|
  {
    if |pat| > |s| then None
    else if s[..|pat|] == pat then Some(0)
    else
      var rest := IndexOf(s[1..], pat);
      assert forall j :: 0 <= j ==> (OccursAt(s[1..], pat, j) <==> OccursAt(s, pat, j + 1)) by {
        forall j | 0 <= j ensures OccursAt(s[1..], pat, j) <==> OccursAt(s, pat, j + 1) {
          ShiftOccurrence(s, pat, j);
        }
      }
      assert !OccursAt(s, pat, 0);
      match rest
      case None =>
        assert forall j :: !OccursAt(s, pat, j) by {
          forall j ensures !OccursAt(s, pat, j) {
            if j >= 1 { assert !OccursAt(s[1..], pat, j - 1); }
          }
        }
        None
      case Some(i) =>
        assert forall j :: 0 <= j < i + 1 ==> !OccursAt(s, pat, j) by {
          forall j | 0 <= j < i + 1 ensures !OccursAt(s, pat, j) {
            if j >= 1 { assert !OccursAt(s[1..], pat, j - 1); }
          }
        }
        Some(i + 1)
  }

  /** `s.replace(pat, rep)` for a replacement without `$` (JavaScript expands
      `$&`, `` $` ``, `$'` and `$$` in `rep`; the program's replacements hold
      none): the first occurrence of `pat` becomes `rep`; a string without
      `pat` comes back unchanged. */
  function ReplaceFirst(s: string, pat: string, rep: string): (r: string)
    ensures (forall j :: !OccursAt(s, pat, j)) ==> r == s
    ensures forall i :: OccursAt(s, pat, i) && (forall j :: 0 <= j < i ==> !OccursAt(s, pat, j)) ==>
      r == s[..i] + rep + s[i + |pat|..]
  {
    match IndexOf(s, pat)
    case None => s
    case Some(i) => s[..i] + rep + s[i + |pat|..]
  }

  /** A one-character pattern occurs exactly where that character stands. */
  lemma OccursAtChar(s: string, c: char, j: int)
    ensures OccursAt(s, [c], j) <==> 0 <= j < |s| && s[j] == c
  {
    if 0 <= j < |s| {
      assert s[j..j + 1] == [s[j]];
    }
  }

  /** An occurrence fixes every character it covers. */
  lemma OccursAtIndex(s: string, pat: string, j: int, k: int)
    requires 0 <= k < |pat|
    ensures OccursAt(s, pat, j) ==> s[j + k] == pat[k]
  {
    if OccursAt(s, pat, j) {
      assert s[j..j + |pat|][k] == pat[k];
    }
  }

  /** A character that does not occur is not found. */
  lemma IndexOfAbsentChar(s: string, c: char)
    requires c !in s
    ensures IndexOf(s, [c]) == None
  {
    var r := IndexOf(s, [c]);
    if r.Some? {
      OccursAtChar(s, c, r.value);
      assert false;
    }
  }

  /** The first occurrence of `c` in `a + [c] + b` is right after `a` when `a` lacks `c`. */
  lemma IndexOfFirstChar(a: string, c: char, b: string)
    requires c !in a
    ensures IndexOf(a + [c] + b, [c]) == Some(|a|)
  {
    var s := a + [c] + b;
    OccursAtChar(s, c, |a|);
    var r := IndexOf(s, [c]);
    match r
    case None =>
    case Some(i) =>
      OccursAtChar(s, c, i);
  }
}
