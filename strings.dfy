/**
 * The two string primitives the tool protocol relies on, `strings.Index`
 * and `strings.HasPrefix`, over strings as sequences of characters.
 */
module Strings {

  /** `t` occurs in `s` starting at position `i`. */
  predicate OccursAt(s: string, t: string, i: int) {
    0 <= i && i + |t| <= |s| && s[i..i + |t|] == t
  }

  ghost predicate Contains(s: string, t: string) {
    exists i :: OccursAt(s, t, i)
  }

  predicate HasPrefix(s: string, p: string) {
    |p| <= |s| && s[..|p|] == p
  }

  /** First occurrence of `t` in `s` at or after `i`, or -1. */
  function IndexFrom(s: string, t: string, i: nat): (r: int)
    requires i <= |s|
    ensures r == -1 || (i <= r && OccursAt(s, t, r))
    ensures forall j :: i <= j && (r == -1 || j < r) ==> !OccursAt(s, t, j)
    decreases |s| - i
  {
    if i + |t| > |s| then -1
    else if s[i..i + |t|] == t then i
    else IndexFrom(s, t, i + 1)
  }

  /** `strings.Index(s, t)`: the first occurrence of `t` in `s`, or -1 if there is none. */
  function Index(s: string, t: string): (r: int)
    ensures r == -1 <==> !Contains(s, t)
    ensures r != -1 ==> OccursAt(s, t, r) && forall j :: 0 <= j < r ==> !OccursAt(s, t, j)
  {
    IndexFrom(s, t, 0)
  }

  /**
   * A string whose first character appears nowhere else in it cannot overlap
   * itself, so once it is absent from `p`, its first occurrence in `p + t + q`
   * is right after `p`.
   */
  lemma {:induction false} IndexAfter(p: string, t: string, q: string)
    requires |t| > 0 && !Contains(p, t)
    requires forall k :: 0 < k < |t| ==> t[k] != t[0]
    ensures Index(p + t + q, t) == |p|
  {
    var s := p + t + q;
    assert s[|p|..|p| + |t|] == t;
    assert OccursAt(s, t, |p|);
    forall j | 0 <= j < |p|
      ensures !OccursAt(s, t, j)
    {
      if j + |t| <= |p| {
        assert s[j..j + |t|] == p[j..j + |t|];
        assert !OccursAt(p, t, j);
      } else {
        var k := |p| - j;
        assert 0 < k < |t| && s[|p|] == t[0] && t[k] != t[0];
        assert j + k == |p|;
      }
    }
  }
}
