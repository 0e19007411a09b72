/** Python's substring test `pat in s` on strings. */
module Text {

  /** `pat` occurs in `s` starting at index `i`. */
  predicate OccursAt(s: string, pat: string, i: nat) {
    i + |pat| <= |s| && s[i..i + |pat|] == pat
  }

  /** `pat in s`: scans `s` from the left for a position where `pat` starts. */
  function Contains(s: string, pat: string): (r: bool)
    ensures pat == [] ==> r
    ensures r ==> |pat| <= |s|
    decreases |s|
  {
    if pat <= s then true
    else if s == [] then false
    else Contains(s[1..], pat)
  }

  /** The scan finds `pat` exactly when `pat` occurs somewhere in `s`. */
  lemma {:induction false} ContainsIffOccurs(s: string, pat: string)
    ensures Contains(s, pat) <==> exists i: nat :: OccursAt(s, pat, i)
    decreases |s|
  {
    if pat <= s {
      assert OccursAt(s, pat, 0);
    } else if s == [] {
      forall i: nat ensures !OccursAt(s, pat, i) {
      }
    } else {
      ContainsIffOccurs(s[1..], pat);
      assert !OccursAt(s, pat, 0);
      forall i: nat ensures OccursAt(s, pat, i + 1) <==> OccursAt(s[1..], pat, i) {
        if i + 1 + |pat| <= |s| {
          assert s[i + 1..i + 1 + |pat|] == s[1..][i..i + |pat|];
        }
      }
      if exists i: nat :: OccursAt(s, pat, i) {
        var i: nat :| OccursAt(s, pat, i);
        assert OccursAt(s[1..], pat, i - 1);
      }
      if exists i: nat :: OccursAt(s[1..], pat, i) {
        var i: nat :| OccursAt(s[1..], pat, i);
        assert OccursAt(s, pat, i + 1);
      }
    }
  }
}
