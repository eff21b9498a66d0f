/** Text helpers used by the question dispatcher: ASCII lower-casing and
    substring search, each with an independent characterisation. */
module Text {

  predicate IsUpperAscii(c: char) {
    'A' <= c <= 'Z'
  }

  /** Lower-cases an ASCII capital letter; every other character is kept. */
  function LowerChar(c: char): char {
    if IsUpperAscii(c) then (c as int - 'A' as int + 'a' as int) as char else c
  }

  /** `s.lower()` restricted to ASCII letters. */
  function ToLower(s: string): (r: string)
    ensures |r| == |s|
    ensures forall i :: 0 <= i < |r| ==> !IsUpperAscii(r[i])
    ensures forall i :: 0 <= i < |s| && !IsUpperAscii(s[i]) ==> r[i] == s[i]
    ensures forall i :: 0 <= i < |s| && IsUpperAscii(s[i]) ==> r[i] as int == s[i] as int + 32
  {
    seq(|s|, i requires 0 <= i < |s| => LowerChar(s[i]))
  }

  /** Lower-casing twice is lower-casing once. */
  lemma ToLowerIdempotent(s: string)
    ensures ToLower(ToLower(s)) == ToLower(s)
  {
  }

  /** `pat` occurs in `s` starting at position `i`. */
  ghost predicate OccursAt(s: string, pat: string, i: int) {
    0 <= i && i + |pat| <= |s| && s[i..i + |pat|] == pat
  }

  /** The specification of Python's `pat in s` for strings. */
  ghost predicate HasSubstring(s: string, pat: string) {
    exists i :: OccursAt(s, pat, i)
  }

  /** Substring search by scanning `s` from the left; it decides
      `HasSubstring`, in both directions. */
  function Contains(s: string, pat: string): (found: bool)
    ensures found <==> HasSubstring(s, pat)
    decreases |s|
  {
    if |s| < |pat| then
      assert forall i :: !OccursAt(s, pat, i);
      false
    else if s[..|pat|] == pat then
      assert OccursAt(s, pat, 0);
      true
    else
      OccursAfterFirst(s, pat);
      Contains(s[1..], pat)
  }

  /** When `pat` does not start `s`, it occurs in `s` exactly when it occurs
      in `s` without its first character. */
  lemma OccursAfterFirst(s: string, pat: string)
    requires |pat| <= |s| && s[..|pat|] != pat
    ensures HasSubstring(s, pat) <==> HasSubstring(s[1..], pat)
  {
    var t := s[1..];
    assert !OccursAt(s, pat, 0);
    if HasSubstring(t, pat) {
      var j :| OccursAt(t, pat, j);
      var inS, inT := s[j + 1..j + 1 + |pat|], t[j..j + |pat|];
      assert forall k :: 0 <= k < |pat| ==> inS[k] == inT[k];
      assert inS == inT;
      assert OccursAt(s, pat, j + 1);
    }
    if HasSubstring(s, pat) {
      var i :| OccursAt(s, pat, i);
      assert i >= 1;
      var inS, inT := s[i..i + |pat|], t[i - 1..i - 1 + |pat|];
      assert forall k :: 0 <= k < |pat| ==> inS[k] == inT[k];
      assert inS == inT;
      assert OccursAt(t, pat, i - 1);
    }
  }
}
