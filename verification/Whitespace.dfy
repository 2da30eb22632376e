/**
 * Python's notion of whitespace: what `\s` matches and `str.strip` removes.
 *
 * Both agree on the same set of code points, which is what lets a stretch of text be trimmed and split independently:
 * once every run of whitespace is a single space and both ends are trimmed, a piece between two spaces needs no
 * trimming of its own, and stripping it is the identity. The set is that of the characters which Unicode calls white
 * space or which are among the separators of the ASCII control range.
 */
module Whitespace {

  predicate IsSpace(c: char) {
    || '\U{0009}' <= c <= '\U{000D}' || '\U{001C}' <= c <= '\U{0020}'
    || c == '\U{0085}' || c == '\U{00A0}' || c == '\U{1680}'
    || '\U{2000}' <= c <= '\U{200A}' || c == '\U{2028}' || c == '\U{2029}'
    || c == '\U{202F}' || c == '\U{205F}' || c == '\U{3000}'
  }

  /** How many whitespace characters start at i. */
  function SpaceRun(s: string, i: nat): (n: nat)
    requires i <= |s|
    ensures i + n <= |s|
    decreases |s| - i
  {
    if i < |s| && IsSpace(s[i]) then 1 + SpaceRun(s, i + 1) else 0
  }

  /** How many whitespace characters end at i. */
  function SpaceRunBefore(s: string, i: nat): (n: nat)
    requires i <= |s|
    ensures n <= i
  {
    if i > 0 && IsSpace(s[i - 1]) then 1 + SpaceRunBefore(s, i - 1) else 0
  }

  function Strip(s: string): string {
    var left := s[SpaceRun(s, 0)..];
    left[..|left| - SpaceRunBefore(left, |left|)]
  }

  lemma {:induction false} SpaceRunIs(s: string, i: nat)
    requires i <= |s|
    ensures var n := SpaceRun(s, i);
      (forall k :: i <= k < i + n ==> IsSpace(s[k])) && (i + n < |s| ==> !IsSpace(s[i + n]))
    decreases |s| - i
  {
    if i < |s| && IsSpace(s[i]) { SpaceRunIs(s, i + 1); }
  }

  lemma {:induction false} SpaceRunBeforeIs(s: string, i: nat)
    requires i <= |s|
    ensures var n := SpaceRunBefore(s, i);
      (forall k :: i - n <= k < i ==> IsSpace(s[k])) && (i - n > 0 ==> !IsSpace(s[i - n - 1]))
  {
    if i > 0 && IsSpace(s[i - 1]) { SpaceRunBeforeIs(s, i - 1); }
  }

  /** Stripping cuts whitespace off both ends and stops at the first and last other character. */
  lemma StripCuts(s: string) returns (lo: nat, hi: nat)
    ensures lo <= hi <= |s| && Strip(s) == s[lo..hi]
    ensures forall k :: 0 <= k < lo || hi <= k < |s| ==> IsSpace(s[k])
    ensures lo < hi ==> !IsSpace(s[lo]) && !IsSpace(s[hi - 1])
  {
    SpaceRunIs(s, 0);
    lo := SpaceRun(s, 0);
    var left := s[lo..];
    SpaceRunBeforeIs(left, |left|);
    hi := |s| - SpaceRunBefore(left, |left|);
    forall k | hi <= k < |s| ensures IsSpace(s[k]) { assert s[k] == left[k - lo]; }
    if lo < hi { assert s[hi - 1] == left[hi - lo - 1]; }
  }

  lemma StripEmptyIff(s: string)
    ensures Strip(s) == "" <==> forall k :: 0 <= k < |s| ==> IsSpace(s[k])
  {
    var lo, hi := StripCuts(s);
  }
}
