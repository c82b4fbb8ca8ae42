/** The string operations the dashboard search uses: JavaScript's
    `String.prototype.trim`, `toLowerCase` and `includes`. */
module Text {
  import Seqs

  /** The characters `trim` removes: ECMAScript WhiteSpace (tab, vertical tab,
      form feed, space, no-break space, byte-order mark and the Unicode space
      separators) and LineTerminator (LF, CR, line and paragraph separator). */
  predicate IsJsSpace(c: char) {
    || c == '\t' || c == '\U{000B}' || c == '\U{000C}' || c == ' '
    || c == '\U{00A0}' || c == '\U{FEFF}' || c == '\U{1680}'
    || ('\U{2000}' <= c <= '\U{200A}')
    || c == '\U{202F}' || c == '\U{205F}' || c == '\U{3000}'
    || c == '\n' || c == '\r' || c == '\U{2028}' || c == '\U{2029}'
  }

  predicate AllSpace(s: string) {
    forall i :: 0 <= i < |s| ==> IsJsSpace(s[i])
  }

  /** The first index at or after `i` that holds no whitespace (or `|s|`). */
  function SkipSpace(s: string, i: nat): (n: nat)
    requires i <= |s|
    ensures i <= n <= |s|
    ensures forall k :: i <= k < n ==> IsJsSpace(s[k])
    ensures n < |s| ==> !IsJsSpace(s[n])
    decreases |s| - i
  {
    if i < |s| && IsJsSpace(s[i]) then SkipSpace(s, i + 1) else i
  }

  /** The end of `s[lo..j]` once its trailing whitespace is dropped. */
  function SkipSpaceBack(s: string, lo: nat, j: nat): (m: nat)
    requires lo <= j <= |s|
    ensures lo <= m <= j
    ensures forall k :: m <= k < j ==> IsJsSpace(s[k])
    ensures m > lo ==> !IsJsSpace(s[m - 1])
    decreases j
  {
    if j > lo && IsJsSpace(s[j - 1]) then SkipSpaceBack(s, lo, j - 1) else j
  }

  /** Where `trim` cuts `s`: it keeps `s[lo..hi]`, everything before `lo` and
      from `hi` on is whitespace, and the kept part neither starts nor ends
      with whitespace. */
  function TrimBounds(s: string): (b: (nat, nat))
    ensures b.0 <= b.1 <= |s|
    ensures forall k :: 0 <= k < b.0 ==> IsJsSpace(s[k])
    ensures forall k :: b.1 <= k < |s| ==> IsJsSpace(s[k])
    ensures b.0 < b.1 ==> !IsJsSpace(s[b.0]) && !IsJsSpace(s[b.1 - 1])
  {
    var lo := SkipSpace(s, 0);
    (lo, SkipSpaceBack(s, lo, |s|))
  }

  /** `String.prototype.trim`. It is empty exactly when `s` is all whitespace. */
  function Trim(s: string): (r: string)
    ensures r == s[TrimBounds(s).0..TrimBounds(s).1]
    ensures r == [] <==> AllSpace(s)
  {
    var (lo, hi) := TrimBounds(s);
    assert lo < hi ==> !IsJsSpace(s[lo]);
    s[lo..hi]
  }

  /** `toLowerCase` on one character; only the ASCII letters are mapped. */
  function LowerChar(c: char): char {
    if 'A' <= c <= 'Z' then (c as int + 32) as char else c
  }

  /** `String.prototype.toLowerCase`, character by character. */
  function Lower(s: string): (r: string)
    ensures |r| == |s|
    ensures forall i :: 0 <= i < |s| ==> r[i] == LowerChar(s[i])
  {
    if s == [] then [] else [LowerChar(s[0])] + Lower(s[1..])
  }

  /** `s` has `sub` as a contiguous piece starting at `i`. */
  predicate OccursAt(s: string, sub: string, i: int) {
    0 <= i && i + |sub| <= |s| && s[i..i + |sub|] == sub
  }

  /** `String.prototype.includes`: scans `s` for an occurrence of `sub`. */
  function Contains(s: string, sub: string): bool
    decreases |s|
  {
    if Seqs.IsPrefix(sub, s) then true
    else if s == [] then false
    else Contains(s[1..], sub)
  }

  /** The scan finds an occurrence exactly when one exists. */
  lemma {:induction false} ContainsIffOccurs(s: string, sub: string)
    ensures Contains(s, sub) <==> exists i :: OccursAt(s, sub, i)
    decreases |s|
  {
    if Seqs.IsPrefix(sub, s) {
      assert OccursAt(s, sub, 0);
    } else if s == [] {
      assert forall i :: !OccursAt(s, sub, i);
    } else {
      ContainsIffOccurs(s[1..], sub);
      forall i | 1 <= i
        ensures OccursAt(s, sub, i) <==> OccursAt(s[1..], sub, i - 1)
      {
        OccursShift(s, sub, i);
      }
      assert !OccursAt(s, sub, 0);
      if Contains(s[1..], sub) {
        var i :| OccursAt(s[1..], sub, i);
        assert OccursAt(s, sub, i + 1);
      }
    }
  }

  /** An occurrence at `i >= 1` in `s` is one at `i - 1` in its tail. */
  lemma OccursShift(s: string, sub: string, i: int)
    requires s != [] && 1 <= i
    ensures OccursAt(s, sub, i) <==> OccursAt(s[1..], sub, i - 1)
  {
    if i + |sub| <= |s| {
      assert s[1..][i - 1..i - 1 + |sub|] == s[i..i + |sub|];
    }
  }
}
