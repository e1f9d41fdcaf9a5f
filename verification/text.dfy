/** The few string operations the service uses, on ASCII letters and ASCII whitespace. */
module Text {

  function LowerChar(c: char): char
  {
    if 'A' <= c <= 'Z' then (c as int + 32) as char else c
  }

  function UpperChar(c: char): char
  {
    if 'a' <= c <= 'z' then (c as int - 32) as char else c
  }

  /** `s.lower()` */
  function Lower(s: string): (r: string)
    ensures |r| == |s|
    ensures forall i :: 0 <= i < |s| ==> r[i] == LowerChar(s[i])
  {
    seq(|s|, i requires 0 <= i < |s| => LowerChar(s[i]))
  }

  /** `s.upper()` */
  function Upper(s: string): (r: string)
    ensures |r| == |s|
    ensures forall i :: 0 <= i < |s| ==> r[i] == UpperChar(s[i])
  {
    seq(|s|, i requires 0 <= i < |s| => UpperChar(s[i]))
  }

  /** `s.startswith(prefix)` */
  predicate StartsWith(s: string, prefix: string)
  {
    |prefix| <= |s| && s[..|prefix|] == prefix
  }

  /** `s.find(part) != -1` */
  predicate Contains(s: string, part: string)
  {
    exists i :: 0 <= i <= |s| && StartsWith(s[i..], part)
  }

  /**
   * The ASCII characters `str.strip()` removes: space, tab, line feed, vertical
   * tab, form feed, carriage return, and the four separators 0x1C to 0x1F.
   */
  predicate IsSpace(c: char)
  {
    c == ' ' || '\t' <= c <= '\r' || 0x1C <= c as int <= 0x1F
  }

  predicate AllSpace(s: string)
  {
    forall i :: 0 <= i < |s| ==> IsSpace(s[i])
  }

  /** Every character of `s` from `lo` up to `hi` is whitespace. */
  predicate SpaceBetween(s: string, lo: int, hi: int)
  {
    forall j :: lo <= j < hi && 0 <= j < |s| ==> IsSpace(s[j])
  }

  /** True when `s` neither starts nor ends with whitespace. */
  predicate Trimmed(s: string)
  {
    s == [] || (!IsSpace(s[0]) && !IsSpace(s[|s| - 1]))
  }

  /** The first position at or after `start` that does not hold whitespace, or `|s|`. */
  function FirstNonSpace(s: string, start: nat): (k: nat)
    requires start <= |s|
    ensures start <= k <= |s| && SpaceBetween(s, start, k)
    ensures k < |s| ==> !IsSpace(s[k])
    decreases |s| - start
  {
    if start == |s| || !IsSpace(s[start]) then start else FirstNonSpace(s, start + 1)
  }

  /** The end of the last character before `stop`, and not before `lo`, that is not whitespace; or `lo`. */
  function LastNonSpaceEnd(s: string, lo: nat, stop: nat): (k: nat)
    requires lo <= stop <= |s|
    ensures lo <= k <= stop && SpaceBetween(s, k, stop)
    ensures lo < k ==> !IsSpace(s[k - 1])
    decreases stop
  {
    if stop == lo || !IsSpace(s[stop - 1]) then stop else LastNonSpaceEnd(s, lo, stop - 1)
  }

  /** `s.strip()`: the longest inner slice of `s` with no whitespace at either end. */
  function Strip(s: string): (r: string)
    ensures Trimmed(r)
    ensures Trimmed(s) ==> r == s
    ensures exists i :: 0 <= i <= |s| - |r| && s[i..i + |r|] == r && SpaceBetween(s, 0, i) && SpaceBetween(s, i + |r|, |s|)
  {
    var lo := FirstNonSpace(s, 0);
    var hi := LastNonSpaceEnd(s, lo, |s|);
    assert s[lo..lo + (hi - lo)] == s[lo..hi];
    s[lo..hi]
  }

  /** Any position with only whitespace before it and none at it is the first non-whitespace position. */
  lemma FirstNonSpaceUnique(s: string, start: nat, k: nat)
    requires start <= k <= |s| && SpaceBetween(s, start, k)
    requires k < |s| ==> !IsSpace(s[k])
    ensures FirstNonSpace(s, start) == k
  {
  }

  lemma LastNonSpaceEndUnique(s: string, lo: nat, stop: nat, k: nat)
    requires lo <= k <= stop <= |s| && SpaceBetween(s, k, stop)
    requires lo < k ==> !IsSpace(s[k - 1])
    ensures LastNonSpaceEnd(s, lo, stop) == k
  {
  }

  /** `strip` removes exactly the whitespace around a trimmed text. */
  lemma StripPadding(pre: string, s: string, post: string)
    requires AllSpace(pre) && AllSpace(post) && Trimmed(s)
    ensures Strip(pre + s + post) == s
  {
    var x := pre + s + post;
    var lo := |pre| + (if s == [] then |post| else 0);
    var hi := |pre| + |s| + (if s == [] then |post| else 0);
    assert forall j :: 0 <= j < |pre| ==> x[j] == pre[j];
    assert forall j :: 0 <= j < |s| ==> x[|pre| + j] == s[j];
    assert forall j :: 0 <= j < |post| ==> x[|pre| + |s| + j] == post[j];
    FirstNonSpaceUnique(x, 0, lo);
    LastNonSpaceEndUnique(x, lo, |x|, hi);
    assert x[lo..hi] == s;
  }
}
