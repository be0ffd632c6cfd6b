/**
 * The two Python string methods the core relies on: `str.strip()` with no
 * argument (drop leading and trailing whitespace) and `str.lower()`, the latter
 * on ASCII letters only.
 */
module PyText {

  /** Python's whitespace characters (those for which `str.isspace()` holds). */
  predicate IsSpace(c: char)
  {
    || c == ' '
    || '\t' <= c <= '\r'
    || '\U{1C}' <= c <= '\U{1F}'
    || c == '\U{85}' || c == '\U{A0}' || c == '\U{1680}'
    || '\U{2000}' <= c <= '\U{200A}'
    || c == '\U{2028}' || c == '\U{2029}' || c == '\U{202F}' || c == '\U{205F}' || c == '\U{3000}'
  }

  predicate AllSpace(s: string)
  {
    forall k :: 0 <= k < |s| ==> IsSpace(s[k])
  }

  /** No whitespace at either end. */
  predicate Trimmed(s: string)
  {
    s != [] ==> !IsSpace(s[0]) && !IsSpace(s[|s| - 1])
  }

  /** The index of the first non-whitespace character at or after i, or |s| if none. */
  function SkipLeft(s: string, i: nat): (k: nat)
    requires i <= |s|
    ensures i <= k <= |s|
    decreases |s| - i
  {
    if i < |s| && IsSpace(s[i]) then SkipLeft(s, i + 1) else i
  }

  /** The index just past the last non-whitespace character in s[lo..j], or lo if none. */
  function SkipRight(s: string, lo: nat, j: nat): (k: nat)
    requires lo <= j <= |s|
    ensures lo <= k <= j
    decreases j
  {
    if lo < j && IsSpace(s[j - 1]) then SkipRight(s, lo, j - 1) else j
  }

  /** `str.strip()`: drop the leading, then the trailing whitespace. */
  function Strip(s: string): (r: string)
    ensures |r| <= |s|
  {
    var i := SkipLeft(s, 0);
    s[i..SkipRight(s, i, |s|)]
  }

  /** SkipLeft skips whitespace only, and stops at a non-whitespace character or the end. */
  lemma {:induction false} SkipLeftSpec(s: string, i: nat)
    requires i <= |s|
    ensures var k := SkipLeft(s, i);
            && (forall m :: i <= m < k ==> IsSpace(s[m]))
            && (k < |s| ==> !IsSpace(s[k]))
    decreases |s| - i
  {
    if i < |s| && IsSpace(s[i]) {
      SkipLeftSpec(s, i + 1);
    }
  }

  /** SkipRight skips whitespace only, and stops at a non-whitespace character or at lo. */
  lemma {:induction false} SkipRightSpec(s: string, lo: nat, j: nat)
    requires lo <= j <= |s|
    ensures var k := SkipRight(s, lo, j);
            && (forall m :: k <= m < j ==> IsSpace(s[m]))
            && (lo < k ==> !IsSpace(s[k - 1]))
    decreases j
  {
    if lo < j && IsSpace(s[j - 1]) {
      SkipRightSpec(s, lo, j - 1);
    }
  }

  /** Any index with only whitespace before it (from i) and no whitespace at it is SkipLeft's. */
  lemma {:induction false} SkipLeftAt(s: string, i: nat, k: nat)
    requires i <= k <= |s|
    requires forall m :: i <= m < k ==> IsSpace(s[m])
    requires k < |s| ==> !IsSpace(s[k])
    ensures SkipLeft(s, i) == k
    decreases k - i
  {
    if i < k {
      SkipLeftAt(s, i + 1, k);
    }
  }

  /** The mirror image of SkipLeftAt. */
  lemma {:induction false} SkipRightAt(s: string, lo: nat, j: nat, k: nat)
    requires lo <= k <= j <= |s|
    requires forall m :: k <= m < j ==> IsSpace(s[m])
    requires lo < k ==> !IsSpace(s[k - 1])
    ensures SkipRight(s, lo, j) == k
    decreases j - k
  {
    if k < j {
      SkipRightAt(s, lo, j - 1, k);
    }
  }

  /**
   * Strip leaves a piece of s with whitespace only around it and none at its
   * ends, and it is empty exactly when s is all whitespace.
   */
  lemma StripSpec(s: string)
    ensures Trimmed(Strip(s))
    ensures Strip(s) == [] <==> AllSpace(s)
    ensures exists i, j :: 0 <= i <= j <= |s| && Strip(s) == s[i..j] && AllSpace(s[..i]) && AllSpace(s[j..])
  {
    var i := SkipLeft(s, 0);
    var j := SkipRight(s, i, |s|);
    SkipLeftSpec(s, 0);
    SkipRightSpec(s, i, |s|);
    var r := s[i..j];
    assert Strip(s) == r;
    if r != [] {
      assert r[0] == s[i] && r[|r| - 1] == s[j - 1];
    }
    if AllSpace(s) {
      assert i == |s|;
    }
    if r == [] {
      assert i == j;
    }
    assert AllSpace(s[..i]) && AllSpace(s[j..]) by {
      assert forall m :: 0 <= m < i ==> s[..i][m] == s[m];
      assert forall m :: 0 <= m < |s| - j ==> s[j..][m] == s[j + m];
    }
  }

  /**
   * Strip removes exactly the whitespace padding: a string with no whitespace at
   * its ends survives any amount of padding on either side.
   */
  lemma StripPadded(pre: string, core: string, post: string)
    requires AllSpace(pre) && AllSpace(post) && Trimmed(core)
    ensures Strip(pre + core + post) == core
  {
    var s := pre + core + post;
    var i, j := |pre|, |pre| + |core|;
    assert forall m :: 0 <= m < i ==> s[m] == pre[m];
    assert forall m :: j <= m < |s| ==> s[m] == post[m - j];
    if core == [] {
      SkipLeftAt(s, 0, |s|);
      SkipRightAt(s, |s|, |s|, |s|);
    } else {
      assert s[i] == core[0] && s[j - 1] == core[|core| - 1];
      SkipLeftAt(s, 0, i);
      SkipRightAt(s, i, |s|, j);
      assert s[i..j] == core;
    }
  }

  lemma StripIdempotent(s: string)
    ensures Strip(Strip(s)) == Strip(s)
  {
    var r := Strip(s);
    StripSpec(s);
    assert [] + r + [] == r;
    StripPadded([], r, []);
  }

  function LowerChar(c: char): (l: char)
  {
    if 'A' <= c <= 'Z' then (c as int + 32) as char else c
  }

  /** `str.lower()` on ASCII letters; every other character is kept. */
  function Lower(s: string): (r: string)
    ensures |r| == |s|
    ensures forall k :: 0 <= k < |s| ==> r[k] == LowerChar(s[k])
  {
    if s == [] then [] else [LowerChar(s[0])] + Lower(s[1..])
  }

  /** The case-insensitive test for "on" accepts exactly the four spellings. */
  lemma LowerIsOn(s: string)
    ensures Lower(s) == "on" <==> s == "on" || s == "On" || s == "oN" || s == "ON"
  {
    if Lower(s) == "on" {
      assert |s| == 2;
      assert LowerChar(s[0]) == 'o' && LowerChar(s[1]) == 'n';
      assert s == [s[0], s[1]];
    }
  }
}
