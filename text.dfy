/** The string operations the reviewer relies on: Python's `str.strip()` with no
    argument, and the truthiness of an `Optional[str]`. */
module Text {
  import opened Wrappers

  /** The characters Python's `str.isspace()` accepts, which are the ones
      `str.strip()` removes when called without an argument. */
  predicate IsSpace(c: char) {
    c in SpaceChars
  }

  /** The 29 code points of that class: the ASCII controls 9-13 and 28-31, the
      space, and the Unicode separators and spacing characters. */
  const SpaceChars: set<char> := {
    '\t', '\n', '\U{0B}', '\U{0C}', '\r', '\U{1C}', '\U{1D}', '\U{1E}', '\U{1F}', ' ',
    '\U{85}', '\U{A0}', '\U{1680}', '\U{2000}', '\U{2001}', '\U{2002}', '\U{2003}',
    '\U{2004}', '\U{2005}', '\U{2006}', '\U{2007}', '\U{2008}', '\U{2009}', '\U{200A}',
    '\U{2028}', '\U{2029}', '\U{202F}', '\U{205F}', '\U{3000}'
  }

  /** Every character of `s` is white space (true of the empty string). */
  predicate AllSpace(s: string) {
    forall k :: 0 <= k < |s| ==> IsSpace(s[k])
  }

  /** `s` is empty or neither begins nor ends with white space. */
  predicate NoSpaceAtEnds(s: string) {
    s == [] || (!IsSpace(s[0]) && !IsSpace(s[|s| - 1]))
  }

  /** Python truthiness of an `Optional[str]`: present and non-empty. */
  predicate Truthy(o: Option<string>) {
    o.Some? && o.value != ""
  }

  /** The first position at or after `i` that does not hold white space, or
      `|s|` when there is none: where `strip` stops scanning from the left. */
  function ContentStart(s: string, i: nat): (n: nat)
    requires i <= |s|
    ensures i <= n <= |s|
    ensures forall k :: i <= k < n ==> IsSpace(s[k])
    ensures n < |s| ==> !IsSpace(s[n])
    decreases |s| - i
  {
    if i < |s| && IsSpace(s[i]) then ContentStart(s, i + 1) else i
  }

  /** The position just after the last character before `e` and not before
      `lo` that is not white space, or `lo` when there is none: where `strip`
      stops scanning from the right. */
  function ContentEnd(s: string, lo: nat, e: nat): (n: nat)
    requires lo <= e <= |s|
    ensures lo <= n <= e
    ensures forall k :: n <= k < e ==> IsSpace(s[k])
    ensures lo < n ==> !IsSpace(s[n - 1])
    decreases e
  {
    if lo < e && IsSpace(s[e - 1]) then ContentEnd(s, lo, e - 1) else e
  }

  /** Python's `s.strip()`: `s` without its leading and trailing white space. */
  function Strip(s: string): (r: string)
    ensures |r| <= |s|
    ensures NoSpaceAtEnds(r)
    ensures r == [] <==> AllSpace(s)
    ensures var i := ContentStart(s, 0);
      i + |r| <= |s| && r == s[i..i + |r|] && AllSpace(s[..i]) && AllSpace(s[i + |r|..])
  {
    var i := ContentStart(s, 0);
    var e := ContentEnd(s, i, |s|);
    assert forall k :: 0 <= k < i ==> s[..i][k] == s[k];
    assert forall k :: 0 <= k < |s| - e ==> s[e..][k] == s[e + k];
    s[i..e]
  }

  /** Stripping is characterised by what it removes: whatever the all-space
      prefix and suffix around a core with no white space at its ends, the
      core is what remains. */
  lemma StripUnique(pre: string, core: string, post: string)
    requires AllSpace(pre) && AllSpace(post) && NoSpaceAtEnds(core)
    ensures Strip(pre + core + post) == core
  {
    var s := pre + core + post;
    assert forall k :: 0 <= k < |pre| ==> s[k] == pre[k];
    assert forall k :: |pre| + |core| <= k < |s| ==> s[k] == post[k - |pre| - |core|];
    if core != [] {
      var b, e := |pre|, |pre| + |core|;
      assert s[b] == core[0] && s[e - 1] == core[|core| - 1];
      // Both scans stop at the ends of `core`.
      assert ContentStart(s, 0) == b;
      assert ContentEnd(s, b, |s|) == e;
      assert s[b..e] == core;
    }
  }

  /** Stripping twice is stripping once. */
  lemma StripIdempotent(s: string)
    ensures Strip(Strip(s)) == Strip(s)
  {
    StripUnique([], Strip(s), []);
    assert [] + Strip(s) + [] == Strip(s);
  }
}
