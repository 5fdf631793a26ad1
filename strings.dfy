/**
 * The JavaScript string operations the client relies on (`includes` and
 * `trim`), and a one-character `split` that the client does not call but
 * that the model uses to state what a built query string holds.
 */
module Strings {

  /** `s.includes(sub)`: `sub` occurs in `s` at some position. */
  predicate Contains(s: string, sub: string): (b: bool)
    ensures b <==> exists i :: 0 <= i <= |s| && sub <= s[i..]
    decreases |s|
  {
    if sub <= s then
      assert s[0..] == s;
      true
    else if s == [] then false
    else
      var b := Contains(s[1..], sub);
      assert forall i :: 1 <= i <= |s| ==> s[1..][i - 1..] == s[i..];
      b
  }

  /** An occurrence at position `i` is enough. */
  lemma ContainsAt(s: string, sub: string, i: nat)
    requires i <= |s| && sub <= s[i..]
    ensures Contains(s, sub)
  {
  }

  /**
   * The characters `String.prototype.trim` removes: the WhiteSpace and
   * LineTerminator code points of ECMAScript (section 12.2 and 12.3 of
   * ECMA-262), with the Unicode space separators spelled out.
   */
  predicate IsWhiteSpace(c: char) {
    || c == '\t' || c == '\n' || c == '\U{B}' || c == '\U{C}' || c == '\r'
    || c == ' ' || c == '\U{A0}' || c == '\U{1680}'
    || ('\U{2000}' <= c <= '\U{200A}')
    || c == '\U{2028}' || c == '\U{2029}' || c == '\U{202F}' || c == '\U{205F}'
    || c == '\U{3000}' || c == '\U{FEFF}'
  }

  predicate AllWhiteSpace(s: string) {
    forall i :: 0 <= i < |s| ==> IsWhiteSpace(s[i])
  }

  /** The end of the run of white space that starts at `i`. */
  function SkipLeading(s: string, i: nat): (j: nat)
    requires i <= |s|
    ensures i <= j <= |s|
    ensures forall k :: i <= k < j ==> IsWhiteSpace(s[k])
    ensures j == |s| || !IsWhiteSpace(s[j])
    decreases |s| - i
  {
    if i < |s| && IsWhiteSpace(s[i]) then SkipLeading(s, i + 1) else i
  }

  /** The start of the run of white space that ends at `j`, going no lower than `lo`. */
  function SkipTrailing(s: string, lo: nat, j: nat): (i: nat)
    requires lo <= j <= |s|
    ensures lo <= i <= j
    ensures forall k :: i <= k < j ==> IsWhiteSpace(s[k])
    ensures i == lo || !IsWhiteSpace(s[i - 1])
    decreases j
  {
    if j > lo && IsWhiteSpace(s[j - 1]) then SkipTrailing(s, lo, j - 1) else j
  }

  /**
   * `s.trim()`: the infix of `s` left after removing the white space at
   * both ends. Only white space is removed, and the result neither starts
   * nor ends with white space.
   */
  function Trim(s: string): (r: string)
    ensures var lead := SkipLeading(s, 0);
      && lead + |r| <= |s|
      && r == s[lead..lead + |r|]
      && AllWhiteSpace(s[..lead]) && AllWhiteSpace(s[lead + |r|..])
    ensures r == [] || (!IsWhiteSpace(r[0]) && !IsWhiteSpace(r[|r| - 1]))
  {
    var lead := SkipLeading(s, 0);
    var end := SkipTrailing(s, lead, |s|);
    Between(s, lead, end);
    s[lead..end]
  }

  /** The text between two runs of white space is an infix with white space around it. */
  lemma Between(s: string, lead: nat, end: nat)
    requires lead <= end <= |s|
    requires forall k :: 0 <= k < lead ==> IsWhiteSpace(s[k])
    requires forall k :: end <= k < |s| ==> IsWhiteSpace(s[k])
    requires lead == |s| || !IsWhiteSpace(s[lead])
    requires end == lead || !IsWhiteSpace(s[end - 1])
    ensures AllWhiteSpace(s[..lead]) && AllWhiteSpace(s[end..])
    ensures var r := s[lead..end]; r == [] || (!IsWhiteSpace(r[0]) && !IsWhiteSpace(r[|r| - 1]))
  {
    assert forall k :: 0 <= k < |s[end..]| ==> s[end..][k] == s[end + k];
  }

  /** White space around a string that has none at its ends is exactly what trim removes. */
  lemma TrimPadded(pre: string, t: string, post: string)
    requires AllWhiteSpace(pre) && AllWhiteSpace(post)
    requires t == [] || (!IsWhiteSpace(t[0]) && !IsWhiteSpace(t[|t| - 1]))
    ensures Trim(pre + t + post) == t
  {
    var s := pre + t + post;
    assert forall k :: 0 <= k < |pre| ==> s[k] == pre[k];
    assert forall k :: |pre| + |t| <= k < |s| ==> s[k] == post[k - |pre| - |t|];
    var lead := SkipLeading(s, 0);
    if t == [] {
      assert lead == |s|;
    } else {
      assert s[|pre|] == t[0] && s[|pre| + |t| - 1] == t[|t| - 1];
      assert lead == |pre|;
      assert SkipTrailing(s, lead, |s|) == |pre| + |t|;
      assert s[|pre|..|pre| + |t|] == t;
    }
  }

  /** The index of the first `sep` in `s`, when there is one. */
  function IndexOf(s: string, sep: char): (i: nat)
    requires sep in s
    ensures i < |s| && s[i] == sep && sep !in s[..i]
  {
    if s[0] == sep then 0 else 1 + IndexOf(s[1..], sep)
  }

  /** `s.split(sep)` for a one-character separator. */
  function Split(s: string, sep: char): (parts: seq<string>)
    ensures |parts| > 0
    ensures forall i :: 0 <= i < |parts| ==> sep !in parts[i]
    decreases |s|
  {
    if sep !in s then [s]
    else
      var i := IndexOf(s, sep);
      [s[..i]] + Split(s[i + 1..], sep)
  }

  /** Splitting after a separator-free first part yields that part first. */
  lemma SplitFirst(a: string, sep: char, b: string)
    requires sep !in a
    ensures Split(a + [sep] + b, sep) == [a] + Split(b, sep)
  {
    var s := a + [sep] + b;
    assert s[|a|] == sep;
    var i := IndexOf(s, sep);
    assert s[..i] == a;
    assert s[i + 1..] == b;
  }
}
