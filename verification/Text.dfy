/** Whitespace stripping as Python's str methods do it.

    Which characters count as whitespace is a parameter `ws` of every function here, so
    that what is proved holds for any classification; WHITESPACE is the one in use. */
module Text {

  /** The code points that str.strip() removes. */
  const WHITESPACE: set<char> := {
    '\t', '\n', '\U{0B}', '\U{0C}', '\r', '\U{1C}', '\U{1D}', '\U{1E}', '\U{1F}', ' ', '\U{85}', '\U{A0}',
    '\U{1680}', '\U{2000}', '\U{2001}', '\U{2002}', '\U{2003}', '\U{2004}', '\U{2005}', '\U{2006}', '\U{2007}',
    '\U{2008}', '\U{2009}', '\U{200A}', '\U{2028}', '\U{2029}', '\U{202F}', '\U{205F}', '\U{3000}'}

  predicate Blank(s: string, ws: set<char>) {
    forall i :: 0 <= i < |s| ==> s[i] in ws
  }

  function LeadFrom(s: string, ws: set<char>, i: nat): (n: nat)
    requires i <= |s|
    ensures i <= n <= |s|
    ensures forall k :: i <= k < n ==> s[k] in ws
    ensures n < |s| ==> s[n] !in ws
    decreases |s| - i
  {
    if i < |s| && s[i] in ws then LeadFrom(s, ws, i + 1) else i
  }

  /** Length of the leading whitespace. */
  function Lead(s: string, ws: set<char>): (n: nat)
    ensures n <= |s|
    ensures forall k :: 0 <= k < n ==> s[k] in ws
    ensures n < |s| ==> s[n] !in ws
  {
    LeadFrom(s, ws, 0)
  }

  /** Length of the first n characters without their trailing whitespace. */
  function TrailTo(s: string, ws: set<char>, n: nat): (m: nat)
    requires n <= |s|
    ensures m <= n
    ensures forall k :: m <= k < n ==> s[k] in ws
    ensures m > 0 ==> s[m - 1] !in ws
  {
    if n > 0 && s[n - 1] in ws then TrailTo(s, ws, n - 1) else n
  }

  function LStrip(s: string, ws: set<char>): string {
    s[Lead(s, ws)..]
  }

  function RStrip(s: string, ws: set<char>): string {
    s[..TrailTo(s, ws, |s|)]
  }

  function Strip(s: string, ws: set<char>): string {
    LStrip(RStrip(s, ws), ws)
  }

  /** No whitespace at either end. */
  predicate Trimmed(s: string, ws: set<char>) {
    s == [] || (s[0] !in ws && s[|s| - 1] !in ws)
  }

  /** Strip cuts a window out of s: whitespace before it, whitespace after it. */
  lemma StripWindow(s: string, ws: set<char>) returns (a: nat, b: nat)
    ensures a <= b <= |s| && Strip(s, ws) == s[a..b]
    ensures forall i :: 0 <= i < a || b <= i < |s| ==> s[i] in ws
    ensures a < b ==> s[a] !in ws && s[b - 1] !in ws
  {
    b := TrailTo(s, ws, |s|);
    var head := s[..b];
    a := Lead(head, ws);
    assert forall i :: 0 <= i < b ==> head[i] == s[i];
    assert head[a..] == s[a..b];
  }

  lemma StripTrimmed(s: string, ws: set<char>)
    requires Trimmed(s, ws)
    ensures Strip(s, ws) == s
  {
    var a, b := StripWindow(s, ws);
    if s != [] {
      assert a == 0 && b == |s|;
    }
  }
}
