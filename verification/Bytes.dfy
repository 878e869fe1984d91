/** Byte strings and the few library operations on them that the router relies on.
    A byte is held in one `char`, so a literal such as "data:" is the bytes of that text. */
module Bytes {
  type Bytes = string

  // ----- white space (Unicode, in UTF-8 form, as bytes.TrimSpace sees it) -----

  predicate IsAsciiSpace(c: char) {
    c == '\t' || c == '\n' || c == '\U{000B}' || c == '\U{000C}' || c == '\r' || c == ' '
  }

  /** U+0085 and U+00A0. */
  predicate IsSpacePair(a: char, b: char) {
    a == '\U{00C2}' && (b == '\U{0085}' || b == '\U{00A0}')
  }

  /** U+1680, U+2000 to U+200A, U+2028, U+2029, U+202F, U+205F and U+3000. */
  predicate IsSpaceTriple(a: char, b: char, c: char) {
    || (a == '\U{00E1}' && b == '\U{009A}' && c == '\U{0080}')
    || (a == '\U{00E2}' && b == '\U{0080}'
        && ('\U{0080}' <= c <= '\U{008A}' || c == '\U{00A8}' || c == '\U{00A9}' || c == '\U{00AF}'))
    || (a == '\U{00E2}' && b == '\U{0081}' && c == '\U{009F}')
    || (a == '\U{00E3}' && b == '\U{0080}' && c == '\U{0080}')
  }

  /** Width of the white-space rune `s` starts with, 0 when it starts with none. */
  function SpaceAtStart(s: Bytes): (n: nat)
    ensures n <= |s|
  {
    if |s| >= 1 && IsAsciiSpace(s[0]) then 1
    else if |s| >= 2 && IsSpacePair(s[0], s[1]) then 2
    else if |s| >= 3 && IsSpaceTriple(s[0], s[1], s[2]) then 3
    else 0
  }

  /** Width of the white-space rune `s` ends with, 0 when it ends with none. */
  function SpaceAtEnd(s: Bytes): (n: nat)
    ensures n <= |s|
  {
    var k := |s|;
    if k >= 1 && IsAsciiSpace(s[k - 1]) then 1
    else if k >= 2 && IsSpacePair(s[k - 2], s[k - 1]) then 2
    else if k >= 3 && IsSpaceTriple(s[k - 3], s[k - 2], s[k - 1]) then 3
    else 0
  }

  predicate Trimmed(s: Bytes) {
    SpaceAtStart(s) == 0 && SpaceAtEnd(s) == 0
  }

  function TrimLeft(s: Bytes): (t: Bytes)
    ensures |t| <= |s| && t == s[|s| - |t|..] && SpaceAtStart(t) == 0
  {
    var n := SpaceAtStart(s);
    if n == 0 then s else TrimLeft(s[n..])
  }

  function TrimEnd(s: Bytes): (t: Bytes)
    ensures |t| <= |s| && t == s[..|t|] && SpaceAtEnd(t) == 0
  {
    var n := SpaceAtEnd(s);
    if n == 0 then s else TrimEnd(s[..|s| - n])
  }

  /** bytes.TrimSpace and strings.TrimSpace. The code tells nil from empty after it; the library
      returns nil exactly when nothing is left, so the empty sequence stands for nil. */
  function TrimSpace(s: Bytes): (t: Bytes)
    ensures |t| <= |s| && Trimmed(t)
  {
    TrimEnd(TrimLeft(s))
  }

  /** A leading blank never shows: the space after "data:" is optional. */
  lemma TrimSkipsBlank(s: Bytes)
    ensures TrimSpace(" " + s) == TrimSpace(s)
  {
    assert (" " + s)[1..] == s;
  }

  /** bytes.TrimRight with a cut set. */
  function TrimRight(s: Bytes, cut: set<char>): (t: Bytes)
    ensures |t| <= |s| && t == s[..|t|]
    ensures t != [] ==> t[|t| - 1] !in cut
  {
    if s != [] && s[|s| - 1] in cut then TrimRight(s[..|s| - 1], cut) else s
  }

  // ----- searching and splitting -----

  predicate HasPrefix(s: Bytes, prefix: Bytes) {
    prefix <= s
  }

  predicate Free(s: Bytes, c: char) {
    forall k :: 0 <= k < |s| ==> s[k] != c
  }

  /** Position of the first `c`, or -1. */
  function IndexByte(s: Bytes, c: char): (i: int)
    ensures -1 <= i < |s|
    ensures i >= 0 ==> s[i] == c && forall k :: 0 <= k < i ==> s[k] != c
    ensures i < 0 ==> Free(s, c)
  {
    if s == [] then -1
    else if s[0] == c then 0
    else
      var i := IndexByte(s[1..], c);
      assert forall k :: 1 <= k < |s| ==> s[k] == s[1..][k - 1];
      if i < 0 then -1 else i + 1
  }

  lemma IndexByteIs(s: Bytes, c: char, i: nat)
    requires i < |s| && s[i] == c && Free(s[..i], c)
    ensures IndexByte(s, c) == i
  {
    forall k | 0 <= k < i ensures s[k] != c {
      assert s[..i][k] == s[k];
    }
  }

  predicate BlankAt(s: Bytes, i: int) {
    0 <= i < |s| - 1 && s[i] == '\n' && s[i + 1] == '\n'
  }

  /** Position of the first blank line ("\n\n"), or -1. */
  function IndexBlank(s: Bytes): (i: int)
    ensures i == -1 || BlankAt(s, i)
    ensures forall j :: BlankAt(s, j) ==> 0 <= i <= j
  {
    if |s| < 2 then -1
    else if BlankAt(s, 0) then 0
    else
      var i := IndexBlank(s[1..]);
      assert forall j :: BlankAt(s, j) ==> BlankAt(s[1..], j - 1);
      if i < 0 then -1 else i + 1
  }

  /** IndexBlank is the only position with its property. */
  lemma IndexBlankIs(s: Bytes, i: nat)
    requires BlankAt(s, i)
    requires forall j :: BlankAt(s, j) ==> i <= j
    ensures IndexBlank(s) == i
  {
    assert BlankAt(s, IndexBlank(s));
  }

  /** bytes.Split on "\n": always at least one line. */
  function Lines(s: Bytes): (lines: seq<Bytes>)
    ensures lines != []
  {
    var i := IndexByte(s, '\n');
    if i < 0 then [s] else [s[..i]] + Lines(s[i + 1..])
  }

  function Concat(chunks: seq<Bytes>): Bytes {
    if chunks == [] then [] else chunks[0] + Concat(chunks[1..])
  }

  lemma {:induction false} ConcatAppend(a: seq<Bytes>, b: seq<Bytes>)
    ensures Concat(a + b) == Concat(a) + Concat(b)
  {
    if a == [] {
      assert a + b == b;
    } else {
      assert (a + b)[1..] == a[1..] + b;
      ConcatAppend(a[1..], b);
    }
  }
}
