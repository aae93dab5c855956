/**
 * The Python string operations the coach relies on: `str.lower()`,
 * the substring test `sub in s`, `str.split()` with no argument, and
 * `sep.join(items)`.
 */
module PyStrings {

  /** `c.isspace()`: the characters `str.split()` separates on. */
  predicate IsSpace(c: char) {
    var n := c as int;
    n == 0x20 || 0x09 <= n <= 0x0D || 0x1C <= n <= 0x1F || n == 0x85 || n == 0xA0
    || n == 0x1680 || 0x2000 <= n <= 0x200A || n == 0x2028 || n == 0x2029
    || n == 0x202F || n == 0x205F || n == 0x3000
  }

  predicate IsUpper(c: char) { 'A' <= c <= 'Z' }

  /** Lower-case mapping of one character, for the ASCII letters. */
  function LowerChar(c: char): (d: char)
    ensures IsUpper(c) ==> d as int == c as int + 32 && 'a' <= d <= 'z'
    ensures !IsUpper(c) ==> d == c
  {
    if IsUpper(c) then (c as int + 32) as char else c
  }

  /** `s.lower()`. */
  function Lower(s: string): (r: string)
    ensures |r| == |s|
    ensures forall i :: 0 <= i < |s| ==> r[i] == LowerChar(s[i])
  {
    seq(|s|, i requires 0 <= i < |s| => LowerChar(s[i]))
  }

  /** `sub` occurs in `s` starting at index `i`. */
  predicate OccursAt(s: string, sub: string, i: int) {
    0 <= i && i + |sub| <= |s| && s[i..i + |sub|] == sub
  }

  /** `sub in s` for strings: a contiguous occurrence somewhere in `s`. */
  predicate Contains(s: string, sub: string) {
    exists i | 0 <= i <= |s| :: OccursAt(s, sub, i)
  }

  /** `s[i..j]` is a maximal run of non-space characters of `s`:
      exactly the pieces that `s.split()` returns. */
  predicate TokenSpan(s: string, i: int, j: int) {
    && 0 <= i < j <= |s|
    && (i == 0 || IsSpace(s[i - 1]))
    && (j == |s| || IsSpace(s[j]))
    && forall k :: i <= k < j ==> !IsSpace(s[k])
  }

  /** The end of the run of non-space characters that starts at `i`. */
  function WordEnd(s: string, i: nat): (j: nat)
    requires i <= |s|
    ensures i <= j <= |s|
    ensures forall k :: i <= k < j ==> !IsSpace(s[k])
    ensures j == |s| || IsSpace(s[j])
    decreases |s| - i
  {
    if i == |s| || IsSpace(s[i]) then i else WordEnd(s, i + 1)
  }

  /** `s.split()`: the runs of non-space characters, in order. */
  function Split(s: string): (r: seq<string>)
    decreases |s|
  {
    if s == [] then []
    else if IsSpace(s[0]) then Split(s[1..])
    else
      var n := WordEnd(s, 0);
      [s[..n]] + Split(s[n..])
  }

  /** Moving a span `d` characters right keeps it maximal, provided its
      start is not glued to the character just before the cut. */
  lemma SpanShift(s: string, d: nat, i: nat, j: nat)
    requires 0 < d <= |s| && i <= j <= |s| - d
    requires i > 0 || IsSpace(s[d - 1])
    ensures TokenSpan(s[d..], i, j) <==> TokenSpan(s, i + d, j + d)
    ensures s[d..][i..j] == s[i + d..j + d]
  {
    var t := s[d..];
    if TokenSpan(s, i + d, j + d) {
      forall k | i <= k < j ensures !IsSpace(t[k]) { assert t[k] == s[k + d]; }
    }
    if TokenSpan(t, i, j) {
      forall k | i + d <= k < j + d ensures !IsSpace(s[k]) { assert s[k] == t[k - d]; }
    }
  }

  /** `w` is one of the maximal non-space runs of `s`. */
  ghost predicate IsToken(s: string, w: string) {
    exists i, j :: TokenSpan(s, i, j) && s[i..j] == w
  }

  lemma TokenAfterSpaceUp(s: string, w: string)
    requires s != [] && IsSpace(s[0]) && IsToken(s[1..], w)
    ensures IsToken(s, w)
  {
    var t := s[1..];
    var i: nat, j: nat :| TokenSpan(t, i, j) && t[i..j] == w;
    SpanShift(s, 1, i, j);
    assert TokenSpan(s, i + 1, j + 1) && s[i + 1..j + 1] == w;
  }

  lemma TokenAfterSpaceDown(s: string, w: string)
    requires s != [] && IsSpace(s[0]) && IsToken(s, w)
    ensures IsToken(s[1..], w)
  {
    var t := s[1..];
    var i, j :| TokenSpan(s, i, j) && s[i..j] == w;
    assert i != 0 by { assert !IsSpace(s[i]); }
    SpanShift(s, 1, i - 1, j - 1);
    assert TokenSpan(t, i - 1, j - 1) && t[i - 1..j - 1] == w;
  }

  lemma TokenAfterWordUp(s: string, w: string, n: nat)
    requires s != [] && !IsSpace(s[0]) && n == WordEnd(s, 0)
    requires w == s[..n] || IsToken(s[n..], w)
    ensures IsToken(s, w)
  {
    var t := s[n..];
    if w == s[..n] {
      assert TokenSpan(s, 0, n) && s[0..n] == w;
    } else {
      var i: nat, j: nat :| TokenSpan(t, i, j) && t[i..j] == w;
      assert i != 0 by { assert !IsSpace(t[i]); }
      SpanShift(s, n, i, j);
      assert TokenSpan(s, i + n, j + n) && s[i + n..j + n] == w;
    }
  }

  /** A maximal run that starts where the first word starts ends where it ends. */
  lemma SpanAtWord(s: string, j: int, n: nat)
    requires n <= |s| && forall k :: 0 <= k < n ==> !IsSpace(s[k])
    requires n == |s| || IsSpace(s[n])
    requires TokenSpan(s, 0, j)
    ensures j == n
  {
  }

  /** Any other maximal run starts after the first word. */
  lemma SpanPastWord(s: string, i: int, j: int, n: nat)
    requires n <= |s| && forall k :: 0 <= k < n ==> !IsSpace(s[k])
    requires TokenSpan(s, i, j) && i != 0
    ensures i > n
  {
  }

  /** A maximal run other than the first word is a maximal run of what
      follows the first word. */
  lemma SpanAfterWord(s: string, i: int, j: int, n: nat)
    requires s != [] && !IsSpace(s[0]) && n == WordEnd(s, 0)
    requires TokenSpan(s, i, j) && s[i..j] != s[..n]
    ensures n < i && TokenSpan(s[n..], i - n, j - n) && s[n..][i - n..j - n] == s[i..j]
  {
    assert i != 0 by {
      if i == 0 { SpanAtWord(s, j, n); }
    }
    SpanPastWord(s, i, j, n);
    SpanShift(s, n, i - n, j - n);
  }

  lemma TokenAfterWordDown(s: string, w: string, n: nat)
    requires s != [] && !IsSpace(s[0]) && n == WordEnd(s, 0)
    requires IsToken(s, w) && w != s[..n]
    ensures IsToken(s[n..], w)
  {
    var i: int, j: int :| TokenSpan(s, i, j) && s[i..j] == w;
    SpanAfterWord(s, i, j, n);
    var t := s[n..];
    assert TokenSpan(t, i - n, j - n) && t[i - n..j - n] == w;
  }

  /** A piece of `s.split()` is exactly a maximal non-space run of `s`. */
  lemma {:induction false} SplitTokens(s: string, w: string)
    ensures w in Split(s) <==> IsToken(s, w)
    decreases |s|
  {
    if s == [] {
    } else if IsSpace(s[0]) {
      assert Split(s) == Split(s[1..]);
      SplitTokens(s[1..], w);
      if w in Split(s) { TokenAfterSpaceUp(s, w); }
      if IsToken(s, w) { TokenAfterSpaceDown(s, w); }
    } else {
      var n := WordEnd(s, 0);
      assert Split(s) == [s[..n]] + Split(s[n..]);
      SplitTokens(s[n..], w);
      if w in Split(s) { TokenAfterWordUp(s, w, n); }
      if IsToken(s, w) && w != s[..n] { TokenAfterWordDown(s, w, n); }
    }
  }

  /** `sep.join(items)`. */
  function Join(sep: string, items: seq<string>): string
    decreases |items|
  {
    if items == [] then ""
    else if |items| == 1 then items[0]
    else items[0] + sep + Join(sep, items[1..])
  }

  /** `items[:n]`. */
  function Take<T>(items: seq<T>, n: nat): (r: seq<T>)
    ensures |r| == if |items| < n then |items| else n
    ensures r == items[..|r|]
  {
    if |items| < n then items else items[..n]
  }

  /** `s.startswith(prefix)`. */
  predicate StartsWith(s: string, prefix: string) {
    |prefix| <= |s| && s[..|prefix|] == prefix
  }

  /** `WordEnd` on a known word. */
  lemma {:induction false} WordEndIs(s: string, i: nat, j: nat)
    requires i <= j <= |s|
    requires forall k :: i <= k < j ==> !IsSpace(s[k])
    requires j == |s| || IsSpace(s[j])
    ensures WordEnd(s, i) == j
    decreases j - i
  {
    if i < j {
      WordEndIs(s, i + 1, j);
    }
  }

  /** Below the length of a known prefix `h`, a text's prefixes are those of `h`. */
  lemma PrefixOfPrefix(text: string, h: string, p: string)
    requires StartsWith(text, h) && |p| <= |h|
    ensures StartsWith(text, p) <==> StartsWith(h, p)
  {
    assert text[..|p|] == h[..|p|];
  }

  /** A string starts with any of its left parts. */
  lemma ConcatStartsWith(h: string, rest: string)
    ensures StartsWith(h + rest, h)
  {
    assert (h + rest)[..|h|] == h;
  }

  /** Appending keeps a prefix. */
  lemma StartsWithExtend(s: string, h: string, t: string)
    requires StartsWith(s, h)
    ensures StartsWith(s + t, h)
  {
    assert (s + t)[..|h|] == s[..|h|];
  }
}
