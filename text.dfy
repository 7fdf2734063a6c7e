/** String operations of the JavaScript runtime that the application relies on:
    the `\s` character class (also the set `String.prototype.trim` strips),
    `indexOf` / `lastIndexOf` of one character, and concatenation. */
module Text {

  /** The code points of ECMAScript `\s`, as inclusive ranges: the WhiteSpace
      characters (TAB, VT, FF, SPACE, NBSP, ZWNBSP and the other Zs characters)
      and the LineTerminator characters (LF, CR, LS, PS). */
  const SpaceRanges: seq<(int, int)> := [
    (0x09, 0x0D), (0x20, 0x20), (0xA0, 0xA0), (0x1680, 0x1680), (0x2000, 0x200A),
    (0x2028, 0x2029), (0x202F, 0x202F), (0x205F, 0x205F), (0x3000, 0x3000), (0xFEFF, 0xFEFF)]

  /** `n` lies in one of the inclusive `ranges`. */
  predicate InRanges(n: int, ranges: seq<(int, int)>) {
    ranges != [] && (ranges[0].0 <= n <= ranges[0].1 || InRanges(n, ranges[1..]))
  }

  /** `c` matches the regular-expression class `\s` (the same set `trim` strips). */
  predicate IsSpace(c: char) {
    InRanges(c as int, SpaceRanges)
  }

  /** No character of `s` is whitespace. */
  predicate NoSpace(s: string) {
    forall i :: 0 <= i < |s| ==> !IsSpace(s[i])
  }

  /** Every character of `s` is whitespace (the empty string included). */
  predicate AllSpace(s: string) {
    forall i :: 0 <= i < |s| ==> IsSpace(s[i])
  }

  /** `s` with its leading whitespace removed (`trimStart`). */
  function TrimStart(s: string): string {
    if s != [] && IsSpace(s[0]) then TrimStart(s[1..]) else s
  }

  /** `s` with its trailing whitespace removed (`trimEnd`). */
  function TrimEnd(s: string): string {
    if s != [] && IsSpace(s[|s| - 1]) then TrimEnd(s[..|s| - 1]) else s
  }

  /** `String.prototype.trim`. */
  function Trim(s: string): string {
    TrimEnd(TrimStart(s))
  }

  /** `trimStart` removes a whitespace-only prefix and stops at the first
      other character. */
  lemma {:induction false} TrimStartRemovesLeadingSpace(s: string)
    ensures var r := TrimStart(s);
      |r| <= |s| && r == s[|s| - |r|..] && (r == [] || !IsSpace(r[0])) && AllSpace(s[..|s| - |r|])
  {
    if s != [] && IsSpace(s[0]) {
      TrimStartRemovesLeadingSpace(s[1..]);
      var r := TrimStart(s);
      assert s[..|s| - |r|] == [s[0]] + s[1..][..|s| - 1 - |r|];
    }
  }

  /** `trimEnd` removes a whitespace-only suffix and stops at the last
      other character. */
  lemma {:induction false} TrimEndRemovesTrailingSpace(s: string)
    ensures var r := TrimEnd(s);
      |r| <= |s| && r == s[..|r|] && (r == [] || !IsSpace(r[|r| - 1])) && AllSpace(s[|r|..])
  {
    if s != [] && IsSpace(s[|s| - 1]) {
      TrimEndRemovesTrailingSpace(s[..|s| - 1]);
      var r := TrimEnd(s);
      assert s[|r|..] == s[..|s| - 1][|r|..] + [s[|s| - 1]];
    }
  }

  /** `s.trim()` is empty exactly when every character of `s` is whitespace. */
  lemma TrimEmptyIffAllSpace(s: string)
    ensures Trim(s) == "" <==> AllSpace(s)
  {
    var t := TrimStart(s);
    TrimStartRemovesLeadingSpace(s);
    TrimEndRemovesTrailingSpace(t);
    if Trim(s) == "" {
      assert AllSpace(t[0..]);
      assert s[..|s| - |t|] + t == s;
      assert t[0..] == t;
    } else {
      var r := Trim(s);
      assert !IsSpace(r[|r| - 1]);
      assert r[|r| - 1] == s[|s| - |t| + |r| - 1];
    }
  }

  /** `s.indexOf(c)`: the first position of `c`, or -1 when there is none. */
  function IndexOf(s: string, c: char): (r: int)
    ensures -1 <= r < |s|
    ensures r == -1 <==> c !in s
    ensures r >= 0 ==> s[r] == c
    ensures forall p :: 0 <= p < |s| && (r == -1 || p < r) ==> s[p] != c
  {
    if s == [] then -1
    else if s[0] == c then 0
    else
      var k := IndexOf(s[1..], c);
      assert s == [s[0]] + s[1..];
      if k == -1 then -1 else k + 1
  }

  /** `s.lastIndexOf(c)`: the last position of `c`, or -1 when there is none. */
  function LastIndexOf(s: string, c: char): (r: int)
    ensures -1 <= r < |s|
    ensures r == -1 <==> c !in s
    ensures r >= 0 ==> s[r] == c
    ensures forall p :: r < p < |s| ==> s[p] != c
  {
    if s == [] then -1
    else if s[|s| - 1] == c then |s| - 1
    else
      var init := s[..|s| - 1];
      assert s == init + [s[|s| - 1]];
      var k := LastIndexOf(init, c);
      k
  }

  /** `sub` occurs in `s` at position `i`. */
  predicate OccursAt(s: string, sub: string, i: int) {
    0 <= i && i + |sub| <= |s| && s[i..i + |sub|] == sub
  }

  /** A string occurs at the end of any string ending with it. */
  lemma OccursAtEnd(a: string, b: string)
    ensures OccursAt(a + b, b, |a|)
  {
    assert (a + b)[|a|..|a| + |b|] == b;
  }

  /** An occurrence survives appending text after it. */
  lemma OccursBeforeSuffix(s: string, sub: string, i: int, t: string)
    requires OccursAt(s, sub, i)
    ensures OccursAt(s + t, sub, i)
  {
    assert (s + t)[i..i + |sub|] == s[i..i + |sub|];
  }

  /** An occurrence survives prepending text before it, shifted by its length. */
  lemma OccursAfterPrefix(t: string, s: string, sub: string, i: int)
    requires OccursAt(s, sub, i)
    ensures OccursAt(t + s, sub, |t| + i)
  {
    assert (t + s)[|t| + i..|t| + i + |sub|] == s[i..i + |sub|];
  }

  /** A string occurs in any string built around it. */
  lemma OccursBetween(a: string, b: string, c: string)
    ensures OccursAt(a + b + c, b, |a|)
  {
    OccursAtEnd(a, b);
    OccursBeforeSuffix(a + b, b, |a|, c);
  }

  /** The in-order concatenation of a sequence of strings (`+=` in a loop). */
  function Concat(parts: seq<string>): (r: string)
    ensures |r| == 0 <==> forall i :: 0 <= i < |parts| ==> parts[i] == ""
  {
    if parts == [] then ""
    else
      var r := Concat(parts[..|parts| - 1]) + parts[|parts| - 1];
      assert forall i :: 0 <= i < |parts| - 1 ==> parts[..|parts| - 1][i] == parts[i];
      r
  }

  /** Appending one more part appends its text. */
  lemma ConcatAppend(parts: seq<string>, p: string)
    ensures Concat(parts + [p]) == Concat(parts) + p
  {
    assert (parts + [p])[..|parts|] == parts;
  }
}
