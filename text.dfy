/**
 * The string operations of the .NET base library that the optimizer relies on,
 * as ordinal (culture-independent) operations over `seq<char>`.
 */
module Text {
  import opened Wrappers

  /** `s.StartsWith(p)` */
  predicate StartsWith(s: string, p: string) {
    |p| <= |s| && s[..|p|] == p
  }

  /** `s.EndsWith(p)` */
  predicate EndsWith(s: string, p: string) {
    |p| <= |s| && s[|s| - |p|..] == p
  }

  /** `sub` occurs in `s` starting at index `i`. */
  predicate OccursAt(s: string, sub: string, i: int) {
    0 <= i && i + |sub| <= |s| && s[i..i + |sub|] == sub
  }

  /** `s.Contains(sub)` */
  predicate Contains(s: string, sub: string) {
    exists i :: 0 <= i <= |s| - |sub| && OccursAt(s, sub, i)
  }

  lemma ContainsAt(s: string, sub: string, i: int)
    requires OccursAt(s, sub, i)
    ensures Contains(s, sub)
  {
  }

  /** A string in which the first character of `sub` never occurs cannot contain `sub`. */
  lemma NotContainsByFirstChar(s: string, sub: string)
    requires |sub| > 0 && sub[0] !in s
    ensures !Contains(s, sub)
  {
    forall i | 0 <= i <= |s| - |sub| ensures !OccursAt(s, sub, i) {
      assert s[i] in s;
      assert s[i..i + |sub|][0] == s[i];
    }
  }

  lemma StartsWithContains(s: string, p: string)
    requires StartsWith(s, p)
    ensures Contains(s, p)
  {
    assert OccursAt(s, p, 0);
  }

  /** The characters `char.IsWhiteSpace` accepts among ASCII and Latin-1: what `Trim()` removes. */
  predicate IsWhiteSpace(c: char) {
    c == ' ' || c == '\t' || c == '\n' || c == '\r' || c == '\U{000B}' || c == '\U{000C}'
    || c == '\U{0085}' || c == '\U{00A0}'
  }

  /**
   * The white space the integer parsers skip around a number (`NumberStyles.Integer`):
   * the space and U+0009 to U+000D, but not U+0085 or U+00A0.
   */
  predicate IsNumberSpace(c: char) {
    c == ' ' || '\t' <= c <= '\r'
  }

  /** Drops the leading characters that satisfy `ws`. */
  function TrimStart(s: string, ws: char -> bool): (r: string)
    ensures |r| <= |s|
    ensures r == s[|s| - |r|..]
    ensures forall i :: 0 <= i < |s| - |r| ==> ws(s[i])
    ensures r != [] ==> !ws(r[0])
  {
    if s != [] && ws(s[0]) then TrimStart(s[1..], ws) else s
  }

  /** Drops the trailing characters that satisfy `ws`. */
  function TrimEnd(s: string, ws: char -> bool): (r: string)
    ensures |r| <= |s|
    ensures r == s[..|r|]
    ensures forall i :: |r| <= i < |s| ==> ws(s[i])
    ensures r != [] ==> !ws(r[|r| - 1])
  {
    if s != [] && ws(s[|s| - 1]) then TrimEnd(s[..|s| - 1], ws) else s
  }

  /** `s.Trim()` */
  function Trim(s: string): string {
    TrimEnd(TrimStart(s, IsWhiteSpace), IsWhiteSpace)
  }

  /** The text the integer parsers read once the surrounding white space is skipped. */
  function TrimNumber(s: string): string {
    TrimEnd(TrimStart(s, IsNumberSpace), IsNumberSpace)
  }

  /** A character that is not white space survives both trims, so it is in the trimmed text. */
  lemma TrimKeeps(s: string, ws: char -> bool, i: int)
    requires 0 <= i < |s| && !ws(s[i])
    ensures s[i] in TrimEnd(TrimStart(s, ws), ws)
  {
    var a := TrimStart(s, ws);
    var j := i - (|s| - |a|);
    assert a[j] == s[i];
    var b := TrimEnd(a, ws);
    assert b[j] == a[j];
  }

  lemma {:induction false} TrimNoWhiteSpace(s: string, ws: char -> bool)
    requires forall i :: 0 <= i < |s| ==> !ws(s[i])
    ensures TrimEnd(TrimStart(s, ws), ws) == s
  {
  }

  /** ASCII upper-casing, the part of ordinal-ignore-case comparison the model keeps. */
  function UpperChar(c: char): char {
    if 'a' <= c <= 'z' then (c as int - 32) as char else c
  }

  function Upper(s: string): (r: string)
    ensures |r| == |s|
    ensures forall i :: 0 <= i < |s| ==> r[i] == UpperChar(s[i])
  {
    seq(|s|, i requires 0 <= i < |s| => UpperChar(s[i]))
  }

  /** `s.IndexOf(sub, StringComparison.OrdinalIgnoreCase) >= 0` */
  predicate ContainsIgnoreCase(s: string, sub: string) {
    Contains(Upper(s), Upper(sub))
  }

  /** Upper-casing twice changes nothing more: an upper-cased text compares as itself. */
  lemma UpperIdempotent(s: string)
    ensures Upper(Upper(s)) == Upper(s)
  {
    assert forall i :: 0 <= i < |s| ==> Upper(Upper(s))[i] == Upper(s)[i];
  }

  /** An exact occurrence is also an occurrence ignoring case, so a line naming the plan as written matches. */
  lemma ContainsIgnoreCaseOfContains(s: string, sub: string)
    requires Contains(s, sub)
    ensures ContainsIgnoreCase(s, sub)
  {
    var i :| 0 <= i <= |s| - |sub| && OccursAt(s, sub, i);
    var u, v := Upper(s), Upper(sub);
    forall j | 0 <= j < |sub| ensures u[i..i + |sub|][j] == v[j] {
      assert s[i + j] == s[i..i + |sub|][j] == sub[j];
      assert u[i..i + |sub|][j] == u[i + j] == UpperChar(s[i + j]);
    }
    assert u[i..i + |sub|] == v;
    assert OccursAt(u, v, i);
  }

  /** Matching ignores the case of the searched text: its upper-cased form matches the same patterns. */
  lemma ContainsIgnoreCaseOfUpper(s: string, sub: string)
    ensures ContainsIgnoreCase(Upper(s), sub) <==> ContainsIgnoreCase(s, sub)
  {
    UpperIdempotent(s);
  }

  /** `s.Replace(pat, "")`: every non-overlapping occurrence, scanning left to right, is removed. */
  function RemoveAll(s: string, pat: string): (r: string)
    requires pat != []
    ensures |r| <= |s|
    ensures pat[0] !in s ==> r == s
    decreases |s|
  {
    if StartsWith(s, pat) then
      assert s[0] == pat[0] && s[0] in s;
      RemoveAll(s[|pat|..], pat)
    else if s == [] then []
    else
      assert pat[0] !in s ==> pat[0] !in s[1..] by {
        assert forall c :: c in s[1..] ==> c in s;
      }
      [s[0]] + RemoveAll(s[1..], pat)
  }

  /** Removing a pattern leaves a prefix alone when the pattern's first character is not in it. */
  lemma {:induction false} RemoveAllKeepsPrefix(x: string, y: string, pat: string)
    requires pat != [] && pat[0] !in x
    ensures RemoveAll(x + y, pat) == x + RemoveAll(y, pat)
    decreases |x|
  {
    if x != [] {
      var s := x + y;
      assert s[0] == x[0] != pat[0];
      assert !StartsWith(s, pat);
      assert s[1..] == x[1..] + y;
      assert RemoveAll(s, pat) == [x[0]] + RemoveAll(x[1..] + y, pat);
      assert x == [x[0]] + x[1..];
      RemoveAllKeepsPrefix(x[1..], y, pat);
      assert [x[0]] + (x[1..] + RemoveAll(y, pat)) == x + RemoveAll(y, pat);
    } else {
      assert x + y == y;
    }
  }

  /**
   * An occurrence anywhere in the text is removed, with the text before it kept and
   * the removal carrying on after it: `Replace(" MB", "")` drops an interior " MB" too.
   */
  lemma RemoveAllDropsOccurrence(x: string, y: string, pat: string)
    requires pat != [] && pat[0] !in x
    ensures RemoveAll(x + pat + y, pat) == x + RemoveAll(y, pat)
  {
    var t := pat + y;
    assert t[..|pat|] == pat;
    assert t[|pat|..] == y;
    assert RemoveAll(t, pat) == RemoveAll(y, pat);
    assert x + pat + y == x + t;
    RemoveAllKeepsPrefix(x, t, pat);
  }

  // ---------------------------------------------------------------- numbers

  predicate IsDigit(c: char) { '0' <= c <= '9' }

  function DigitChar(d: nat): (c: char)
    requires d < 10
    ensures IsDigit(c)
  {
    ('0' as int + d) as char
  }

  function DigitValue(c: char): nat
    requires IsDigit(c)
  {
    c as int - '0' as int
  }

  predicate AllDigits(s: string) {
    forall i :: 0 <= i < |s| ==> IsDigit(s[i])
  }

  /** The decimal rendering of a non-negative integer, as `ToString()` prints it. */
  function NatToString(n: nat): (r: string)
    ensures |r| > 0 && AllDigits(r)
  {
    if n < 10 then [DigitChar(n)] else NatToString(n / 10) + [DigitChar(n % 10)]
  }

  /** The decimal rendering of an integer, with a leading '-' when negative. */
  function IntToString(n: int): (r: string)
    ensures |r| > 0
  {
    if n < 0 then "-" + NatToString(-n) else NatToString(n)
  }

  /** The value of a string of decimal digits. */
  function DigitsValue(s: string): nat
    requires AllDigits(s)
  {
    if s == [] then 0 else DigitsValue(s[..|s| - 1]) * 10 + DigitValue(s[|s| - 1])
  }

  lemma {:induction false} DigitsValueOfNatToString(n: nat)
    ensures DigitsValue(NatToString(n)) == n
  {
    if n >= 10 {
      var s := NatToString(n);
      assert s[..|s| - 1] == NatToString(n / 10);
      DigitsValueOfNatToString(n / 10);
    }
  }

  lemma NatToStringInjective(m: nat, n: nat)
    requires NatToString(m) == NatToString(n)
    ensures m == n
  {
    DigitsValueOfNatToString(m);
    DigitsValueOfNatToString(n);
  }

  const LongMin: int := -0x8000_0000_0000_0000
  const LongMax: int := 0x7FFF_FFFF_FFFF_FFFF

  /**
   * `long.TryParse(s, out v)` with the default integer style: optional surrounding
   * number white space, an optional sign, at least one decimal digit, and a value that
   * fits in 64 bits.
   */
  function ParseLong(s: string): (r: Option<int>)
    ensures r.Some? ==> LongMin <= r.value <= LongMax
  {
    ParseSigned(TrimNumber(s))
  }

  predicate IsSign(c: char) { c == '-' || c == '+' }

  /** An optional sign followed by at least one digit, within the 64-bit range. */
  function ParseSigned(t: string): (r: Option<int>)
    ensures r.Some? ==> LongMin <= r.value <= LongMax
  {
    var negative := t != [] && t[0] == '-';
    var body := if t != [] && IsSign(t[0]) then t[1..] else t;
    if body == [] || !AllDigits(body) then None
    else
      var d: int := DigitsValue(body);
      var v := if negative then -d else d;
      if LongMin <= v <= LongMax then Some(v) else None
  }

  /** A text with a character other than a digit, a sign or number white space never parses. */
  lemma ParseSignedRejects(t: string, c: char)
    requires c in t && !IsDigit(c) && !IsSign(c)
    ensures ParseSigned(t) == None
  {
    var body := if t != [] && IsSign(t[0]) then t[1..] else t;
    var k :| 0 <= k < |t| && t[k] == c;
    if t != [] && IsSign(t[0]) {
      assert k > 0 && body[k - 1] == c;
    } else {
      assert body[k] == c;
    }
  }

  /**
   * `long.TryParse` fails on any text holding a character that is neither a digit, a
   * sign nor number white space; in particular a no-break space (U+00A0) or a next-line
   * (U+0085) around the number, which `Trim()` would remove, makes it fail.
   */
  lemma ParseLongRejects(s: string, i: int)
    requires 0 <= i < |s| && !IsDigit(s[i]) && !IsSign(s[i]) && !IsNumberSpace(s[i])
    ensures ParseLong(s) == None
  {
    TrimKeeps(s, IsNumberSpace, i);
    ParseSignedRejects(TrimNumber(s), s[i]);
  }

  lemma ParseSignedDigits(t: string)
    requires t != [] && AllDigits(t) && DigitsValue(t) <= LongMax
    ensures ParseSigned(t) == Some(DigitsValue(t))
  {
    assert IsDigit(t[0]);
  }

  lemma DigitsNotWhiteSpace(s: string)
    requires AllDigits(s)
    ensures TrimNumber(s) == s
  {
    forall i | 0 <= i < |s| ensures !IsNumberSpace(s[i]) { assert IsDigit(s[i]); }
    TrimNoWhiteSpace(s, IsNumberSpace);
  }

  lemma ParseLongOfDigits(s: string)
    requires s != [] && AllDigits(s) && DigitsValue(s) <= LongMax
    ensures ParseLong(s) == Some(DigitsValue(s))
  {
    DigitsNotWhiteSpace(s);
    ParseSignedDigits(s);
  }

  lemma ParseLongOfNatToString(n: nat)
    requires n <= LongMax
    ensures ParseLong(NatToString(n)) == Some(n)
  {
    DigitsValueOfNatToString(n);
    ParseLongOfDigits(NatToString(n));
  }

  // ---------------------------------------------------------------- splitting

  predicate IsLineBreak(c: char) { c == '\r' || c == '\n' }

  predicate IsLine(l: string) {
    l != [] && forall i :: 0 <= i < |l| ==> !IsLineBreak(l[i])
  }

  /**
   * `s.Split(new[] { '\r', '\n' }, StringSplitOptions.RemoveEmptyEntries)`, with `cur`
   * the characters of the entry being collected.
   */
  function SplitLinesFrom(s: string, cur: string): (r: seq<string>)
    requires forall i :: 0 <= i < |cur| ==> !IsLineBreak(cur[i])
    ensures forall k :: 0 <= k < |r| ==> IsLine(r[k])
    decreases |s|
  {
    if s == [] then (if cur == [] then [] else [cur])
    else if IsLineBreak(s[0]) then (if cur == [] then [] else [cur]) + SplitLinesFrom(s[1..], [])
    else SplitLinesFrom(s[1..], cur + [s[0]])
  }

  function SplitLines(s: string): (r: seq<string>)
    ensures forall k :: 0 <= k < |r| ==> IsLine(r[k])
  {
    SplitLinesFrom(s, [])
  }

  /** Lines joined by "\r\n", as a command's standard output prints them. */
  function JoinLines(ls: seq<string>): string {
    if ls == [] then [] else if |ls| == 1 then ls[0] else ls[0] + "\r\n" + JoinLines(ls[1..])
  }

  lemma {:induction false} SplitLinesFromLine(l: string, cur: string, rest: string)
    requires forall i :: 0 <= i < |cur| ==> !IsLineBreak(cur[i])
    requires forall i :: 0 <= i < |l| ==> !IsLineBreak(l[i])
    requires rest == [] || IsLineBreak(rest[0])
    ensures SplitLinesFrom(l + rest, cur) == SplitLinesFrom(rest, cur + l)
    decreases |l|
  {
    if l != [] {
      assert (l + rest)[0] == l[0];
      assert (l + rest)[1..] == l[1..] + rest;
      assert cur + l == (cur + [l[0]]) + l[1..];
      SplitLinesFromLine(l[1..], cur + [l[0]], rest);
    } else {
      assert l + rest == rest;
      assert cur + l == cur;
    }
  }

  /** Splitting recovers the lines that were joined: the round trip of a command's output. */
  lemma {:induction false} SplitJoinLines(ls: seq<string>)
    requires forall k :: 0 <= k < |ls| ==> IsLine(ls[k])
    ensures SplitLines(JoinLines(ls)) == ls
  {
    if ls != [] {
      if |ls| == 1 {
        SplitLinesFromLine(ls[0], [], []);
        assert ls[0] + [] == ls[0];
        assert [] + ls[0] == ls[0];
      } else {
        var tail := "\r\n" + JoinLines(ls[1..]);
        assert JoinLines(ls) == ls[0] + tail;
        SplitLinesFromLine(ls[0], [], tail);
        assert [] + ls[0] == ls[0];
        assert tail[1..] == "\n" + JoinLines(ls[1..]);
        assert SplitLinesFrom(tail, ls[0]) == [ls[0]] + SplitLinesFrom(tail[1..], []);
        assert tail[1..][1..] == JoinLines(ls[1..]);
        assert SplitLinesFrom(tail[1..], []) == SplitLinesFrom(JoinLines(ls[1..]), []);
        SplitJoinLines(ls[1..]);
        assert ls == [ls[0]] + ls[1..];
      }
    }
  }
}
