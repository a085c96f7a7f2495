/** Character classes, prefixes, splitting on a separator and decimal rendering of naturals. */
module Text {

  predicate IsDigit(c: char) { '0' <= c <= '9' }
  predicate IsLower(c: char) { 'a' <= c <= 'z' }
  predicate IsUpper(c: char) { 'A' <= c <= 'Z' }

  /** `String.prototype.toUpperCase` restricted to ASCII letters. */
  function ToUpperAscii(c: char): (u: char)
    ensures IsLower(c) ==> IsUpper(u) && u as int == c as int - 32
    ensures !IsLower(c) ==> u == c
    ensures IsDigit(u) <==> IsDigit(c)
  {
    if IsLower(c) then (c as int - 32) as char else c
  }

  /** `s.startsWith(prefix)`. */
  predicate StartsWith(s: string, prefix: string)
  {
    |prefix| <= |s| && s[..|prefix|] == prefix
  }

  /** The text before the first `sep`, or all of `s` when `sep` does not occur:
      element 0 of `s.split(sep)`. */
  function BeforeFirst(s: string, sep: char): (r: string)
    ensures |r| <= |s| && r == s[..|r|]
    ensures sep !in r
    ensures |r| < |s| ==> s[|r|] == sep
    ensures sep !in s ==> r == s
  {
    if |s| == 0 then ""
    else if s[0] == sep then ""
    else [s[0]] + BeforeFirst(s[1..], sep)
  }

  /** The text after the first `sep`, or "" when `sep` does not occur. */
  function AfterFirst(s: string, sep: char): (r: string)
    ensures sep !in s ==> r == ""
    ensures |r| <= |s|
  {
    if |s| == 0 then ""
    else if s[0] == sep then s[1..]
    else AfterFirst(s[1..], sep)
  }

  /** The text before the first `sep`, the `sep` and the text after it make up `s`. */
  lemma {:induction false} SplitsAtFirst(s: string, sep: char)
    requires sep in s
    ensures s == BeforeFirst(s, sep) + [sep] + AfterFirst(s, sep)
  {
    var t := s[1..];
    assert s == [s[0]] + t;
    if s[0] != sep {
      assert sep in t by {
        var j :| 0 <= j < |s| && s[j] == sep;
        assert t[j - 1] == sep;
      }
      var b, a := BeforeFirst(t, sep), AfterFirst(t, sep);
      assert BeforeFirst(s, sep) == [s[0]] + b;
      assert AfterFirst(s, sep) == a;
      SplitsAtFirst(t, sep);
      assert [s[0]] + t == ([s[0]] + b) + [sep] + a;
    } else {
      assert BeforeFirst(s, sep) == [] && AfterFirst(s, sep) == t;
    }
  }

  /** Splitting at the first `sep` undoes joining with a `sep` that the head does not contain. */
  lemma {:induction false} SplitJoin(a: string, sep: char, b: string)
    requires sep !in a
    ensures sep in a + [sep] + b
    ensures BeforeFirst(a + [sep] + b, sep) == a
    ensures AfterFirst(a + [sep] + b, sep) == b
  {
    var s := a + [sep] + b;
    assert s[|a|] == sep;
    if |a| > 0 {
      assert s[1..] == a[1..] + [sep] + b;
      assert sep !in a[1..];
      SplitJoin(a[1..], sep, b);
      assert s[0] == a[0];
      assert a == [a[0]] + a[1..];
    } else {
      assert s[1..] == b;
    }
  }

  /** The ASCII digit for `d`. */
  function DigitChar(d: nat): (c: char)
    requires d < 10
    ensures IsDigit(c)
  {
    ('0' as int + d) as char
  }

  /** The value of an ASCII digit. */
  function DigitValue(c: char): (d: nat)
    requires IsDigit(c)
    ensures d < 10 && DigitChar(d) == c
  {
    c as int - '0' as int
  }

  predicate AllDigits(s: string)
  {
    forall i :: 0 <= i < |s| ==> IsDigit(s[i])
  }

  /** Decimal rendering of a natural, as JavaScript's `n.toString()` gives it for a
      non-negative integer: no sign, no leading zero. */
  function NatToString(n: nat): (s: string)
    ensures 1 <= |s| && AllDigits(s)
    ensures |s| == 1 <==> n < 10
    ensures |s| > 1 ==> s[0] != '0'
  {
    if n < 10 then [DigitChar(n)] else NatToString(n / 10) + [DigitChar(n % 10)]
  }

  /** The natural that a string of decimal digits denotes. */
  function ParseDigits(s: string): nat
    requires AllDigits(s)
  {
    if |s| == 0 then 0 else ParseDigits(s[..|s| - 1]) * 10 + DigitValue(s[|s| - 1])
  }

  /** JavaScript's `String(n)` for an integer: a minus sign before a negative one's digits. */
  function IntToString(n: int): (s: string)
    ensures n >= 0 ==> s == NatToString(n)
    ensures n < 0 ==> s == "-" + NatToString(-n)
    ensures 1 <= |s| && (IsDigit(s[0]) || s[0] == '-')
  {
    if n >= 0 then NatToString(n) else "-" + NatToString(-n)
  }

  /** Reading back a rendered natural gives the natural. */
  lemma {:induction false} ParseNatToString(n: nat)
    ensures ParseDigits(NatToString(n)) == n
  {
    if n >= 10 {
      var s := NatToString(n);
      ParseNatToString(n / 10);
      assert s[..|s| - 1] == NatToString(n / 10);
    }
  }

  /** Distinct naturals render as distinct strings. */
  lemma NatToStringInjective(a: nat, b: nat)
    requires NatToString(a) == NatToString(b)
    ensures a == b
  {
    ParseNatToString(a);
    ParseNatToString(b);
  }

  /** A character outside the Basic Multilingual Plane: JavaScript stores it as a
      surrogate pair, two UTF-16 code units. */
  predicate IsAstral(c: char) { c as int >= 0x1_0000 }

  /** JavaScript's `s.length`: the number of UTF-16 code units. */
  function Utf16Length(s: string): (n: nat)
    ensures |s| <= n <= 2 * |s|
    ensures n == |s| <==> forall i :: 0 <= i < |s| ==> !IsAstral(s[i])
  {
    if |s| == 0 then 0
    else
      var n := Utf16Length(s[..|s| - 1]) + (if IsAstral(s[|s| - 1]) then 2 else 1);
      assert forall i :: 0 <= i < |s| - 1 ==> s[..|s| - 1][i] == s[i];
      n
  }

  /** `s.padStart(width, c)`. */
  function PadStart(s: string, width: nat, c: char): (r: string)
    ensures |s| >= width ==> r == s
    ensures |s| < width ==> |r| == width
    ensures |r| >= |s| && r[|r| - |s|..] == s
    ensures forall i :: 0 <= i < |r| - |s| ==> r[i] == c
  {
    if |s| >= width then s
    else
      var fill := Repeat(c, width - |s|);
      assert (fill + s)[|fill|..] == s;
      fill + s
  }

  /** `n` copies of `c`. */
  function Repeat(c: char, n: nat): (r: string)
    ensures |r| == n
    ensures forall i :: 0 <= i < n ==> r[i] == c
  {
    if n == 0 then [] else [c] + Repeat(c, n - 1)
  }
}
