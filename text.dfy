/** Character classes, line splitting and decimal conversion shared by the
    output interceptor, the progress scanner and the log messages.

    Whitespace is Python's `str.isspace` set and line breaks are the full set
    `str.splitlines` cuts at; digits are the ASCII digits only. */
module Text {

  /** Python's `str.isspace` (also what `\s` and `str.strip()` use). */
  predicate IsSpace(c: char) {
    || c == ' '
    || ('\t' <= c <= '\r')               // \t \n \v \f \r
    || ('\U{1c}' <= c <= '\U{1f}')       // file, group, record and unit separators
    || c == '\U{85}' || c == '\U{a0}' || c == '\U{1680}'
    || ('\U{2000}' <= c <= '\U{200a}')
    || c == '\U{2028}' || c == '\U{2029}' || c == '\U{202f}' || c == '\U{205f}' || c == '\U{3000}'
  }

  /** The characters at which `str.splitlines` ends a line (`\r\n` counts as one break). */
  predicate IsLineBreak(c: char) {
    || c == '\n' || c == '\r' || c == '\U{0b}' || c == '\U{0c}'
    || c == '\U{1c}' || c == '\U{1d}' || c == '\U{1e}'
    || c == '\U{85}' || c == '\U{2028}' || c == '\U{2029}'
  }

  predicate IsDigit(c: char) { '0' <= c <= '9' }

  predicate AllDigits(s: string) { forall i | 0 <= i < |s| :: IsDigit(s[i]) }

  predicate BreakFree(s: string) { forall i | 0 <= i < |s| :: !IsLineBreak(s[i]) }

  /** True when `s.strip()` is non-empty. */
  predicate HasNonSpace(s: string) { exists i | 0 <= i < |s| :: !IsSpace(s[i]) }

  /** `s.startswith(prefix)` */
  predicate StartsWith(s: string, prefix: string) {
    |prefix| <= |s| && s[..|prefix|] == prefix
  }

  /** `sub in s` */
  predicate Contains(s: string, sub: string)
    decreases |s|
  {
    StartsWith(s, sub) || (s != [] && Contains(s[1..], sub))
  }

  /** A text contains whatever stands in its middle. */
  lemma {:induction false} ContainsInfix(a: string, b: string, c: string)
    ensures Contains(a + b + c, b)
    decreases |a|
  {
    if a == [] {
      assert a + b + c == b + c;
      assert (b + c)[..|b|] == b;
    } else {
      ContainsInfix(a[1..], b, c);
      assert (a + b + c)[1..] == a[1..] + b + c;
    }
  }

  /** `str.upper()` restricted to the ASCII letters. */
  function AsciiUpper(s: string): (r: string)
    ensures |r| == |s|
  {
    seq(|s|, i requires 0 <= i < |s| => if 'a' <= s[i] <= 'z' then (s[i] as int - 32) as char else s[i])
  }

  /** `"".join(parts)` */
  function Concat(parts: seq<string>): string {
    if parts == [] then [] else Concat(parts[..|parts| - 1]) + parts[|parts| - 1]
  }

  lemma {:induction false} ConcatCons(p: string, rest: seq<string>)
    ensures Concat([p] + rest) == p + Concat(rest)
    decreases |rest|
  {
    if rest == [] {
      assert [p] + rest == [p];
      assert Concat([p][..0]) == [];
    } else {
      var all := [p] + rest;
      assert all[..|all| - 1] == [p] + rest[..|rest| - 1];
      ConcatCons(p, rest[..|rest| - 1]);
    }
  }

  lemma ConcatSnoc(parts: seq<string>, p: string)
    ensures Concat(parts + [p]) == Concat(parts) + p
  {
    assert (parts + [p])[..|parts|] == parts;
  }

  // ---------------------------------------------------------------------------
  // str.splitlines(True)

  /** Length of the first piece `s.splitlines(True)` cuts from a non-empty `s`:
      everything up to and including the first line break, `\r\n` taken whole. */
  function FirstLineLength(s: string): (n: nat)
    requires s != []
    ensures 0 < n <= |s|
  {
    if IsLineBreak(s[0]) then
      (if s[0] == '\r' && |s| > 1 && s[1] == '\n' then 2 else 1)
    else if |s| == 1 then 1
    else 1 + FirstLineLength(s[1..])
  }

  /** `s.splitlines(True)`: the pieces keep their line endings. */
  function SplitLines(s: string): seq<string>
    decreases |s|
  {
    if s == [] then [] else
      var n := FirstLineLength(s);
      [s[..n]] + SplitLines(s[n..])
  }

  /** One piece of `splitlines(True)`: break-free text followed by at most one
      line ending (a single break character, or `\r\n`). */
  predicate IsLine(p: string) {
    p != [] &&
    (|| BreakFree(p)
     || (BreakFree(p[..|p| - 1]) && IsLineBreak(p[|p| - 1]))
     || (|p| >= 2 && p[|p| - 2..] == "\r\n" && BreakFree(p[..|p| - 2])))
  }

  predicate EndsWithBreak(p: string) { p != [] && IsLineBreak(p[|p| - 1]) }

  lemma {:induction false} FirstLineShape(s: string)
    requires s != []
    ensures IsLine(s[..FirstLineLength(s)])
    ensures FirstLineLength(s) < |s| ==> EndsWithBreak(s[..FirstLineLength(s)])
    ensures !EndsWithBreak(s[..FirstLineLength(s)]) ==> BreakFree(s)
    decreases |s|
  {
    var n := FirstLineLength(s);
    if IsLineBreak(s[0]) {
      if n == 2 {
        assert s[..n][n - 2..] == "\r\n";
        assert s[..n][..n - 2] == [];
      } else {
        assert s[..n][..n - 1] == [];
      }
    } else if |s| == 1 {
      assert s[..n] == s;
    } else {
      var t := s[1..];
      FirstLineShape(t);
      var m := FirstLineLength(t);
      assert s[..n] == [s[0]] + t[..m];
      ConsLine(s[0], t[..m]);
      if !EndsWithBreak(s[..n]) {
        assert s == [s[0]] + t;
        ConsBreakFree(s[0], t);
      }
    }
  }

  /** A character other than a line break in front of a piece leaves it a piece. */
  lemma ConsLine(c: char, p: string)
    requires !IsLineBreak(c) && IsLine(p)
    ensures IsLine([c] + p)
  {
    var q := [c] + p;
    var n := |q|;
    if BreakFree(p) {
      ConsBreakFree(c, p);
    } else if BreakFree(p[..|p| - 1]) && IsLineBreak(p[|p| - 1]) {
      assert q[..n - 1] == [c] + p[..|p| - 1];
      ConsBreakFree(c, p[..|p| - 1]);
    } else {
      assert q[n - 2..] == p[|p| - 2..];
      assert q[..n - 2] == [c] + p[..|p| - 2];
      ConsBreakFree(c, p[..|p| - 2]);
    }
  }

  lemma ConsBreakFree(c: char, p: string)
    requires !IsLineBreak(c) && BreakFree(p)
    ensures BreakFree([c] + p)
  {
    assert forall i | 1 <= i < |p| + 1 :: ([c] + p)[i] == p[i - 1];
  }

  /** Splitting loses nothing: the pieces join back to the chunk. */
  lemma {:induction false} SplitLinesConcat(s: string)
    ensures Concat(SplitLines(s)) == s
    decreases |s|
  {
    if s != [] {
      var n := FirstLineLength(s);
      SplitLinesConcat(s[n..]);
      ConcatCons(s[..n], SplitLines(s[n..]));
      assert s[..n] + s[n..] == s;
    }
  }

  /** Every piece is one line; every piece but the last ends with a line break. */
  lemma {:induction false} SplitLinesShape(s: string)
    ensures forall k | 0 <= k < |SplitLines(s)| :: IsLine(SplitLines(s)[k])
    ensures forall k | 0 <= k < |SplitLines(s)| - 1 :: EndsWithBreak(SplitLines(s)[k])
    decreases |s|
  {
    if s != [] {
      var n := FirstLineLength(s);
      FirstLineShape(s);
      SplitLinesShape(s[n..]);
      var rest := SplitLines(s[n..]);
      assert SplitLines(s) == [s[..n]] + rest;
      if n == |s| {
        assert s[n..] == [];
      }
    }
  }

  /** A chunk without a line break is passed on as one piece (or none if empty). */
  lemma {:induction false} SplitLinesBreakFree(s: string)
    requires BreakFree(s)
    ensures SplitLines(s) == if s == [] then [] else [s]
    decreases |s|
  {
    if s != [] {
      var n := FirstLineLength(s);
      FirstLineShape(s);
      if n < |s| {
        assert false;
      }
      assert s[n..] == [] && s[..n] == s;
      assert SplitLines(s) == [s[..n]] + SplitLines(s[n..]);
    }
  }

  // ---------------------------------------------------------------------------
  // Decimal numbers

  function DigitValue(c: char): (d: nat)
    requires IsDigit(c)
    ensures d < 10
  {
    c as int - '0' as int
  }

  function DigitChar(d: nat): (c: char)
    requires d < 10
    ensures IsDigit(c) && DigitValue(c) == d
  {
    ('0' as int + d) as char
  }

  /** `int(s)` for a string of ASCII digits. */
  function DecimalValue(s: string): nat
    requires AllDigits(s)
  {
    if s == [] then 0 else 10 * DecimalValue(s[..|s| - 1]) + DigitValue(s[|s| - 1])
  }

  function Pow10(k: nat): (p: nat)
    ensures p >= 1
  {
    if k == 0 then 1 else 10 * Pow10(k - 1)
  }

  /** A numeral of k digits is below 10^k (so three digits give at most 999). */
  lemma {:induction false} DecimalValueBound(s: string)
    requires AllDigits(s)
    ensures DecimalValue(s) < Pow10(|s|)
    decreases |s|
  {
    if s != [] {
      DecimalValueBound(s[..|s| - 1]);
    }
  }

  /** `str(n)` for a natural number. */
  function NatToDecimal(n: nat): (r: string)
    ensures r != [] && AllDigits(r)
  {
    if n < 10 then [DigitChar(n)] else NatToDecimal(n / 10) + [DigitChar(n % 10)]
  }

  /** `str(i)` for any integer. */
  function IntToDecimal(i: int): string {
    if i < 0 then "-" + NatToDecimal(-i) else NatToDecimal(i)
  }

  /** Reading back what `str` wrote gives the number. */
  lemma {:induction false} DecimalRoundTrip(n: nat)
    ensures DecimalValue(NatToDecimal(n)) == n
  {
    if n >= 10 {
      DecimalRoundTrip(n / 10);
      var r := NatToDecimal(n);
      assert r[..|r| - 1] == NatToDecimal(n / 10);
    }
  }

  /** `str(n)` never starts with a zero unless n is 0. */
  lemma {:induction false} NatToDecimalCanonical(n: nat)
    ensures NatToDecimal(n)[0] == '0' <==> n == 0
  {
    if n >= 10 {
      NatToDecimalCanonical(n / 10);
      assert NatToDecimal(n)[0] == NatToDecimal(n / 10)[0];
    }
  }
}
