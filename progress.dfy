/** The progress pattern `\(\s*(\d{1,3})\s*%\s*\)` of the flash logger,
    written as a left-to-right scanner.

    Every part of the pattern is followed by something its own characters can
    never be (a digit is never whitespace, `%` and `)` are neither), so the
    backtracking regex has at most one way to match at a given start: all the
    whitespace, then the whole digit run (which must be 1 to 3 long), then all
    the whitespace, `%`, all the whitespace, `)`. */
module Progress {
  import opened Common
  import opened Text

  predicate AllSpace(s: string) { forall k | 0 <= k < |s| :: IsSpace(s[k]) }

  /** First position at or after i that is not whitespace. */
  function SkipSpaces(s: string, i: nat): (j: nat)
    requires i <= |s|
    ensures i <= j <= |s|
    ensures AllSpace(s[i..j])
    ensures j < |s| ==> !IsSpace(s[j])
    decreases |s| - i
  {
    if i < |s| && IsSpace(s[i]) then
      var j := SkipSpaces(s, i + 1);
      assert s[i..j] == [s[i]] + s[i + 1..j];
      j
    else i
  }

  /** First position at or after i that is not an ASCII digit. */
  function SkipDigits(s: string, i: nat): (j: nat)
    requires i <= |s|
    ensures i <= j <= |s|
    ensures AllDigits(s[i..j])
    ensures j < |s| ==> !IsDigit(s[j])
    decreases |s| - i
  {
    if i < |s| && IsDigit(s[i]) then
      var j := SkipDigits(s, i + 1);
      assert s[i..j] == [s[i]] + s[i + 1..j];
      j
    else i
  }

  /** The value of the group when the pattern is tried at position i, if it matches there. */
  function MatchAt(s: string, i: nat): Option<nat>
    requires i <= |s|
  {
    if i == |s| || s[i] != '(' then None
    else
      var p := SkipSpaces(s, i + 1);
      var q := SkipDigits(s, p);
      if q - p < 1 || q - p > 3 then None
      else
        var r := SkipSpaces(s, q);
        if r == |s| || s[r] != '%' then None
        else
          var t := SkipSpaces(s, r + 1);
          if t == |s| || s[t] != ')' then None
          else Some(DecimalValue(s[p..q]))
  }

  /** The leftmost position at or after i where the pattern matches, or |s| if none does. */
  function FirstMatchFrom(s: string, i: nat): (j: nat)
    requires i <= |s|
    ensures i <= j <= |s|
    ensures forall k | i <= k < j :: MatchAt(s, k).None?
    ensures j < |s| ==> MatchAt(s, j).Some?
    decreases |s| - i
  {
    if i == |s| || MatchAt(s, i).Some? then i else FirstMatchFrom(s, i + 1)
  }

  /** `regex.search(s)` followed by `int(m.group(1))`. */
  function Search(s: string): Option<nat> {
    var j := FirstMatchFrom(s, 0);
    if j < |s| then MatchAt(s, j) else None
  }

  /** The pattern, read declaratively: `(` at i, whitespace up to p, 1 to 3
      digits from p to q, whitespace up to r, `%` at r, whitespace up to t, `)` at t. */
  ghost predicate PatternAt(s: string, i: nat, p: nat, q: nat, r: nat, t: nat) {
    && i < p <= q <= r < t < |s|
    && s[i] == '(' && AllSpace(s[i + 1..p])
    && 1 <= q - p <= 3 && AllDigits(s[p..q])
    && AllSpace(s[q..r]) && s[r] == '%'
    && AllSpace(s[r + 1..t]) && s[t] == ')'
  }

  lemma SkipSpacesExact(s: string, i: nat, j: nat)
    requires i <= j < |s| && AllSpace(s[i..j]) && !IsSpace(s[j])
    ensures SkipSpaces(s, i) == j
    decreases j - i
  {
    if i < j {
      assert IsSpace(s[i..j][0]);
      assert s[i + 1..j] == s[i..j][1..];
      SkipSpacesExact(s, i + 1, j);
    }
  }

  lemma SkipDigitsExact(s: string, i: nat, j: nat)
    requires i <= j < |s| && AllDigits(s[i..j]) && !IsDigit(s[j])
    ensures SkipDigits(s, i) == j
    decreases j - i
  {
    if i < j {
      assert IsDigit(s[i..j][0]);
      assert s[i + 1..j] == s[i..j][1..];
      SkipDigitsExact(s, i + 1, j);
    }
  }

  /** The scanner accepts exactly what the pattern describes, with the same value. */
  lemma MatchAtSound(s: string, i: nat)
    requires i <= |s| && MatchAt(s, i).Some?
    ensures exists p: nat, q: nat, r: nat, t: nat :: PatternAt(s, i, p, q, r, t) && MatchAt(s, i).value == DecimalValue(s[p..q])
  {
    var p := SkipSpaces(s, i + 1);
    var q := SkipDigits(s, p);
    var r := SkipSpaces(s, q);
    var t := SkipSpaces(s, r + 1);
    assert PatternAt(s, i, p, q, r, t);
  }

  lemma {:induction false} MatchAtComplete(s: string, i: nat, p: nat, q: nat, r: nat, t: nat)
    requires PatternAt(s, i, p, q, r, t)
    ensures MatchAt(s, i) == Some(DecimalValue(s[p..q]))
  {
    PatternSkips(s, i, p, q, r, t);
  }

  /** Where the pattern is, the scanner's four skips land on its boundaries. */
  lemma PatternSkips(s: string, i: nat, p: nat, q: nat, r: nat, t: nat)
    requires PatternAt(s, i, p, q, r, t)
    ensures SkipSpaces(s, i + 1) == p && SkipDigits(s, p) == q
    ensures SkipSpaces(s, q) == r && SkipSpaces(s, r + 1) == t
  {
    SkipSpacesExact(s, i + 1, p);
    if q < r {
      assert IsSpace(s[q..r][0]);
    }
    SkipDigitsExact(s, p, q);
    SkipSpacesExact(s, q, r);
    SkipSpacesExact(s, r + 1, t);
  }

  /** The value of a match is at most 999: three digits, no clamping. */
  lemma MatchAtBound(s: string, i: nat)
    requires i <= |s| && MatchAt(s, i).Some?
    ensures MatchAt(s, i).value <= 999
  {
    var p := SkipSpaces(s, i + 1);
    var q := SkipDigits(s, p);
    DecimalValueBound(s[p..q]);
    assert Pow10(1) == 10 && Pow10(2) == 100 && Pow10(3) == 1000;
  }

  /** A write yields a progress value iff some position matches the pattern;
      the value is that of the leftmost match and lies in 0..999. */
  lemma SearchSpec(s: string)
    ensures Search(s).None? <==> forall j | 0 <= j <= |s| :: MatchAt(s, j).None?
    ensures Search(s).Some? ==> Search(s).value <= 999
    ensures Search(s).Some? ==>
      exists j | 0 <= j < |s| :: MatchAt(s, j) == Search(s) && forall k | 0 <= k < j :: MatchAt(s, k).None?
  {
    var j := FirstMatchFrom(s, 0);
    if j < |s| {
      MatchAtBound(s, j);
    }
  }

  lemma {:induction false} NatToDecimalLength(n: nat, k: nat)
    requires 1 <= k && n < Pow10(k)
    ensures |NatToDecimal(n)| <= k
  {
    if n >= 10 {
      NatToDecimalLength(n / 10, k - 1);
    }
  }

  /** Writing a percentage as `(<n>%)` and scanning it gives n back, for every n up to 999. */
  lemma {:induction false} PercentRoundTrip(n: nat)
    requires n <= 999
    ensures Search("(" + NatToDecimal(n) + "%)") == Some(n)
  {
    var d := NatToDecimal(n);
    var s := "(" + d + "%)";
    assert Pow10(3) == 1000;
    NatToDecimalLength(n, 3);
    var L := |d|;
    assert s[1..1 + L] == d;
    assert s[1..1] == [] && s[1 + L..1 + L] == [] && s[2 + L..2 + L] == [];
    assert PatternAt(s, 0, 1, 1 + L, 1 + L, 2 + L);
    MatchAtComplete(s, 0, 1, 1 + L, 1 + L, 2 + L);
    DecimalRoundTrip(n);
  }

  /** The line esptool prints when a write completes is read as 100. */
  lemma HundredPercent()
    ensures Search("(100%)") == Some(100)
  {
    assert NatToDecimal(100) == "100" by {
      assert NatToDecimal(1) == "1";
      assert NatToDecimal(10) == "10";
    }
    assert "(" + NatToDecimal(100) + "%)" == "(100%)";
    PercentRoundTrip(100);
  }

  /** Four digits are never read as a percentage. */
  lemma FourDigitsNoProgress()
    ensures Search("(1234%)") == None
  {
    var s := "(1234%)";
    assert SkipSpaces(s, 1) == 1;
    assert SkipDigits(s, 1) == 5 by {
      SkipDigitsExact(s, 1, 5);
    }
    assert MatchAt(s, 0) == None;
    assert forall j | 1 <= j <= |s| :: MatchAt(s, j) == None;
  }
}
