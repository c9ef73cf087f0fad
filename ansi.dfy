/** The Flet variant's `ANSI_ESCAPE_REGEX.sub('', data)` with the pattern
    `\x1B\[[?0-9;]*[a-zA-Z]`: an ESC, a `[`, any run of `?`, digits and `;`,
    then one ASCII letter (a subset of the control sequences of ECMA-48,
    section 5.4).  `re.sub` scans left to right and removes non-overlapping
    matches; a parameter character is never a letter, so at each position the
    regex matches iff the whole parameter run is followed by a letter. */
module Ansi {
  import opened Text

  const Esc: char := '\U{1b}'

  predicate IsParam(c: char) { c == '?' || IsDigit(c) || c == ';' }

  predicate IsLetter(c: char) { ('a' <= c <= 'z') || ('A' <= c <= 'Z') }

  /** First position at or after i that is not a parameter character. */
  function SkipParams(s: string, i: nat): (j: nat)
    requires i <= |s|
    ensures i <= j <= |s|
    ensures forall k | i <= k < j :: IsParam(s[k])
    ensures j < |s| ==> !IsParam(s[j])
    decreases |s| - i
  {
    if i < |s| && IsParam(s[i]) then SkipParams(s, i + 1) else i
  }

  /** Length of the escape sequence at the start of s, or 0 if none starts there. */
  function EscapeLength(s: string): (n: nat)
    ensures n <= |s|
  {
    if 2 <= |s| && s[0] == Esc && s[1] == '[' then
      var j := SkipParams(s, 2);
      if j < |s| && IsLetter(s[j]) then j + 1 else 0
    else 0
  }

  /** The pattern, read declaratively, as a whole string. */
  ghost predicate IsEscapeSequence(x: string) {
    && |x| >= 3 && x[0] == Esc && x[1] == '['
    && (forall k | 2 <= k < |x| - 1 :: IsParam(x[k]))
    && IsLetter(x[|x| - 1])
  }

  /** A non-zero length is exactly an escape sequence, and the only one starting there. */
  lemma EscapeLengthSpec(s: string, m: nat)
    requires m <= |s|
    ensures EscapeLength(s) > 0 ==> IsEscapeSequence(s[..EscapeLength(s)])
    ensures IsEscapeSequence(s[..m]) ==> EscapeLength(s) == m
  {
    if IsEscapeSequence(s[..m]) {
      assert s[m - 1] == s[..m][m - 1];
      assert forall k | 2 <= k < m - 1 :: IsParam(s[k]) by {
        forall k | 2 <= k < m - 1 ensures IsParam(s[k]) {
          assert s[k] == s[..m][k];
        }
      }
      SkipParamsExact(s, 2, m - 1);
    }
  }

  lemma SkipParamsExact(s: string, i: nat, j: nat)
    requires i <= j < |s| && (forall k | i <= k < j :: IsParam(s[k])) && !IsParam(s[j])
    ensures SkipParams(s, i) == j
    decreases j - i
  {
    if i < j {
      SkipParamsExact(s, i + 1, j);
    }
  }

  /** `ANSI_ESCAPE_REGEX.sub('', s)` */
  function Strip(s: string): (r: string)
    ensures |r| <= |s|
    decreases |s|
  {
    if s == [] then []
    else if EscapeLength(s) > 0 then Strip(s[EscapeLength(s)..])
    else [s[0]] + Strip(s[1..])
  }

  /** a can be obtained from b by deleting characters. */
  predicate IsSubsequence(a: string, b: string)
    decreases |b|
  {
    if a == [] then true
    else if b == [] then false
    else (a[0] == b[0] && IsSubsequence(a[1..], b[1..])) || IsSubsequence(a, b[1..])
  }

  lemma {:induction false} SubsequenceOfLonger(a: string, p: string, b: string)
    requires IsSubsequence(a, b)
    ensures IsSubsequence(a, p + b)
    decreases |p|
  {
    if p != [] {
      SubsequenceOfLonger(a, p[1..], b);
      assert (p + b)[1..] == p[1..] + b;
      if a != [] {
        var pb := p + b;
        assert pb != [] && IsSubsequence(a, pb[1..]);
        assert IsSubsequence(a, pb);
      }
    } else {
      assert p + b == b;
    }
  }

  /** Stripping only deletes characters: the output is a subsequence of the input. */
  lemma {:induction false} StripIsSubsequence(s: string)
    ensures IsSubsequence(Strip(s), s)
    decreases |s|
  {
    if s != [] {
      var n := EscapeLength(s);
      if n > 0 {
        StripIsSubsequence(s[n..]);
        SubsequenceOfLonger(Strip(s[n..]), s[..n], s[n..]);
        assert s[..n] + s[n..] == s;
      } else {
        StripIsSubsequence(s[1..]);
        var r := Strip(s);
        assert r[0] == s[0] && r[1..] == Strip(s[1..]);
      }
    }
  }

  predicate EscFree(s: string) { forall k | 0 <= k < |s| :: s[k] != Esc }

  /** No escape sequence starts anywhere in s. */
  predicate NoEscapeSequence(s: string) { forall i | 0 <= i <= |s| :: EscapeLength(s[i..]) == 0 }

  /** Text with no escape sequence is left unchanged ... */
  lemma {:induction false} StripNoSequence(s: string)
    requires NoEscapeSequence(s)
    ensures Strip(s) == s
    decreases |s|
  {
    if s != [] {
      assert EscapeLength(s[0..]) == 0 && s[0..] == s;
      assert forall i | 0 <= i <= |s[1..]| :: s[1..][i..] == s[i + 1..];
      StripNoSequence(s[1..]);
    }
  }

  /** ... and text with one is shortened, so the output equals the input iff no sequence occurs. */
  lemma {:induction false} StripShortens(s: string, i: nat)
    requires i <= |s| && EscapeLength(s[i..]) > 0
    ensures |Strip(s)| < |s|
    decreases |s|
  {
    if EscapeLength(s) == 0 {
      assert i > 0;
      assert s[1..][i - 1..] == s[i..];
      StripShortens(s[1..], i - 1);
    }
  }

  lemma StripUnchangedIff(s: string)
    ensures Strip(s) == s <==> NoEscapeSequence(s)
  {
    if NoEscapeSequence(s) {
      StripNoSequence(s);
    } else {
      var i :| 0 <= i <= |s| && EscapeLength(s[i..]) != 0;
      StripShortens(s, i);
    }
  }

  /** In particular text without ESC passes through unchanged. */
  lemma StripEscFree(s: string)
    requires EscFree(s)
    ensures Strip(s) == s
  {
    forall i | 0 <= i <= |s| ensures EscapeLength(s[i..]) == 0 {
      if i < |s| {
        assert s[i..][0] == s[i];
      }
    }
    StripNoSequence(s);
  }

  /** Stripping is not idempotent: removing an inner sequence can splice a new one together. */
  lemma StripNotIdempotent()
    ensures Strip([Esc, Esc, '[', '1', 'm', '[', '2', 'm']) == [Esc, '[', '2', 'm']
    ensures Strip([Esc, '[', '2', 'm']) == []
  {
    var s := [Esc, Esc, '[', '1', 'm', '[', '2', 'm'];
    var t := s[1..];
    assert SkipParams(t, 2) == 3;
    assert EscapeLength(t) == 4;
    var tail := t[4..];
    assert tail == ['[', '2', 'm'];
    assert Strip(tail[2..]) == ['m'];
    assert Strip(tail[1..]) == ['2', 'm'];
    assert Strip(tail) == ['[', '2', 'm'];
    assert Strip(t) == Strip(tail);
    assert EscapeLength(s) == 0;
    assert Strip(s) == [Esc] + Strip(t);
    var u := [Esc, '[', '2', 'm'];
    assert SkipParams(u, 2) == 3;
    assert EscapeLength(u) == 4;
  }
}
