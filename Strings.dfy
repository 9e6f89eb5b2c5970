/** The three pieces of Python string behaviour the dashboard relies on:
    `str.replace`, `str.upper` and the `f"{x:.1f}"` number format. */
module Strings {
  import opened Basics

  // ---------------------------------------------------------------------------
  // str.replace

  /** `pat` occurs in `s` starting at index `i`. */
  predicate OccursAt(s: string, pat: string, i: nat) {
    i + |pat| <= |s| && s[i..i + |pat|] == pat
  }

  ghost predicate Occurs(s: string, pat: string) {
    exists i: nat :: OccursAt(s, pat, i)
  }

  /** Python's `s.replace(pat, rep)` for a non-empty `pat`: the string is scanned
      from the left and every non-overlapping occurrence of `pat` is replaced. */
  function ReplaceAll(s: string, pat: string, rep: string): (r: string)
    requires |pat| > 0
    ensures |rep| == |pat| ==> |r| == |s|
    decreases |s|
  {
    if |s| < |pat| then s
    else if s[..|pat|] == pat then rep + ReplaceAll(s[|pat|..], pat, rep)
    else [s[0]] + ReplaceAll(s[1..], pat, rep)
  }

  /** A prefix without the pattern's first character is copied as it is. */
  lemma {:induction false} ReplaceAllSkipsPrefix(p: string, s: string, pat: string, rep: string)
    requires |pat| > 0 && pat[0] !in p
    ensures ReplaceAll(p + s, pat, rep) == p + ReplaceAll(s, pat, rep)
    decreases |p|
  {
    if |p| > 0 {
      var t := p + s;
      assert t[1..] == p[1..] + s;
      ReplaceAllSkipsPrefix(p[1..], s, pat, rep);
      assert p == [p[0]] + p[1..];
      if |pat| <= |t| {
        assert t[..|pat|][0] == p[0];
        assert ReplaceAll(t, pat, rep) == [t[0]] + ReplaceAll(t[1..], pat, rep);
        assert [p[0]] + (p[1..] + ReplaceAll(s, pat, rep)) == p + ReplaceAll(s, pat, rep);
      } else {
        assert ReplaceAll(s, pat, rep) == s;
      }
    } else {
      assert p + s == s;
    }
  }

  /** A string that starts with a mismatch on the pattern's second character keeps
      its first character. */
  lemma ReplaceAllMismatch(c: char, q: string, pat: string, rep: string)
    requires 1 < |pat| <= |q| + 1 && q[0] != pat[1]
    ensures ReplaceAll([c] + q, pat, rep) == [c] + ReplaceAll(q, pat, rep)
  {
    var s := [c] + q;
    assert s[..|pat|][1] == q[0];
    assert s[1..] == q;
  }

  /** The pattern alone becomes the replacement. */
  lemma ReplaceAllWhole(pat: string, rep: string)
    requires |pat| > 0
    ensures ReplaceAll(pat, pat, rep) == rep
  {
    assert pat[..|pat|] == pat;
    assert ReplaceAll(pat[|pat|..], pat, rep) == [];
  }

  /** An occurrence in a suffix is an occurrence in the whole string. */
  lemma OccursInSuffix(s: string, pat: string, k: nat)
    requires k <= |s| && Occurs(s[k..], pat)
    ensures Occurs(s, pat)
  {
    var i: nat :| OccursAt(s[k..], pat, i);
    assert s[k..][i..i + |pat|] == s[k + i..k + i + |pat|];
    assert OccursAt(s, pat, k + i);
  }

  /** A string without an occurrence has none in any suffix. */
  lemma NoOccurrenceInSuffix(s: string, pat: string, k: nat)
    requires k <= |s| && !Occurs(s, pat)
    ensures !Occurs(s[k..], pat)
  {
    forall i: nat ensures !OccursAt(s[k..], pat, i) {
      if i + |pat| <= |s| - k {
        assert s[k..][i..i + |pat|] == s[k + i..k + i + |pat|];
        assert !OccursAt(s, pat, k + i);
      }
    }
  }

  /** Without an occurrence at index 0, the occurrences are those of the tail. */
  lemma OccursShift(s: string, pat: string)
    requires |s| > 0 && !OccursAt(s, pat, 0)
    ensures Occurs(s, pat) <==> Occurs(s[1..], pat)
  {
    if Occurs(s, pat) {
      var i: nat :| OccursAt(s, pat, i);
      assert i > 0;
      assert s[1..][i - 1..i - 1 + |pat|] == s[i..i + |pat|];
      assert OccursAt(s[1..], pat, i - 1);
    }
    if Occurs(s[1..], pat) {
      OccursInSuffix(s, pat, 1);
    }
  }

  /** Replacing leaves a string alone exactly when the pattern does not occur in it
      (for a replacement of the same length that differs from the pattern). */
  lemma {:induction false} ReplaceAllIdentity(s: string, pat: string, rep: string)
    requires |pat| > 0 && |rep| == |pat| && rep != pat
    ensures ReplaceAll(s, pat, rep) == s <==> !Occurs(s, pat)
    decreases |s|
  {
    if |s| < |pat| {
      forall i: nat ensures !OccursAt(s, pat, i) {}
    } else if s[..|pat|] == pat {
      assert OccursAt(s, pat, 0);
      assert ReplaceAll(s, pat, rep)[..|pat|] == rep;
    } else {
      var t := ReplaceAll(s[1..], pat, rep);
      assert ReplaceAll(s, pat, rep) == [s[0]] + t;
      ReplaceAllIdentity(s[1..], pat, rep);
      OccursShift(s, pat);
      assert s == [s[0]] + s[1..];
      assert ([s[0]] + t)[1..] == t;
    }
  }

  /** As long as no character of a prefix of the result starts a replacement,
      that prefix was copied unchanged from the input. */
  lemma {:induction false} CopiedPrefix(t: string, pat: string, rep: string, m: nat)
    requires |pat| > 0 && |rep| > 0
    requires m <= |ReplaceAll(t, pat, rep)|
    requires forall k :: 0 <= k < m ==> ReplaceAll(t, pat, rep)[k] != rep[0]
    ensures m <= |t| && ReplaceAll(t, pat, rep)[..m] == t[..m]
    decreases |t|
  {
    var r := ReplaceAll(t, pat, rep);
    if m > 0 {
      assert r[0] != rep[0];
      if |pat| <= |t| {
        assert t[..|pat|] != pat;  // otherwise r would start with the replacement
        var r' := ReplaceAll(t[1..], pat, rep);
        assert r == [t[0]] + r';
        forall k | 0 <= k < m - 1 ensures r'[k] != rep[0] {
          assert r'[k] == r[k + 1];
        }
        CopiedPrefix(t[1..], pat, rep, m - 1);
        assert r[..m] == [t[0]] + r'[..m - 1];
        assert t[..m] == [t[0]] + t[1..][..m - 1];
      }
    }
  }

  /** After a replacement block no occurrence can start inside the block. */
  lemma NoOccurrenceAcrossReplacement(rep: string, r': string, q: string)
    requires |q| > 0 && q[0] !in rep && !Occurs(r', q)
    ensures !Occurs(rep + r', q)
  {
    var r := rep + r';
    forall i: nat ensures !OccursAt(r, q, i) {
      if i + |q| <= |r| {
        if i < |rep| {
          assert r[i..i + |q|][0] == rep[i];
        } else {
          assert r[i..i + |q|] == r'[i - |rep|..i - |rep| + |q|];
          assert !OccursAt(r', q, i - |rep|);
        }
      }
    }
  }

  /** A match at a copied character comes from a match in the input. */
  lemma MatchAtCopiedChar(c: char, s1: string, pat: string, rep: string, q: string)
    requires |pat| > 0 && |rep| > 0 && |q| > 0 && rep[0] !in q
    requires |q| <= 1 + |ReplaceAll(s1, pat, rep)|
    requires ([c] + ReplaceAll(s1, pat, rep))[..|q|] == q
    ensures |q| <= 1 + |s1| && ([c] + s1)[..|q|] == q
  {
    var r' := ReplaceAll(s1, pat, rep);
    var m := |q| - 1;
    forall k | 0 <= k < m ensures r'[k] != rep[0] {
      assert r'[k] == ([c] + r')[..|q|][k + 1] == q[k + 1];
    }
    CopiedPrefix(s1, pat, rep, m);
    assert ([c] + s1)[..|q|] == [c] + s1[..m];
    assert ([c] + r')[..|q|] == [c] + r'[..m];
  }

  /** Shared proof of the two facts below: after the scan, `q` does not occur when it is
      the pattern itself, or when it did not occur before and the replacement cannot
      complete or start an occurrence of it. */
  lemma {:induction false} NoOccurrenceAfterReplace(s: string, pat: string, rep: string, q: string)
    requires |pat| > 0 && |rep| > 0 && |q| > 0
    requires q[0] !in rep && rep[0] !in q
    requires q == pat || !Occurs(s, q)
    ensures !Occurs(ReplaceAll(s, pat, rep), q)
    decreases |s|
  {
    var r := ReplaceAll(s, pat, rep);
    if |s| < |pat| {
      if q == pat {
        forall i: nat ensures !OccursAt(s, q, i) {}
      }
    } else if s[..|pat|] == pat {
      var rest := s[|pat|..];
      if q != pat {
        NoOccurrenceInSuffix(s, q, |pat|);
      }
      NoOccurrenceAfterReplace(rest, pat, rep, q);
      NoOccurrenceAcrossReplacement(rep, ReplaceAll(rest, pat, rep), q);
    } else {
      var s1 := s[1..];
      if q != pat {
        NoOccurrenceInSuffix(s, q, 1);
      }
      NoOccurrenceAfterReplace(s1, pat, rep, q);
      var r' := ReplaceAll(s1, pat, rep);
      assert r == [s[0]] + r';
      assert s == [s[0]] + s1;
      assert q == pat || !OccursAt(s, q, 0);
      forall i: nat ensures !OccursAt(r, q, i) {
        if i + |q| <= |r| {
          if i > 0 {
            assert r[i..i + |q|] == r'[i - 1..i - 1 + |q|];
            assert !OccursAt(r', q, i - 1);
          } else if r[..|q|] == q {
            MatchAtCopiedChar(s[0], s1, pat, rep, q);
            assert false;
          }
        }
      }
    }
  }

  /** Every occurrence of the pattern is replaced: none is left in the result. */
  lemma ReplaceAllRemovesPattern(s: string, pat: string, rep: string)
    requires |pat| > 0 && |rep| > 0
    requires pat[0] !in rep && rep[0] !in pat
    ensures !Occurs(ReplaceAll(s, pat, rep), pat)
  {
    NoOccurrenceAfterReplace(s, pat, rep, pat);
  }

  /** Replacing one pattern does not create an occurrence of another one. */
  lemma ReplaceAllCreatesNoOccurrence(s: string, pat: string, rep: string, q: string)
    requires |pat| > 0 && |rep| > 0 && |q| > 0
    requires q[0] !in rep && rep[0] !in q
    requires !Occurs(s, q)
    ensures !Occurs(ReplaceAll(s, pat, rep), q)
  {
    NoOccurrenceAfterReplace(s, pat, rep, q);
  }

  /** Replacing a pattern by a string without the pattern's first character never
      adds that character, and removes one copy per replacement. */
  lemma {:induction false} ReplaceAllCountsFirstChar(s: string, pat: string, rep: string)
    requires |pat| > 0 && pat[0] !in rep
    ensures multiset(ReplaceAll(s, pat, rep))[pat[0]] <= multiset(s)[pat[0]]
    ensures ReplaceAll(s, pat, rep) != s ==> multiset(ReplaceAll(s, pat, rep))[pat[0]] < multiset(s)[pat[0]]
    decreases |s|
  {
    var c := pat[0];
    if |s| < |pat| {
    } else if s[..|pat|] == pat {
      var rest := s[|pat|..];
      ReplaceAllCountsFirstChar(rest, pat, rep);
      assert s == pat + rest;
      assert multiset(s)[c] == multiset(pat)[c] + multiset(rest)[c];
      assert pat[0] in multiset(pat);
      assert multiset(rep)[c] == 0;
      assert multiset(ReplaceAll(s, pat, rep))[c] == multiset(rep)[c] + multiset(ReplaceAll(rest, pat, rep))[c];
    } else {
      ReplaceAllCountsFirstChar(s[1..], pat, rep);
      assert s == [s[0]] + s[1..];
      assert multiset(s)[c] == multiset([s[0]])[c] + multiset(s[1..])[c];
      assert ReplaceAll(s, pat, rep) == [s[0]] + ReplaceAll(s[1..], pat, rep);
      assert multiset(ReplaceAll(s, pat, rep))[c] == multiset([s[0]])[c] + multiset(ReplaceAll(s[1..], pat, rep))[c];
    }
  }

  // ---------------------------------------------------------------------------
  // str.upper

  /** Python's upper-casing of one character, for ASCII and the Latin-1 letters
      with a one-character upper case; other characters are kept, including 'ß',
      which Python turns into "SS". */
  function UpperChar(c: char): char {
    if 'a' <= c <= 'z' || ('à' <= c <= 'þ' && c != '÷') then (c as int - 32) as char
    else if c == 'µ' then 'Μ'
    else if c == 'ÿ' then 'Ÿ'
    else c
  }

  /** Python's `s.upper()` (see UpperChar for the characters covered). */
  function Upper(s: string): (r: string)
    ensures |r| == |s|
    ensures forall i :: 0 <= i < |r| ==> !('a' <= r[i] <= 'z')
  {
    seq(|s|, i requires 0 <= i < |s| => UpperChar(s[i]))
  }

  /** Upper-casing twice is upper-casing once. */
  lemma UpperIdempotent(s: string)
    ensures Upper(Upper(s)) == Upper(s)
  {
    forall i | 0 <= i < |s|
      ensures Upper(Upper(s))[i] == Upper(s)[i]
    {
      assert UpperChar(UpperChar(s[i])) == UpperChar(s[i]);
    }
  }

  // ---------------------------------------------------------------------------
  // f"{x:.1f}"

  predicate IsDigit(c: char) { '0' <= c <= '9' }

  predicate AllDigits(s: string) { forall i :: 0 <= i < |s| ==> IsDigit(s[i]) }

  function DigitChar(d: nat): char
    requires d < 10
  {
    ('0' as int + d) as char
  }

  function DigitValue(c: char): nat
    requires IsDigit(c)
  {
    c as int - '0' as int
  }

  /** The decimal numeral of `n`, without leading zeros. */
  function DecimalDigits(n: nat): (r: string)
    ensures |r| > 0 && AllDigits(r)
    decreases n
  {
    if n < 10 then [DigitChar(n)] else DecimalDigits(n / 10) + [DigitChar(n % 10)]
  }

  /** The value of a string of decimal digits. */
  function DigitsValue(s: string): nat
    requires AllDigits(s)
    decreases |s|
  {
    if |s| == 0 then 0 else DigitsValue(s[..|s| - 1]) * 10 + DigitValue(s[|s| - 1])
  }

  lemma {:induction false} DigitsRoundTrip(n: nat)
    ensures DigitsValue(DecimalDigits(n)) == n
    decreases n
  {
    var s := DecimalDigits(n);
    if n >= 10 {
      assert s[..|s| - 1] == DecimalDigits(n / 10);
      DigitsRoundTrip(n / 10);
    }
  }

  function Abs(x: real): real { if x < 0.0 then -x else x }

  /** |x| in tenths, rounded to the nearest integer with ties to even (the rule
      Python's formatting applies to the exact value it formats). */
  function RoundedTenths(x: real): (t: nat)
    ensures -0.5 <= t as real - Abs(x) * 10.0 <= 0.5
  {
    var a := Abs(x) * 10.0;
    var f := a.Floor;
    assert 0 <= f by { assert 0.0 <= a; assert (0.0).Floor <= a.Floor; }
    var frac := a - f as real;
    if frac < 0.5 then f
    else if frac > 0.5 then f + 1
    else if f % 2 == 0 then f
    else f + 1
  }

  /** Python's `f"{x:.1f}"`: an optional minus sign (for any negative x, so that a
      small negative value reads "-0.0"), the integer part, a point and one digit. */
  function FormatOneDecimal(x: real): (r: string)
    ensures |r| >= 3 && r[|r| - 2] == '.' && IsDigit(r[|r| - 1])
    ensures r[0] == '-' <==> x < 0.0
  {
    var t := RoundedTenths(x);
    (if x < 0.0 then "-" else "") + DecimalDigits(t / 10) + "." + [DigitChar(t % 10)]
  }

  /** Reads back a string of the shape FormatOneDecimal produces. */
  function ParseOneDecimal(s: string): Option<real> {
    if |s| > 0 && s[0] == '-' then
      match ParseUnsigned(s[1..])
      case Some(v) => Some(-v)
      case None => None
    else ParseUnsigned(s)
  }

  function ParseUnsigned(s: string): Option<real> {
    if |s| >= 3 && s[|s| - 2] == '.' && IsDigit(s[|s| - 1]) && AllDigits(s[..|s| - 2]) then
      Some((DigitsValue(s[..|s| - 2]) * 10 + DigitValue(s[|s| - 1])) as real / 10.0)
    else None
  }

  /** The value a formatted reading shows: x rounded to one decimal. */
  function ShownValue(x: real): real {
    var t := RoundedTenths(x) as real / 10.0;
    if x < 0.0 then -t else t
  }

  /** The text of a reading reads back as x rounded to tenths, which is within
      0.05 of x. */
  lemma FormatReadsBack(x: real)
    ensures ParseOneDecimal(FormatOneDecimal(x)) == Some(ShownValue(x))
    ensures -0.05 <= ShownValue(x) - x <= 0.05
  {
    var t := RoundedTenths(x);
    var u := DecimalDigits(t / 10) + "." + [DigitChar(t % 10)];
    assert u[..|u| - 2] == DecimalDigits(t / 10);
    DigitsRoundTrip(t / 10);
    assert DigitValue(DigitChar(t % 10)) == t % 10;
    assert ParseUnsigned(u) == Some(t as real / 10.0);
    if x < 0.0 {
      assert FormatOneDecimal(x) == "-" + u;
      assert ("-" + u)[1..] == u;
    } else {
      assert FormatOneDecimal(x) == u;
      assert IsDigit(u[0]);
    }
  }

  /** A formatted reading is never the "--" placeholder. */
  lemma FormatIsNotPlaceholder(x: real)
    ensures FormatOneDecimal(x) != "--"
  {
  }
}
