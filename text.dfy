/**
  Character and string primitives the pipeline relies on: ASCII `str.lower()`,
  substring search (`kw in text`), the character classes `\d` and `\s` of the
  regular expressions, and decimal conversion (`int(digits)` and `str(n)`).
  Only ASCII behaviour is modelled.
 */
module Text {

  /** `c.lower()` for ASCII letters; every other character is left alone. */
  function Lower(c: char): (r: char)
    ensures 'A' <= c <= 'Z' ==> r as int == c as int + 32
    ensures !('A' <= c <= 'Z') ==> r == c
  {
    if 'A' <= c <= 'Z' then (c as int + 32) as char else c
  }

  /** `s.lower()`, character by character. */
  function LowerStr(s: string): string
  {
    if s == [] then [] else [Lower(s[0])] + LowerStr(s[1..])
  }

  lemma {:induction false} LowerStrAt(s: string)
    ensures |LowerStr(s)| == |s|
    ensures forall i :: 0 <= i < |s| ==> LowerStr(s)[i] == Lower(s[i])
  {
    if s != [] {
      LowerStrAt(s[1..]);
    }
  }

  /** `LowerStr` is determined character by character. */
  lemma LowerStrIs(s: string, t: string)
    requires |s| == |t| && forall i :: 0 <= i < |s| ==> Lower(s[i]) == t[i]
    ensures LowerStr(s) == t
  {
    LowerStrAt(s);
  }

  /** Lower-casing twice is lower-casing once. */
  lemma {:induction false} LowerStrIdempotent(s: string)
    ensures LowerStr(LowerStr(s)) == LowerStr(s)
  {
    if s != [] {
      LowerStrIdempotent(s[1..]);
    }
  }

  /** `pat` occurs in `s` starting at position `i`. */
  predicate OccursAt(s: string, pat: string, i: int)
  {
    0 <= i && i + |pat| <= |s| && forall j :: 0 <= j < |pat| ==> s[i + j] == pat[j]
  }

  /** `pat in s` for strings: `pat` occurs somewhere in `s` as a contiguous block. */
  predicate Contains(s: string, pat: string)
  {
    exists i | 0 <= i <= |s| - |pat| :: OccursAt(s, pat, i)
  }

  /** A pattern found in `a` is still found once text is added on either side. */
  lemma ContainsExtend(a: string, b: string, pat: string)
    requires Contains(a, pat)
    ensures Contains(a + b, pat) && Contains(b + a, pat)
  {
    var i :| 0 <= i <= |a| - |pat| && OccursAt(a, pat, i);
    assert OccursAt(a + b, pat, i);
    assert OccursAt(b + a, pat, |b| + i);
  }

  /** A lower-case pattern found in `s` is still found once `s` is lower-cased. */
  lemma ContainsLower(s: string, pat: string)
    requires LowerStr(pat) == pat
    ensures Contains(s, pat) ==> Contains(LowerStr(s), pat)
  {
    if Contains(s, pat) {
      var i :| 0 <= i <= |s| - |pat| && OccursAt(s, pat, i);
      LowerStrAt(s);
      LowerStrAt(pat);
      forall j | 0 <= j < |pat|
        ensures LowerStr(s)[i + j] == pat[j]
      {
        assert LowerStr(pat)[j] == Lower(pat[j]);
      }
      assert OccursAt(LowerStr(s), pat, i);
    }
  }

  /** A pattern with a character that `s` lacks does not occur in `s`. */
  lemma AbsentChar(s: string, pat: string, k: nat)
    requires k < |pat| && pat[k] !in s
    ensures !Contains(s, pat)
  {
    forall i | 0 <= i <= |s| - |pat|
      ensures !OccursAt(s, pat, i)
    {
      assert s[i + k] in s;
    }
  }

  /** A pattern with two adjacent characters that never stand side by side in `s` does not occur in `s`. */
  lemma AbsentPair(s: string, pat: string, k: nat)
    requires k + 1 < |pat|
    requires forall i :: 0 <= i < |s| - 1 ==> !(s[i] == pat[k] && s[i + 1] == pat[k + 1])
    ensures !Contains(s, pat)
  {
    forall i | 0 <= i <= |s| - |pat|
      ensures !OccursAt(s, pat, i)
    {
      assert !(s[i + k] == pat[k] && s[i + k + 1] == pat[k + 1]);
    }
  }

  /** `\d` restricted to ASCII. */
  predicate IsDigit(c: char) { '0' <= c <= '9' }

  /**
    `\s` restricted to ASCII: space, tab, line feed, vertical tab, form feed,
    carriage return, and the separators 0x1C to 0x1F, which Python's `str`
    patterns also count as whitespace.
   */
  predicate IsSpace(c: char) { c == ' ' || '\t' <= c <= '\r' || 28 <= c as int <= 31 }

  predicate AllDigits(s: string) { forall i :: 0 <= i < |s| ==> IsDigit(s[i]) }

  function DigitValue(c: char): (d: nat)
    requires IsDigit(c)
    ensures d < 10
  {
    c as int - '0' as int
  }

  function DigitChar(d: nat): (c: char)
    requires d < 10
    ensures IsDigit(c) && DigitValue(c) == d
  {
    ('0' as int + d) as char
  }

  /** `int(s)` for a string of decimal digits (leading zeros allowed; the empty string is 0). */
  function DigitsValue(s: string): nat
    requires AllDigits(s)
  {
    if s == [] then 0 else DigitsValue(s[..|s| - 1]) * 10 + DigitValue(s[|s| - 1])
  }

  /** `str(n)` for a natural number. */
  function NatToString(n: nat): (s: string)
    ensures s != [] && AllDigits(s)
  {
    if n < 10 then [DigitChar(n)] else NatToString(n / 10) + [DigitChar(n % 10)]
  }

  /** `int(str(n)) == n`: decimal printing and parsing are inverse. */
  lemma {:induction false} NatToStringRoundTrip(n: nat)
    ensures DigitsValue(NatToString(n)) == n
  {
    var s := NatToString(n);
    if n < 10 {
      assert s[..0] == [];
    } else {
      NatToStringRoundTrip(n / 10);
      assert s[..|s| - 1] == NatToString(n / 10);
    }
  }

  /** Distinct numbers print differently. */
  lemma NatToStringInjective(m: nat, n: nat)
    requires m != n
    ensures NatToString(m) != NatToString(n)
  {
    NatToStringRoundTrip(m);
    NatToStringRoundTrip(n);
  }
}
