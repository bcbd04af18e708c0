/**
 * Text helpers shared by the message builders: the substring relation used to
 * state what a message names, and the decimal rendering Python's f-strings give
 * an `int` (`str(n)`), together with its parser so that rendering is shown to
 * lose nothing.
 */
module Text {

  /** `part` occurs in `s` as a contiguous run of characters. */
  predicate Mentions(s: string, part: string) {
    exists i, j :: 0 <= i <= j <= |s| && s[i..j] == part
  }

  /** Whatever is glued around `part`, the result still mentions it. */
  lemma {:induction false} MentionsInside(before: string, part: string, after: string)
    ensures Mentions(before + part + after, part)
  {
    var s := before + part + after;
    assert s[|before|..|before| + |part|] == part;
  }

  predicate IsDigit(c: char) {
    '0' <= c <= '9'
  }

  predicate AllDigits(s: string) {
    forall i :: 0 <= i < |s| ==> IsDigit(s[i])
  }

  function DigitChar(d: nat): (c: char)
    requires d < 10
    ensures IsDigit(c)
  {
    ('0' as int + d) as char
  }

  function DigitValue(c: char): (d: nat)
    requires IsDigit(c)
    ensures d < 10
  {
    c as int - '0' as int
  }

  /** Decimal digits of `n`, most significant first, without leading zeros. */
  function NatText(n: nat): (s: string)
    ensures |s| >= 1 && AllDigits(s)
    ensures n > 0 ==> s[0] != '0'
  {
    if n < 10 then [DigitChar(n)] else NatText(n / 10) + [DigitChar(n % 10)]
  }

  /** `str(n)` for a Python `int`: a minus sign before the magnitude when negative. */
  function IntText(n: int): (s: string)
    ensures |s| >= 1
    ensures s[0] == '-' <==> n < 0
  {
    if n < 0 then "-" + NatText(-n) else NatText(n)
  }

  /** The inverse of NatText: the value of a run of decimal digits. */
  function ParseNat(s: string): nat
    requires AllDigits(s)
  {
    if s == [] then 0 else ParseNat(s[..|s| - 1]) * 10 + DigitValue(s[|s| - 1])
  }

  /** The inverse of IntText: an optional minus sign, then digits. */
  function ParseInt(s: string): (n: int)
    requires |s| >= 1
    requires s[0] == '-' ==> AllDigits(s[1..])
    requires s[0] != '-' ==> AllDigits(s)
  {
    if s[0] == '-' then 0 - ParseNat(s[1..]) else ParseNat(s) as int
  }

  lemma {:induction false} NatTextRoundTrip(n: nat)
    ensures ParseNat(NatText(n)) == n
  {
    var s := NatText(n);
    if n < 10 {
      assert s[..|s| - 1] == [];
    } else {
      NatTextRoundTrip(n / 10);
      assert s[..|s| - 1] == NatText(n / 10);
    }
  }

  /** Rendering an episode number and reading it back gives the number. */
  lemma IntTextRoundTrip(n: int)
    ensures var s := IntText(n);
      (s[0] == '-' ==> AllDigits(s[1..])) && (s[0] != '-' ==> AllDigits(s)) && ParseInt(s) == n
  {
    var s := IntText(n);
    if n < 0 {
      assert s[1..] == NatText(-n);
      NatTextRoundTrip(-n);
    } else {
      NatTextRoundTrip(n);
    }
  }

  /** Distinct episode numbers are rendered as distinct texts. */
  lemma IntTextInjective(a: int, b: int)
    requires IntText(a) == IntText(b)
    ensures a == b
  {
    IntTextRoundTrip(a);
    IntTextRoundTrip(b);
  }
}
