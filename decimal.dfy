/**
 * Decimal digit strings, as the leaderboard feed delivers ids, day keys,
 * star keys and epoch-second timestamps, and the decimal rendering of a
 * number that a message template interpolates.
 *
 * `Parse` is `parseInt` restricted to well-formed input (one or more ASCII
 * digits); `Show` is the JavaScript rendering of a non-negative integer.
 */
module Decimal {

  predicate IsDigit(c: char) {
    '0' <= c <= '9'
  }

  function DigitValue(c: char): (d: nat)
    requires IsDigit(c)
    ensures d < 10
  {
    (c as int) - ('0' as int)
  }

  function DigitChar(d: nat): (c: char)
    requires d < 10
    ensures IsDigit(c) && DigitValue(c) == d
  {
    (('0' as int) + d) as char
  }

  /** One or more decimal digits: what `parseInt` reads completely. */
  predicate IsDigits(s: string) {
    |s| > 0 && forall i :: 0 <= i < |s| ==> IsDigit(s[i])
  }

  /** The digits of a number as JavaScript prints it: no leading zero. */
  predicate IsCanonical(s: string) {
    IsDigits(s) && (s[0] == '0' ==> |s| == 1)
  }

  /** `parseInt(s)` for a string of decimal digits. */
  function Parse(s: string): nat
    requires IsDigits(s)
    decreases |s|
  {
    if |s| == 1 then DigitValue(s[0])
    else Parse(s[..|s| - 1]) * 10 + DigitValue(s[|s| - 1])
  }

  /** The decimal text of `n`, as a template literal `${n}` renders it. */
  function Show(n: nat): (s: string)
    ensures IsCanonical(s)
    ensures s[0] == '0' <==> n == 0
    decreases n
  {
    if n < 10 then [DigitChar(n)] else Show(n / 10) + [DigitChar(n % 10)]
  }

  /** Reading back what was printed gives the number. */
  lemma {:induction false} ParseShow(n: nat)
    ensures Parse(Show(n)) == n
    decreases n
  {
    if n >= 10 {
      var s := Show(n);
      assert s[..|s| - 1] == Show(n / 10);
      ParseShow(n / 10);
    }
  }

  /** A digit string that does not start with `0` denotes a positive number. */
  lemma {:induction false} LeadingDigitPositive(s: string)
    requires IsDigits(s) && s[0] != '0'
    ensures Parse(s) > 0
    decreases |s|
  {
    if |s| > 1 {
      LeadingDigitPositive(s[..|s| - 1]);
    }
  }

  /** Printing what was parsed gives the canonical text back. */
  lemma {:induction false} ShowParse(s: string)
    requires IsCanonical(s)
    ensures Show(Parse(s)) == s
    decreases |s|
  {
    if |s| > 1 {
      var init := s[..|s| - 1];
      assert IsCanonical(init);
      LeadingDigitPositive(init);
      ShowParse(init);
      var n := Parse(s);
      assert n / 10 == Parse(init) && n % 10 == DigitValue(s[|s| - 1]);
      assert s == init + [s[|s| - 1]];
    }
  }

  /**
   * `ShowParse` for any digit string, as an implication, so that a caller
   * that does not know whether its string is canonical can use it.
   */
  lemma PrintsBackIfCanonical(s: string)
    requires IsDigits(s)
    ensures IsCanonical(s) ==> Show(Parse(s)) == s
  {
    if IsCanonical(s) {
      ShowParse(s);
    }
  }

  /** Distinct canonical keys parse to distinct numbers. */
  lemma ParseInjective(a: string, b: string)
    requires IsCanonical(a) && IsCanonical(b)
    requires Parse(a) == Parse(b)
    ensures a == b
  {
    ShowParse(a);
    ShowParse(b);
  }
}
