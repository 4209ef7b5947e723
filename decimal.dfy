/** Base-10 rendering of unsigned integers, as Go's strconv.FormatUint(n, 10)
    produces it, together with the parser that inverts it. */
module Decimal {

  predicate IsDigit(c: char) {
    '0' <= c <= '9'
  }

  predicate AllDigits(s: string) {
    forall i :: 0 <= i < |s| ==> IsDigit(s[i])
  }

  /** The shape FormatUint produces: at least one digit, and no leading zero
      unless the number is zero itself. */
  predicate Canonical(s: string) {
    |s| >= 1 && AllDigits(s) && (s[0] == '0' ==> |s| == 1)
  }

  function DigitChar(d: nat): (c: char)
    requires d < 10
    ensures IsDigit(c)
  {
    ('0' as int + d) as char
  }

  function DigitValue(c: char): (d: nat)
    requires IsDigit(c)
    ensures d < 10 && DigitChar(d) == c
  {
    c as int - '0' as int
  }

  /** strconv.FormatUint(n, 10): most significant digit first, no padding. */
  function FormatUint(n: nat): (s: string)
    ensures Canonical(s)
    ensures |s| == 1 <==> n < 10
    decreases n
  {
    if n < 10 then [DigitChar(n)] else FormatUint(n / 10) + [DigitChar(n % 10)]
  }

  /** Reads a string of digits as a base-10 number. */
  function ParseUint(s: string): (n: nat)
    requires AllDigits(s)
    decreases |s|
  {
    if s == [] then 0 else ParseUint(s[..|s| - 1]) * 10 + DigitValue(s[|s| - 1])
  }

  /** Parsing undoes formatting. */
  lemma {:induction false} ParseFormat(n: nat)
    ensures ParseUint(FormatUint(n)) == n
    decreases n
  {
    if n >= 10 {
      ParseFormat(n / 10);
      var s := FormatUint(n);
      assert s[..|s| - 1] == FormatUint(n / 10);
    }
  }

  /** Different numbers never render to the same string. */
  lemma FormatInjective(a: nat, b: nat)
    ensures FormatUint(a) == FormatUint(b) ==> a == b
  {
    ParseFormat(a);
    ParseFormat(b);
  }

  /** A canonical string with a non-zero leading digit denotes a positive number. */
  lemma {:induction false} ParsePositive(s: string)
    requires |s| >= 1 && AllDigits(s) && s[0] != '0'
    ensures ParseUint(s) >= 1
    decreases |s|
  {
    if |s| > 1 {
      ParsePositive(s[..|s| - 1]);
    }
  }

  /** Formatting undoes parsing on every canonical string: FormatUint is onto
      the canonical strings, so the two are mutually inverse. */
  lemma {:induction false} FormatParse(s: string)
    requires Canonical(s)
    ensures FormatUint(ParseUint(s)) == s
    decreases |s|
  {
    if |s| > 1 {
      var prefix := s[..|s| - 1];
      assert Canonical(prefix);
      FormatParse(prefix);
      ParsePositive(prefix);
      var n := ParseUint(s);
      assert n / 10 == ParseUint(prefix) && n % 10 == DigitValue(s[|s| - 1]);
      assert s == prefix + [s[|s| - 1]];
    }
  }
}
