/** Decimal rendering of natural numbers, as JavaScript's template literals
    render a non-negative integer (`${i + 1}`): base ten, most significant
    digit first, no sign and no leading zeros.  ParseDecimal is its inverse,
    which makes the rendering injective. */
module Decimal {

  predicate IsDigit(c: char) {
    '0' <= c <= '9'
  }

  predicate AllDigits(s: string) {
    forall k :: 0 <= k < |s| ==> IsDigit(s[k])
  }

  /** Decimal text as a renderer writes it: at least one digit, and no
      leading zero unless the text is "0" itself. */
  predicate IsCanonical(s: string) {
    |s| >= 1 && AllDigits(s) && (s[0] != '0' || |s| == 1)
  }

  /** The character for a single digit. */
  function DigitChar(d: nat): (c: char)
    requires d < 10
    ensures IsDigit(c)
    ensures (c as int) - ('0' as int) == d
  {
    ('0' as int + d) as char
  }

  /** The value of a single digit character. */
  function DigitValue(c: char): (d: nat)
    requires IsDigit(c)
    ensures d < 10
    ensures DigitChar(d) == c
  {
    (c as int) - ('0' as int)
  }

  /** The decimal text of n: a non-empty string of digits whose first digit
      is '0' only when n itself is 0. */
  function NatToString(n: nat): (s: string)
    ensures |s| >= 1
    ensures AllDigits(s)
    ensures s[0] == '0' <==> n == 0
    ensures n < 10 <==> |s| == 1
    ensures IsCanonical(s)
  {
    if n < 10 then [DigitChar(n)]
    else NatToString(n / 10) + [DigitChar(n % 10)]
  }

  /** Reads a string of digits back as a number (the empty string reads as 0). */
  function ParseDecimal(s: string): (n: nat)
    requires AllDigits(s)
  {
    if |s| == 0 then 0
    else 10 * ParseDecimal(s[..|s| - 1]) + DigitValue(s[|s| - 1])
  }

  /** Rendering then reading gives back the number. */
  lemma {:induction false} ParseNatToString(n: nat)
    ensures ParseDecimal(NatToString(n)) == n
  {
    var s := NatToString(n);
    if n < 10 {
      assert s[..0] == [];
    } else {
      var t := NatToString(n / 10);
      assert s[..|s| - 1] == t;
      ParseNatToString(n / 10);
    }
  }

  /** A digit string that does not start with '0' denotes a positive number. */
  lemma {:induction false} ParseDecimalPositive(s: string)
    requires |s| >= 1 && AllDigits(s) && s[0] != '0'
    ensures ParseDecimal(s) >= 1
  {
    if |s| > 1 {
      ParseDecimalPositive(s[..|s| - 1]);
    }
  }

  /** Reading then rendering gives back any canonical digit string, so the
      rendered texts are exactly the canonical ones. */
  lemma {:induction false} NatToStringParse(s: string)
    requires IsCanonical(s)
    ensures NatToString(ParseDecimal(s)) == s
  {
    if |s| == 1 {
      assert s[..0] == [];
    } else {
      var t := s[..|s| - 1];
      ParseDecimalPositive(t);
      NatToStringParse(t);
      assert t + [s[|s| - 1]] == s;
    }
  }

  /** Distinct numbers have distinct decimal texts. */
  lemma NatToStringInjective(a: nat, b: nat)
    requires NatToString(a) == NatToString(b)
    ensures a == b
  {
    ParseNatToString(a);
    ParseNatToString(b);
  }
}
