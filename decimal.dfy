/**
 * Decimal notation of natural numbers, as the controller uses it: the text of a
 * channel number whose digits are pressed one by one, and the parsing of a
 * numeric media identifier into a channel number. Only ASCII digits are modelled.
 */
module Decimal {

  predicate IsDigit(c: char)
  {
    '0' <= c <= '9'
  }

  /** Every character is a digit (the empty string included). */
  predicate AllDigits(s: string)
  {
    forall i :: 0 <= i < |s| ==> IsDigit(s[i])
  }

  /** A non-empty string of digits: the strings that pass the numeric check on a media identifier. */
  predicate IsNumeric(s: string)
  {
    |s| > 0 && AllDigits(s)
  }

  function DigitValue(c: char): (d: nat)
    requires IsDigit(c)
    ensures d < 10
  {
    c as int - '0' as int
  }

  function DigitChar(d: nat): (c: char)
    requires d < 10
    ensures IsDigit(c) && DigitValue(c) == d
  {
    ('0' as int + d) as char
  }

  lemma DigitCharOfValue(c: char)
    requires IsDigit(c)
    ensures DigitChar(DigitValue(c)) == c
  {
  }

  /** The decimal text of n, most significant digit first. */
  function ToDecimal(n: nat): (s: string)
    ensures IsNumeric(s)
    ensures |s| == 1 <==> n < 10
    ensures s[0] == '0' ==> n == 0 && s == "0"
    decreases n
  {
    if n < 10 then [DigitChar(n)]
    else ToDecimal(n / 10) + [DigitChar(n % 10)]
  }

  /** The number a string of digits denotes; leading zeros are allowed. */
  function ParseDecimal(s: string): nat
    requires AllDigits(s)
    decreases |s|
  {
    if s == [] then 0
    else 10 * ParseDecimal(s[..|s| - 1]) + DigitValue(s[|s| - 1])
  }

  /** Parsing the decimal text of a number gives that number back. */
  lemma {:induction false} ParseToDecimal(n: nat)
    ensures ParseDecimal(ToDecimal(n)) == n
    decreases n
  {
    var s := ToDecimal(n);
    if n < 10 {
      assert s[..0] == [];
    } else {
      ParseToDecimal(n / 10);
      assert s[..|s| - 1] == ToDecimal(n / 10);
    }
  }

  /** A string of digits with a non-zero leading digit denotes a positive number. */
  lemma {:induction false} ParsePositive(s: string)
    requires IsNumeric(s) && s[0] != '0'
    ensures ParseDecimal(s) > 0
    decreases |s|
  {
    if |s| > 1 {
      var p := s[..|s| - 1];
      assert p[0] == s[0];
      ParsePositive(p);
    }
  }

  /** A canonical decimal string (no leading zero unless it is "0") is the decimal text of the number it denotes. */
  lemma {:induction false} ToDecimalParse(s: string)
    requires IsNumeric(s) && (|s| == 1 || s[0] != '0')
    ensures ToDecimal(ParseDecimal(s)) == s
    decreases |s|
  {
    var p, c := s[..|s| - 1], s[|s| - 1];
    if |s| == 1 {
      assert p == [];
      DigitCharOfValue(c);
      assert s == [c];
    } else {
      assert p[0] == s[0];
      ToDecimalParse(p);
      ParsePositive(p);
      var n := ParseDecimal(s);
      assert n == 10 * ParseDecimal(p) + DigitValue(c);
      assert n / 10 == ParseDecimal(p) && n % 10 == DigitValue(c);
      DigitCharOfValue(c);
      assert s == p + [c];
    }
  }

  /** A number from 1 to 999 has one to three digits and no leading zero. */
  lemma DigitCount(n: nat)
    requires 1 <= n <= 999
    ensures 1 <= |ToDecimal(n)| <= 3 && ToDecimal(n)[0] != '0'
  {
    if n >= 10 {
      assert |ToDecimal(n)| == |ToDecimal(n / 10)| + 1;
      if n >= 100 {
        assert |ToDecimal(n / 10)| == |ToDecimal(n / 100)| + 1;
      }
    }
  }
}
