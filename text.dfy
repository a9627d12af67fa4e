/** The two string conversions the adapter relies on: ASCII upper-casing
    (the position side) and base-10 rendering of an integer (the request
    timestamp, both in the signed message and in the `timestamp` header). */
module Text {

  predicate IsLower(c: char) {
    'a' <= c <= 'z'
  }

  /** ASCII upper-casing of one character; everything but `a`..`z` is kept. */
  function UpperChar(c: char): char {
    if IsLower(c) then (c as int - 32) as char else c
  }

  /** Upper-casing of a whole string, character by character. */
  function Upper(s: string): (r: string)
    ensures |r| == |s|
    ensures forall i :: 0 <= i < |r| ==> !IsLower(r[i])
    ensures forall i :: 0 <= i < |s| && !IsLower(s[i]) ==> r[i] == s[i]
    ensures forall i :: 0 <= i < |s| && IsLower(s[i]) ==> r[i] as int == s[i] as int - 32
  {
    if |s| == 0 then [] else [UpperChar(s[0])] + Upper(s[1..])
  }

  /** Upper-casing twice is upper-casing once. */
  lemma UpperIdempotent(s: string)
    ensures Upper(Upper(s)) == Upper(s)
  {
  }

  /** Every spelling of a word that differs only in letter case upper-cases
      to the same string. */
  lemma UpperIgnoresCase(s: string, t: string)
    requires |s| == |t|
    requires forall i :: 0 <= i < |s| ==> UpperChar(s[i]) == UpperChar(t[i])
    ensures Upper(s) == Upper(t)
  {
  }

  // ---------------------------------------------------------------------
  // Decimal numerals

  predicate IsDigit(c: char) {
    '0' <= c <= '9'
  }

  predicate AllDigits(s: string) {
    forall i :: 0 <= i < |s| ==> IsDigit(s[i])
  }

  /** A base-10 numeral as Go's `%d` verb and `strconv.FormatInt(n, 10)`
      write it: an optional minus sign, then digits without leading zeros. */
  predicate IsNumeral(s: string) {
    if |s| > 0 && s[0] == '-' then
      |s| >= 2 && AllDigits(s[1..]) && s[1] != '0'
    else
      |s| >= 1 && AllDigits(s) && (s[0] == '0' ==> |s| == 1)
  }

  function DigitChar(d: nat): (c: char)
    requires d < 10
    ensures IsDigit(c) && DigitValue(c) == d
  {
    ('0' as int + d) as char
  }

  function DigitValue(c: char): nat
    requires IsDigit(c)
  {
    c as int - '0' as int
  }

  function NatToDecimal(n: nat): (s: string)
    ensures |s| >= 1 && AllDigits(s)
    ensures s[0] == '0' ==> n == 0 && |s| == 1
    decreases n
  {
    if n < 10 then [DigitChar(n)] else NatToDecimal(n / 10) + [DigitChar(n % 10)]
  }

  /** The decimal text of an integer, with a leading `-` for negatives. */
  function IntToDecimal(n: int): (s: string)
    ensures IsNumeral(s)
    ensures s[0] == '-' <==> n < 0
  {
    if n < 0 then "-" + NatToDecimal(-n) else NatToDecimal(n)
  }

  /** Reading a digit string back as a number; the receiving side's view. */
  function ParseDigits(s: string): nat
    requires AllDigits(s)
  {
    if |s| == 0 then 0 else ParseDigits(s[..|s| - 1]) * 10 + DigitValue(s[|s| - 1])
  }

  function ParseNumeral(s: string): int
    requires IsNumeral(s)
  {
    if s[0] == '-' then -(ParseDigits(s[1..]) as int) else ParseDigits(s)
  }

  lemma {:induction false} ParseNatToDecimal(n: nat)
    ensures ParseDigits(NatToDecimal(n)) == n
    decreases n
  {
    var s := NatToDecimal(n);
    if n >= 10 {
      ParseNatToDecimal(n / 10);
      assert s[..|s| - 1] == NatToDecimal(n / 10);
    }
  }

  /** Rendering then reading back gives the original integer. */
  lemma ParseIntToDecimal(n: int)
    ensures ParseNumeral(IntToDecimal(n)) == n
  {
    var s := IntToDecimal(n);
    if n < 0 {
      ParseNatToDecimal(-n);
      assert s[1..] == NatToDecimal(-n);
    } else {
      ParseNatToDecimal(n);
    }
  }

  /** Distinct integers are written differently. */
  lemma IntToDecimalInjective(a: int, b: int)
    ensures IntToDecimal(a) == IntToDecimal(b) ==> a == b
  {
    ParseIntToDecimal(a);
    ParseIntToDecimal(b);
  }
}
