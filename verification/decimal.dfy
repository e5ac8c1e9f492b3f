/** Decimal rendering of unsigned integers, as `u32::to_string` and the
    `{:0>2}` format specifier produce it, with a parser that inverts it. */
module Decimal {

  predicate IsDigit(c: char) { '0' <= c <= '9' }

  /** A string made of decimal digits only. */
  predicate DigitsOnly(s: string) {
    forall i :: 0 <= i < |s| ==> IsDigit(s[i])
  }

  function DigitValue(c: char): nat
    requires IsDigit(c)
  {
    c as int - '0' as int
  }

  function DigitChar(d: nat): (c: char)
    requires d < 10
    ensures IsDigit(c) && DigitValue(c) == d
  {
    ['0', '1', '2', '3', '4', '5', '6', '7', '8', '9'][d]
  }

  /** `n.to_string()`: the shortest decimal numeral of `n`. */
  function Dec(n: nat): (s: string)
    ensures |s| >= 1
    ensures n < 10 <==> |s| == 1
    ensures |s| > 1 ==> s[0] != '0'
  {
    if n < 10 then [DigitChar(n)] else Dec(n / 10) + [DigitChar(n % 10)]
  }

  /** The value of a string of digits, read most significant first. */
  function ParseDec(s: string): nat
    requires DigitsOnly(s)
  {
    if s == [] then 0
    else ParseDec(s[..|s| - 1]) * 10 + DigitValue(s[|s| - 1])
  }

  /** A rendered numeral is made of digits. */
  lemma {:induction false} DecDigits(n: nat)
    ensures DigitsOnly(Dec(n))
  {
    if n >= 10 {
      DecDigits(n / 10);
    }
  }

  /** Reading back a rendered numeral gives the number. */
  lemma {:induction false} ParseDecOfDec(n: nat)
    ensures DigitsOnly(Dec(n)) && ParseDec(Dec(n)) == n
  {
    var s := Dec(n);
    DecDigits(n);
    if n >= 10 {
      ParseDecOfDec(n / 10);
      assert s[..|s| - 1] == Dec(n / 10);
    }
  }

  /** Distinct numbers render to distinct numerals. */
  lemma DecInjective(m: nat, n: nat)
    requires Dec(m) == Dec(n)
    ensures m == n
  {
    ParseDecOfDec(m);
    ParseDecOfDec(n);
  }

  /** `format!("{s:0>2}")`: right-aligned in a field of width two, filled
      with '0'; longer strings are left as they are. */
  function PadTwo(s: string): (r: string)
    ensures |r| == if |s| < 2 then 2 else |s|
    ensures r[|r| - |s|..] == s
    ensures forall i :: 0 <= i < |r| - |s| ==> r[i] == '0'
  {
    if |s| == 0 then "00" else if |s| == 1 then ['0'] + s else s
  }

  /** A leading zero does not change the value of a numeral. */
  lemma {:induction false} ParseDecLeadingZero(s: string)
    requires DigitsOnly(s)
    ensures DigitsOnly(['0'] + s) && ParseDec(['0'] + s) == ParseDec(s)
  {
    if s != [] {
      assert (['0'] + s)[..|s|] == ['0'] + s[..|s| - 1];
      ParseDecLeadingZero(s[..|s| - 1]);
    }
  }

  /** The two-digit index used for mid-segment file names, `{i:0>2}`. */
  function Index2(i: nat): (r: string)
    ensures |r| >= 2 && IsDigit(r[0])
  {
    DecDigits(i);
    PadTwo(Dec(i))
  }

  /** A two-digit index is made of digits. */
  lemma Index2Digits(i: nat)
    ensures DigitsOnly(Index2(i))
  {
    DecDigits(i);
  }

  /** The padded numeral still reads back as the index. */
  lemma Index2RoundTrip(i: nat)
    ensures DigitsOnly(Index2(i)) && ParseDec(Index2(i)) == i
  {
    ParseDecOfDec(i);
    if i < 10 {
      ParseDecLeadingZero(Dec(i));
    }
  }

  /** Distinct indices give distinct two-digit names. */
  lemma Index2Injective(i: nat, j: nat)
    requires Index2(i) == Index2(j)
    ensures i == j
  {
    Index2RoundTrip(i);
    Index2RoundTrip(j);
  }
}
