/** Text of the scalar values the logger accepts: a 32-bit `int` in decimal,
    as the standard library's integer-to-string conversion writes it, and
    `bool` as a word. */
module Render {

  /** The source's `int`: 32 bits, two's complement. */
  newtype int32 = x: int | -0x8000_0000 <= x < 0x8000_0000

  predicate IsDigit(c: char) {
    '0' <= c <= '9'
  }

  /** A canonical decimal numeral: digits only, no leading zero except "0" itself. */
  predicate IsNumeral(s: string) {
    |s| > 0 && (forall i :: 0 <= i < |s| ==> IsDigit(s[i])) && (s[0] == '0' ==> |s| == 1)
  }

  function DigitChar(d: nat): (c: char)
    requires d < 10
    ensures IsDigit(c)
  {
    "0123456789"[d]
  }

  function DigitValue(c: char): nat
    requires IsDigit(c)
  {
    (c as int - '0' as int) as nat
  }

  /** Decimal digits of `n`, most significant first. */
  function NatToDecimal(n: nat): (s: string)
    ensures IsNumeral(s)
    ensures (n == 0) == (s == "0")
    decreases n
  {
    if n < 10 then [DigitChar(n)] else NatToDecimal(n / 10) + [DigitChar(n % 10)]
  }

  /** `std::to_string` of an integer: a minus sign before the digits of the
      magnitude when negative. */
  function IntToDecimal(v: int): (s: string)
    ensures |s| > 0
    ensures v < 0 <==> s[0] == '-'
    ensures v < 0 ==> IsNumeral(s[1..]) && s[1..] != "0"
    ensures v >= 0 ==> IsNumeral(s)
  {
    if v < 0 then
      var digits := NatToDecimal(-v);
      assert ("-" + digits)[1..] == digits;
      "-" + digits
    else NatToDecimal(v)
  }

  /** The text a boolean is logged as. */
  function BoolText(b: bool): (r: string)
    ensures b <==> r == "true"
    ensures !b <==> r == "false"
  {
    if b then "true" else "false"
  }

  /** Reads a string of digits back as a number; the partner of NatToDecimal. */
  function ParseNat(s: string): nat
    requires forall i :: 0 <= i < |s| ==> IsDigit(s[i])
    decreases |s|
  {
    if s == [] then 0 else ParseNat(s[..|s| - 1]) * 10 + DigitValue(s[|s| - 1])
  }

  /** Reads an optionally signed numeral back as an integer; the partner of IntToDecimal. */
  function ParseInt(s: string): int
    requires |s| > 0
    requires s[0] == '-' ==> forall i :: 1 <= i < |s| ==> IsDigit(s[i])
    requires s[0] != '-' ==> forall i :: 0 <= i < |s| ==> IsDigit(s[i])
  {
    if s[0] == '-' then -(ParseNat(s[1..]) as int) else ParseNat(s)
  }

  lemma DigitRoundTrip(d: nat)
    requires d < 10
    ensures DigitValue(DigitChar(d)) == d
  {
  }

  /** Parsing the decimal text of a number gives the number back. */
  lemma {:induction false} NatRoundTrip(n: nat)
    ensures ParseNat(NatToDecimal(n)) == n
    decreases n
  {
    var s := NatToDecimal(n);
    if n < 10 {
      DigitRoundTrip(n);
      assert s[..|s| - 1] == [];
    } else {
      NatRoundTrip(n / 10);
      DigitRoundTrip(n % 10);
      assert s[..|s| - 1] == NatToDecimal(n / 10);
    }
  }

  /** Rendering is the inverse of parsing on canonical numerals. */
  lemma {:induction false} NumeralRoundTrip(s: string)
    requires IsNumeral(s)
    ensures NatToDecimal(ParseNat(s)) == s
    decreases |s|
  {
    var init := s[..|s| - 1];
    var d := DigitValue(s[|s| - 1]);
    if |s| == 1 {
      assert s == [DigitChar(d)];
    } else {
      assert IsNumeral(init);
      NumeralRoundTrip(init);
      assert init[0] == s[0] != '0';
      assert ParseNat(init) > 0;
      var n := ParseNat(s);
      assert n / 10 == ParseNat(init) && n % 10 == d;
      assert s == init + [DigitChar(d)];
    }
  }

  /** Every integer's text, and so every 32-bit int's, reads back as that integer. */
  lemma IntRoundTrip(v: int)
    ensures ParseInt(IntToDecimal(v)) == v
  {
    if v < 0 {
      NegativeRoundTrip(-v);
    } else {
      NatRoundTrip(v);
    }
  }

  /** The text of a negative integer is a minus sign and its magnitude. */
  lemma NegativeRoundTrip(m: nat)
    requires m > 0
    ensures ParseInt(IntToDecimal(-(m as int))) == -(m as int)
  {
    var digits := NatToDecimal(m);
    NatRoundTrip(m);
    assert IntToDecimal(-(m as int)) == "-" + digits;
    assert ("-" + digits)[1..] == digits;
  }

  /** The integer of the library's data test. */
  lemma FortyTwo()
    ensures IntToDecimal(42) == "42"
  {
    assert NatToDecimal(4) == "4";
  }

  /** Different integers are logged as different texts. */
  lemma IntTextInjective(a: int, b: int)
    ensures IntToDecimal(a) == IntToDecimal(b) ==> a == b
  {
    IntRoundTrip(a);
    IntRoundTrip(b);
  }
}
