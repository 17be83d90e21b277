/**
 * The two conversions between java.lang.Long and its decimal string that the gateway
 * relies on: Long.valueOf(String) (through Long.parseLong with radix 10) when a token's
 * user claim is read, and Long.toString when the user id is put into a header.
 */
module JavaLong {
  import opened Wrappers

  const MinLong: int := -0x8000_0000_0000_0000
  const MaxLong: int := 0x7FFF_FFFF_FFFF_FFFF

  /** A signed 64-bit Java long. */
  type Long = x: int | MinLong <= x <= MaxLong

  predicate IsDigit(c: char) {
    '0' <= c <= '9'
  }

  predicate AllDigits(s: string) {
    forall i :: 0 <= i < |s| ==> IsDigit(s[i])
  }

  function DigitChar(d: nat): (c: char)
    requires d < 10
    ensures IsDigit(c)
  {
    ['0', '1', '2', '3', '4', '5', '6', '7', '8', '9'][d]
  }

  function DigitValue(c: char): (d: nat)
    requires IsDigit(c)
    ensures d < 10 && DigitChar(d) == c
  {
    (c as int - '0' as int)
  }

  /** The number a string of decimal digits denotes, most significant digit first. */
  function DigitsValue(s: string): nat
    requires AllDigits(s)
  {
    if s == [] then 0 else DigitsValue(s[..|s| - 1]) * 10 + DigitValue(s[|s| - 1])
  }

  /** The shortest decimal rendering of a natural number (no sign, no leading zero). */
  function NatToDecimal(n: nat): (s: string)
    ensures |s| > 0 && AllDigits(s)
  {
    if n < 10 then [DigitChar(n)] else NatToDecimal(n / 10) + [DigitChar(n % 10)]
  }

  /** Long.toString(n): a minus sign for negative numbers, then the decimal digits. */
  function ToString(n: Long): (s: string)
    ensures |s| > 0 && (s[0] == '-' <==> n < 0)
    ensures AllDigits(if n < 0 then s[1..] else s)
  {
    var digits := NatToDecimal(if n < 0 then -(n as int) else n);
    assert IsDigit(digits[0]);
    if n < 0 then assert ("-" + digits)[1..] == digits; "-" + digits else digits
  }

  /**
   * Long.parseLong(s, 10): an optional leading '-' or '+', then at least one decimal digit,
   * and the value must fit in 64 bits; every other string raises NumberFormatException (None).
   */
  function ParseLong(s: string): (r: Option<Long>)
    ensures r.Some? ==> |s| > 0 && (s[0] == '-' ==> r.value <= 0) && (s[0] != '-' ==> r.value >= 0)
    ensures s == [] || s == "-" || s == "+" ==> r == None
  {
    if |s| == 0 then None
    else
      var negative := s[0] == '-';
      var digits := if s[0] == '-' || s[0] == '+' then s[1..] else s;
      if |digits| == 0 || !AllDigits(digits) then None
      else
        var v: int := if negative then -(DigitsValue(digits) as int) else DigitsValue(digits);
        if MinLong <= v <= MaxLong then Some(v) else None
  }

  /** A decimal rendering without a plus sign, without a leading zero and without "-0". */
  predicate Canonical(s: string) {
    var digits := if |s| > 0 && s[0] == '-' then s[1..] else s;
    |digits| > 0 && AllDigits(digits)
    && (digits[0] == '0' ==> |digits| == 1)
    && (|s| > 0 && s[0] == '-' ==> digits != "0")
  }

  lemma {:induction false} NatToDecimalDenotes(n: nat)
    ensures |NatToDecimal(n)| > 0 && AllDigits(NatToDecimal(n))
    ensures NatToDecimal(n)[0] == '0' ==> n == 0
    ensures DigitsValue(NatToDecimal(n)) == n
  {
    if n >= 10 {
      NatToDecimalDenotes(n / 10);
      var s := NatToDecimal(n);
      assert s[..|s| - 1] == NatToDecimal(n / 10);
    }
  }

  /** A digit string that does not start with '0' denotes a positive number. */
  lemma {:induction false} LeadingNonZeroPositive(s: string)
    requires |s| > 0 && AllDigits(s) && s[0] != '0'
    ensures DigitsValue(s) > 0
  {
    if |s| > 1 {
      LeadingNonZeroPositive(s[..|s| - 1]);
    }
  }

  /** Distinct canonical digit strings denote distinct numbers: the rendering is the only one. */
  lemma {:induction false} DecimalUnique(s: string)
    requires |s| > 0 && AllDigits(s) && (s[0] == '0' ==> |s| == 1)
    ensures NatToDecimal(DigitsValue(s)) == s
  {
    var n := DigitsValue(s);
    if |s| > 1 {
      var init := s[..|s| - 1];
      LeadingNonZeroPositive(init);
      DecimalUnique(init);
      assert n / 10 == DigitsValue(init) && n % 10 == DigitValue(s[|s| - 1]);
      assert s == init + [s[|s| - 1]];
    }
  }

  /** Parsing the rendering of any 64-bit value gives that value back. */
  lemma ParseToStringRoundTrip(n: Long)
    ensures Canonical(ToString(n))
    ensures ParseLong(ToString(n)) == Some(n)
  {
    var m: nat := if n < 0 then -(n as int) else n;
    var d := NatToDecimal(m);
    NatToDecimalDenotes(m);
    assert !IsDigit('-') && !IsDigit('+');
    assert d[0] != '-' && d[0] != '+';
    assert d[0] == '0' ==> d == "0";
    if n < 0 {
      var s := "-" + d;
      assert s == ToString(n);
      assert s[1..] == d;
      assert d != "0";
    } else {
      assert d == ToString(n);
    }
  }

  /** Conversely, every canonical string that parses is the rendering of its value. */
  lemma ToStringParseRoundTrip(s: string)
    requires Canonical(s) && ParseLong(s).Some?
    ensures ToString(ParseLong(s).value) == s
  {
    var n := ParseLong(s).value;
    if s[0] == '-' {
      DecimalUnique(s[1..]);
      LeadingNonZeroPositive(s[1..]);
      assert s == "-" + s[1..];
    } else {
      DecimalUnique(s);
    }
  }

  /** A leading zero adds nothing to the value of a digit string. */
  lemma {:induction false} LeadingZeroValue(s: string)
    requires AllDigits(s)
    ensures AllDigits("0" + s) && DigitsValue("0" + s) == DigitsValue(s)
  {
    if s != [] {
      LeadingZeroValue(s[..|s| - 1]);
      assert ("0" + s)[..|s|] == "0" + s[..|s| - 1];
    }
  }

  /** A plus sign or a leading zero in front of a digit string does not change what it parses to. */
  lemma PaddingKeepsValue(s: string)
    requires |s| > 0 && AllDigits(s)
    ensures ParseLong("+" + s) == ParseLong(s)
    ensures ParseLong("0" + s) == ParseLong(s)
  {
    assert ("+" + s)[1..] == s;
    LeadingZeroValue(s);
  }

  /** Leading zeros and a plus sign are accepted, as Long.parseLong does. */
  lemma ParseLongAcceptsPaddedForms()
    ensures ParseLong("007") == Some(7)
    ensures ParseLong("+42") == Some(42)
    ensures ParseLong("-0") == Some(0)
  {
    assert "007"[..2] == "00" && "00"[..1] == "0";
    assert DigitsValue("007") == 7;
    assert "+42"[1..] == "42" && "42"[..1] == "4";
    assert DigitsValue("42") == 42;
    assert "-0"[1..] == "0";
  }

  /** A value outside 64 bits is rejected, however it is written. */
  lemma ParseLongRejectsOverflow(s: string)
    requires |s| > 0 && AllDigits(s) && DigitsValue(s) > MaxLong
    ensures ParseLong(s) == None
    ensures ParseLong("+" + s) == None
  {
    assert ("+" + s)[1..] == s;
  }

  /** A string with a character that is not a decimal digit after the sign is rejected. */
  lemma ParseLongRejectsNonDigit(s: string, i: nat)
    requires 0 < i < |s| && !IsDigit(s[i])
    ensures ParseLong(s) == None
  {
    var digits := if s[0] == '-' || s[0] == '+' then s[1..] else s;
    assert !IsDigit(digits[i - (|s| - |digits|)]);
  }
}
