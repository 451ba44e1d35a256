/**
 * The machine integers of the client and their decimal text: Rust's `{}`
 * formatting of integers and `str::parse` into `u8`, `i32` and `i64`.
 */
module Numerals {
  import opened Wrappers

  type U8 = x: int | 0 <= x < 0x100
  type U16 = x: int | 0 <= x < 0x1_0000
  type I32 = x: int | -0x8000_0000 <= x < 0x8000_0000
  type I64 = x: int | -0x8000_0000_0000_0000 <= x < 0x8000_0000_0000_0000

  predicate IsDigit(c: char) {
    '0' <= c <= '9'
  }

  predicate AllDigits(s: string) {
    forall k | 0 <= k < |s| :: IsDigit(s[k])
  }

  function DigitChar(d: nat): (c: char)
    requires d < 10
    ensures IsDigit(c) && c as int - '0' as int == d
  {
    ('0' as int + d) as char
  }

  /** The value of a string of decimal digits, leading zeros allowed. */
  function DigitsValue(s: string): nat
    requires AllDigits(s)
  {
    if s == [] then 0 else DigitsValue(s[..|s| - 1]) * 10 + (s[|s| - 1] as int - '0' as int)
  }

  /** Decimal text of `n` as Rust prints an unsigned integer: digits only, no leading zero. */
  function NatToString(n: nat): (s: string)
    ensures |s| >= 1 && AllDigits(s)
    ensures |s| > 1 ==> s[0] != '0'
    ensures DigitsValue(s) == n
  {
    if n < 10 then [DigitChar(n)]
    else
      var init := NatToString(n / 10);
      var s := init + [DigitChar(n % 10)];
      assert s[..|s| - 1] == init;
      s
  }

  /** Decimal text of `i` as Rust prints a signed integer: a '-' before a negative value. */
  function IntToString(i: int): (s: string)
    ensures |s| >= 1
    ensures forall k | 0 <= k < |s| :: IsDigit(s[k]) || (k == 0 && s[k] == '-')
    ensures (s[0] == '-') <==> i < 0
  {
    if i < 0 then "-" + NatToString(-i) else NatToString(i)
  }

  /** Decimal text holds none of the separators of a HEOS command or message. */
  lemma IntTextIsPlain(i: int)
    ensures '&' !in IntToString(i) && '=' !in IntToString(i) && '?' !in IntToString(i)
  {
    var t := IntToString(i);
    forall k | 0 <= k < |t| ensures t[k] != '&' && t[k] != '=' && t[k] != '?' {
    }
  }

  /**
   * Rust's `FromStr` for an unsigned type whose largest value is `max`: one
   * optional '+', then at least one decimal digit, and no overflow.
   */
  function ParseUnsigned(s: string, max: nat): (r: Option<nat>)
    ensures r.Some? ==> r.value <= max
    ensures r.Some? ==> exists d :: (d == s || "+" + d == s) && d != [] && AllDigits(d) && DigitsValue(d) == r.value
    ensures (exists d :: (d == s || "+" + d == s) && d != [] && AllDigits(d) && DigitsValue(d) <= max) ==> r.Some?
  {
    var digits := if |s| > 0 && s[0] == '+' then s[1..] else s;
    assert |s| > 0 && s[0] == '+' ==> "+" + digits == s;
    forall d | (d == s || "+" + d == s) && d != [] && AllDigits(d) ensures d == digits {
      if "+" + d == s {
        assert s[1..] == d;
      } else {
        assert IsDigit(d[0]);
      }
    }
    if digits != [] && AllDigits(digits) && DigitsValue(digits) <= max then Some(DigitsValue(digits)) else None
  }

  /**
   * Rust's `FromStr` for a signed type with range [min, max]: one optional
   * '+' or '-', then at least one decimal digit, and no overflow.
   */
  function ParseSigned(s: string, min: int, max: int): (r: Option<int>)
    requires min < 0 <= max
    ensures r.Some? ==> min <= r.value <= max
    ensures r.Some? && |s| > 0 && s[0] == '-' ==> s[1..] != [] && AllDigits(s[1..]) && r.value == 0 - DigitsValue(s[1..])
    ensures |s| > 0 && s[0] == '-' && s[1..] != [] && AllDigits(s[1..]) && DigitsValue(s[1..]) <= -min ==> r == Some(0 - DigitsValue(s[1..]))
    ensures !(|s| > 0 && s[0] == '-') ==> r == ParseUnsigned(s, max)
  {
    if |s| > 0 && s[0] == '-' then
      var digits := s[1..];
      if digits != [] && AllDigits(digits) && DigitsValue(digits) <= -min then Some(0 - DigitsValue(digits)) else None
    else
      match ParseUnsigned(s, max)
      case Some(v) => Some(v)
      case None => None
  }

  function ParseU8(s: string): (r: Option<U8>)
    ensures r.Some? <==> ParseUnsigned(s, 0xFF).Some?
    ensures r.Some? ==> r.value == ParseUnsigned(s, 0xFF).value
  {
    match ParseUnsigned(s, 0xFF)
    case Some(v) => Some(v)
    case None => None
  }

  function ParseI32(s: string): (r: Option<I32>)
    ensures r.Some? <==> ParseSigned(s, -0x8000_0000, 0x7FFF_FFFF).Some?
    ensures r.Some? ==> r.value == ParseSigned(s, -0x8000_0000, 0x7FFF_FFFF).value
  {
    match ParseSigned(s, -0x8000_0000, 0x7FFF_FFFF)
    case Some(v) => Some(v)
    case None => None
  }

  function ParseI64(s: string): (r: Option<I64>)
    ensures r.Some? <==> ParseSigned(s, -0x8000_0000_0000_0000, 0x7FFF_FFFF_FFFF_FFFF).Some?
    ensures r.Some? ==> r.value == ParseSigned(s, -0x8000_0000_0000_0000, 0x7FFF_FFFF_FFFF_FFFF).value
  {
    match ParseSigned(s, -0x8000_0000_0000_0000, 0x7FFF_FFFF_FFFF_FFFF)
    case Some(v) => Some(v)
    case None => None
  }

  /** Reading back what was printed gives the number again, for every width of the source. */
  lemma UnsignedRoundTrip(n: nat, max: nat)
    requires n <= max
    ensures ParseUnsigned(NatToString(n), max) == Some(n)
  {
  }

  lemma SignedRoundTrip(i: int, min: int, max: int)
    requires min < 0 <= max && min <= i <= max
    ensures ParseSigned(IntToString(i), min, max) == Some(i)
  {
    if i < 0 {
      assert IntToString(i)[1..] == NatToString(-i);
    } else {
      UnsignedRoundTrip(i, max);
    }
  }

  lemma U8RoundTrip(n: U8)
    ensures ParseU8(NatToString(n)) == Some(n)
  {
    UnsignedRoundTrip(n, 0xFF);
  }

  lemma I32RoundTrip(i: I32)
    ensures ParseI32(IntToString(i)) == Some(i)
  {
    SignedRoundTrip(i, -0x8000_0000, 0x7FFF_FFFF);
  }

  lemma I64RoundTrip(i: I64)
    ensures ParseI64(IntToString(i)) == Some(i)
  {
    SignedRoundTrip(i, -0x8000_0000_0000_0000, 0x7FFF_FFFF_FFFF_FFFF);
  }

  /** A leading '+' and leading zeros are accepted. */
  lemma ParseU8Accepts()
    ensures ParseU8("+7") == Some(7) && ParseU8("050") == Some(50)
  {
    assert DigitsValue("7") == 7;
    assert DigitsValue("05") == 5;
    assert DigitsValue("050") == 50;
  }

  /** Empty text, a bare sign, a minus sign and an overflow are refused. */
  lemma ParseU8Refuses()
    ensures ParseU8("") == None && ParseU8("+") == None && ParseU8("-1") == None && ParseU8("256") == None
  {
    assert DigitsValue("25") == 25;
    assert DigitsValue("256") == 256;
  }

  /** A signed parse takes a minus sign, but not alone and not before a non-digit. */
  lemma ParseI32Examples()
    ensures ParseI32("-3") == Some(-3) && ParseI32("-") == None && ParseI32("x") == None
  {
    assert DigitsValue("3") == 3;
  }
}
