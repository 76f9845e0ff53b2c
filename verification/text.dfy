/** Text rendering that the service's messages and addresses rely on:
    ASCII case mapping (`str.upper`, `str.lower`), decimal rendering of an
    integer (`str(int)` inside an f-string) and lowercase hexadecimal
    rendering of bytes (`hexdigest()`). */
module Text {
  import opened Common

  predicate IsDigit(c: char) { '0' <= c <= '9' }

  predicate IsLowerHexDigit(c: char) { '0' <= c <= '9' || 'a' <= c <= 'f' }

  // ---------------------------------------------------------------- case

  /** ASCII case mapping: a letter of the source case moves to the same
      letter of the other case (upper case when `toUpper`); any other
      character is unchanged. */
  function MapCase(c: char, toUpper: bool): (m: char)
    ensures var (lo, hi, target) := if toUpper then ('a', 'z', 'A') else ('A', 'Z', 'a');
      && (lo <= c <= hi ==> target <= m <= (target as int + 25) as char && m as int - c as int == target as int - lo as int)
      && (!(lo <= c <= hi) ==> m == c)
  {
    var (lo, hi, target) := if toUpper then ('a', 'z', 'A') else ('A', 'Z', 'a');
    if lo <= c <= hi then (c as int - lo as int + target as int) as char else c
  }

  /** `str.upper` on one character. */
  function ToUpper(c: char): char { MapCase(c, true) }

  /** `str.lower` on one character. */
  function ToLower(c: char): char { MapCase(c, false) }

  // ---------------------------------------------------------------- decimal

  function DigitChar(d: int): (c: char)
    requires 0 <= d < 10
    ensures IsDigit(c) && c as int - '0' as int == d
  {
    (d + '0' as int) as char
  }

  function DigitValue(c: char): (d: nat)
    requires IsDigit(c)
    ensures d < 10 && DigitChar(d) == c
  {
    c as int - '0' as int
  }

  predicate AllDigits(s: string) { forall i :: 0 <= i < |s| ==> IsDigit(s[i]) }

  /** The decimal digits of a natural number, most significant first, with
      no leading zero. */
  function NatToDecimal(n: nat): (s: string)
    ensures |s| >= 1 && AllDigits(s)
    ensures |s| > 1 ==> s[0] != '0'
    decreases n
  {
    if n < 10 then [DigitChar(n)] else NatToDecimal(n / 10) + [DigitChar(n % 10)]
  }

  /** Python's `str(n)` for an integer: a minus sign for negative numbers,
      then the decimal digits of the magnitude. */
  function IntToDecimal(n: int): (s: string)
    ensures |s| >= 1
    ensures forall i :: 0 <= i < |s| ==> IsDigit(s[i]) || s[i] == '-'
    ensures (s[0] == '-') == (n < 0)
  {
    if n < 0 then "-" + NatToDecimal(-n) else NatToDecimal(n)
  }

  /** The value of a string of decimal digits (the reference reading of
      `NatToDecimal`). */
  function DigitsValue(s: string): nat
    requires AllDigits(s)
  {
    if s == [] then 0 else DigitsValue(s[..|s| - 1]) * 10 + DigitValue(s[|s| - 1])
  }

  /** Reads back an optionally signed decimal numeral; `None` for anything else. */
  function ParseDecimal(s: string): Option<int>
  {
    if |s| >= 2 && s[0] == '-' && AllDigits(s[1..]) then (var v: int := DigitsValue(s[1..]); Some(-v))
    else if |s| >= 1 && AllDigits(s) then Some(DigitsValue(s))
    else None
  }

  lemma {:induction false} NatToDecimalValue(n: nat)
    ensures DigitsValue(NatToDecimal(n)) == n
    decreases n
  {
    var s := NatToDecimal(n);
    if n >= 10 {
      NatToDecimalValue(n / 10);
      assert s[..|s| - 1] == NatToDecimal(n / 10);
    }
  }

  /** Rendering an integer and reading it back gives the integer again, so
      the rendering loses nothing. */
  lemma IntToDecimalRoundTrip(n: int)
    ensures ParseDecimal(IntToDecimal(n)) == Some(n)
  {
    var s := IntToDecimal(n);
    if n < 0 {
      NatToDecimalValue(-n);
      assert s[1..] == NatToDecimal(-n);
    } else {
      NatToDecimalValue(n);
    }
  }

  lemma IntToDecimalInjective(a: int, b: int)
    ensures IntToDecimal(a) == IntToDecimal(b) ==> a == b
  {
    IntToDecimalRoundTrip(a);
    IntToDecimalRoundTrip(b);
  }

  // ---------------------------------------------------------------- hex

  function HexChar(d: int): (c: char)
    requires 0 <= d < 16
    ensures IsLowerHexDigit(c)
  {
    if d < 10 then (d + '0' as int) as char else (d - 10 + 'a' as int) as char
  }

  /** Lowercase hexadecimal text of a byte string, two characters per byte,
      high nibble first, as `hashlib`'s `hexdigest()` renders a digest. */
  function HexEncode(b: Bytes): (s: string)
    ensures |s| == 2 * |b|
    ensures forall i :: 0 <= i < |s| ==> IsLowerHexDigit(s[i])
  {
    if b == [] then [] else [HexChar(b[0] / 16), HexChar(b[0] % 16)] + HexEncode(b[1..])
  }

  lemma {:induction false} HexEncodeAppend(a: Bytes, b: Bytes)
    ensures HexEncode(a + b) == HexEncode(a) + HexEncode(b)
    decreases |a|
  {
    if a != [] {
      assert (a + b)[0] == a[0] && (a + b)[1..] == a[1..] + b;
      HexEncodeAppend(a[1..], b);
      calc {
        HexEncode(a + b);
        [HexChar(a[0] / 16), HexChar(a[0] % 16)] + HexEncode(a[1..] + b);
        [HexChar(a[0] / 16), HexChar(a[0] % 16)] + (HexEncode(a[1..]) + HexEncode(b));
        HexEncode(a) + HexEncode(b);
      }
    } else {
      assert a + b == b;
    }
  }

  /** Hex text is read back two characters per byte. */
  function HexValue(c: char): (d: nat)
    requires IsLowerHexDigit(c)
    ensures d < 16 && HexChar(d) == c
  {
    if c <= '9' then c as int - '0' as int else c as int - 'a' as int + 10
  }

  function HexDecode(s: string): Bytes
    requires |s| % 2 == 0
    requires forall i :: 0 <= i < |s| ==> IsLowerHexDigit(s[i])
  {
    if s == [] then [] else [HexValue(s[0]) * 16 + HexValue(s[1])] + HexDecode(s[2..])
  }

  lemma {:induction false} HexRoundTrip(b: Bytes)
    ensures HexDecode(HexEncode(b)) == b
  {
    if b != [] {
      var s := HexEncode(b);
      assert s[2..] == HexEncode(b[1..]);
      HexRoundTrip(b[1..]);
    }
  }
}
