/**
 * Bytes and their lower-case hexadecimal text, as produced by `digest('hex')` and
 * read back by `Buffer.from(s, 'hex')`.
 */
module Hex {

  newtype byte = x: int | 0 <= x < 256

  predicate IsHexDigit(c: char) {
    '0' <= c <= '9' || 'a' <= c <= 'f'
  }

  /** `/^[a-f0-9]*$/` */
  predicate IsLowerHex(s: string) {
    forall i :: 0 <= i < |s| ==> IsHexDigit(s[i])
  }

  function DigitChar(n: int): (c: char)
    requires 0 <= n < 16
    ensures IsHexDigit(c)
  {
    if n < 10 then ('0' as int + n) as char else ('a' as int + n - 10) as char
  }

  function DigitValue(c: char): (n: int)
    requires IsHexDigit(c)
    ensures 0 <= n < 16
  {
    if c <= '9' then c as int - '0' as int else c as int - 'a' as int + 10
  }

  lemma DigitRoundTrip(n: int, c: char)
    requires 0 <= n < 16 && IsHexDigit(c)
    ensures DigitValue(DigitChar(n)) == n
    ensures DigitChar(DigitValue(c)) == c
  {
  }

  /** Lower-case hex of a byte string, two digits per byte, high nibble first. */
  function Encode(b: seq<byte>): (s: string)
    ensures |s| == 2 * |b|
    ensures IsLowerHex(s)
  {
    if b == [] then ""
    else [DigitChar(b[0] as int / 16), DigitChar(b[0] as int % 16)] + Encode(b[1..])
  }

  /** The bytes of an even-length lower-case hex string. */
  function Decode(s: string): (b: seq<byte>)
    requires IsLowerHex(s) && |s| % 2 == 0
    ensures |b| == |s| / 2
  {
    if s == [] then []
    else [(DigitValue(s[0]) * 16 + DigitValue(s[1])) as byte] + Decode(s[2..])
  }

  lemma {:induction false} DecodeEncode(b: seq<byte>)
    ensures Decode(Encode(b)) == b
  {
    if b != [] {
      var s := Encode(b);
      assert s[2..] == Encode(b[1..]);
      DigitRoundTrip(b[0] as int / 16, '0');
      DigitRoundTrip(b[0] as int % 16, '0');
      DecodeEncode(b[1..]);
    }
  }

  lemma {:induction false} EncodeDecode(s: string)
    requires IsLowerHex(s) && |s| % 2 == 0
    ensures Encode(Decode(s)) == s
  {
    if s != [] {
      var b := Decode(s);
      var x := DigitValue(s[0]) * 16 + DigitValue(s[1]);
      assert b[0] as int == x;
      assert x / 16 == DigitValue(s[0]) && x % 16 == DigitValue(s[1]);
      DigitRoundTrip(0, s[0]);
      DigitRoundTrip(0, s[1]);
      assert b[1..] == Decode(s[2..]);
      EncodeDecode(s[2..]);
      assert s == [s[0], s[1]] + s[2..];
    }
  }

  /** Two well-formed signatures decode to the same bytes only when they are the same text,
      so changing any character of a signature changes the bytes compared. */
  lemma DecodeInjective(s: string, t: string)
    requires IsLowerHex(s) && |s| % 2 == 0
    requires IsLowerHex(t) && |t| % 2 == 0
    ensures Decode(s) == Decode(t) ==> s == t
  {
    EncodeDecode(s);
    EncodeDecode(t);
  }
}
