/**
 * PHP's `bin2hex`: every byte becomes two lower-case hexadecimal digits,
 * high nibble first. The random identifiers of the resolver are
 * `bin2hex(random_bytes(5))`, so they are ten such digits.
 */
module Hex {

  type byte = x: int | 0 <= x < 256

  /** The five bytes one `random_bytes(5)` call yields. */
  type Bytes5 = s: seq<byte> | |s| == 5 witness [0, 0, 0, 0, 0]

  predicate IsLowerHex(c: char) {
    '0' <= c <= '9' || 'a' <= c <= 'f'
  }

  predicate IsLowerHexString(s: string) {
    forall i :: 0 <= i < |s| ==> IsLowerHex(s[i])
  }

  function HexDigit(n: int): (c: char)
    requires 0 <= n < 16
    ensures IsLowerHex(c)
  {
    if n < 10 then ('0' as int + n) as char else ('a' as int + n - 10) as char
  }

  function DigitValue(c: char): (n: int)
    requires IsLowerHex(c)
    ensures 0 <= n < 16
    ensures HexDigit(n) == c
  {
    if c <= '9' then c as int - '0' as int else c as int - 'a' as int + 10
  }

  lemma DigitValueOfHexDigit(n: int)
    requires 0 <= n < 16
    ensures DigitValue(HexDigit(n)) == n
  {
  }

  /** `bin2hex`: two lower-case digits per byte, nothing else. */
  function Bin2Hex(b: seq<byte>): (h: string)
    ensures |h| == 2 * |b|
    ensures IsLowerHexString(h)
  {
    if b == [] then [] else [HexDigit(b[0] / 16), HexDigit(b[0] % 16)] + Bin2Hex(b[1..])
  }

  /** `hex2bin` on lower-case input: the inverse that makes `bin2hex` injective. */
  function Hex2Bin(h: string): (b: seq<byte>)
    requires |h| % 2 == 0 && IsLowerHexString(h)
    ensures 2 * |b| == |h|
  {
    if h == [] then [] else [DigitValue(h[0]) * 16 + DigitValue(h[1])] + Hex2Bin(h[2..])
  }

  lemma {:induction false} Hex2BinOfBin2Hex(b: seq<byte>)
    ensures Hex2Bin(Bin2Hex(b)) == b
  {
    if b != [] {
      var h := Bin2Hex(b);
      DigitValueOfHexDigit(b[0] / 16);
      DigitValueOfHexDigit(b[0] % 16);
      assert h[2..] == Bin2Hex(b[1..]);
      Hex2BinOfBin2Hex(b[1..]);
    }
  }

  lemma {:induction false} Bin2HexOfHex2Bin(h: string)
    requires |h| % 2 == 0 && IsLowerHexString(h)
    ensures Bin2Hex(Hex2Bin(h)) == h
  {
    if h != [] {
      var b := Hex2Bin(h);
      var v := DigitValue(h[0]) * 16 + DigitValue(h[1]);
      assert b[0] == v && b[1..] == Hex2Bin(h[2..]);
      assert v / 16 == DigitValue(h[0]) && v % 16 == DigitValue(h[1]);
      Bin2HexOfHex2Bin(h[2..]);
      assert h == [h[0], h[1]] + h[2..];
    }
  }

  /** Distinct entropy gives distinct identifiers. */
  lemma Bin2HexInjective(a: seq<byte>, b: seq<byte>)
    requires Bin2Hex(a) == Bin2Hex(b)
    ensures a == b
  {
    Hex2BinOfBin2Hex(a);
    Hex2BinOfBin2Hex(b);
  }

  /** One `bin2hex(random_bytes(5))` draw: ten lower-case hex digits. */
  function RandomIdentifier(draw: Bytes5): (id: string)
    ensures |id| == 10 && IsLowerHexString(id)
  {
    Bin2Hex(draw)
  }
}
