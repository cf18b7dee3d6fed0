/**
 * Byte-level encodings used by the key-name shortener: the UTF-8 bytes a Go
 * conversion `[]byte(s)` yields for a string of runes, and the lower-case
 * hexadecimal text `%x` prints for a byte slice.
 */
module Encoding {
  import opened Wrappers

  type Byte = b: int | 0 <= b < 256

  predicate IsContinuation(b: Byte) {
    0x80 <= b < 0xC0
  }

  /** The UTF-8 encoding of one Unicode scalar value. */
  function EncodeRune(c: char): (r: seq<Byte>)
    ensures 1 <= |r| <= 4
    ensures |r| == 1 <==> c as int < 0x80
    ensures |r| == 2 <==> 0x80 <= c as int < 0x800
    ensures |r| == 3 <==> 0x800 <= c as int < 0x10000
    ensures |r| == 1 ==> r[0] < 0x80
    ensures |r| == 2 ==> 0xC0 <= r[0] < 0xE0
    ensures |r| == 3 ==> 0xE0 <= r[0] < 0xF0
    ensures |r| == 4 ==> 0xF0 <= r[0] < 0xF8
    ensures forall k :: 1 <= k < |r| ==> IsContinuation(r[k])
    ensures DecodeRune(r) == c as int
  {
    var n := c as int;
    if n < 0x80 then [n]
    else if n < 0x800 then
      [0xC0 + n / 64, 0x80 + n % 64]
    else if n < 0x10000 then
      [0xE0 + n / 4096, 0x80 + n / 64 % 64, 0x80 + n % 64]
    else
      SplitEighteen(n);
      [0xF0 + n / 262144, 0x80 + n / 4096 % 64, 0x80 + n / 64 % 64, 0x80 + n % 64]
  }

  lemma SplitSix(n: nat)
    ensures n == n / 64 * 64 + n % 64
  {
  }

  lemma SplitTwelve(n: nat)
    ensures n == n / 4096 * 4096 + n / 64 % 64 * 64 + n % 64
  {
  }

  lemma SplitEighteen(n: nat)
    ensures n == n / 262144 * 262144 + n / 4096 % 64 * 4096 + n / 64 % 64 * 64 + n % 64
  {
    var q := n / 64;
    SplitSix(n);
    SplitTwelve(q);
    assert q / 4096 == n / 262144;
    assert q / 64 == n / 4096;
  }

  /** The code point a one- to four-byte UTF-8 sequence stands for. */
  function DecodeRune(r: seq<Byte>): int
    requires 1 <= |r| <= 4
  {
    if |r| == 1 then r[0]
    else if |r| == 2 then (r[0] as int - 0xC0) * 64 + (r[1] as int - 0x80)
    else if |r| == 3 then (r[0] as int - 0xE0) * 4096 + (r[1] as int - 0x80) * 64 + (r[2] as int - 0x80)
    else (r[0] as int - 0xF0) * 262144 + (r[1] as int - 0x80) * 4096 + (r[2] as int - 0x80) * 64 + (r[3] as int - 0x80)
  }

  /** `[]byte(s)`: the UTF-8 encoding of a string of runes. */
  function Utf8(s: string): (r: seq<Byte>)
    ensures |s| <= |r| <= 4 * |s|
    ensures (forall i :: 0 <= i < |s| ==> s[i] as int < 0x80) ==> |r| == |s|
  {
    if s == [] then [] else EncodeRune(s[0]) + Utf8(s[1..])
  }

  /** The first byte of a rune's encoding tells how many bytes it has, so equal encodings are of equal runes. */
  lemma EncodeRunePrefixFree(a: char, b: char, x: seq<Byte>, y: seq<Byte>)
    requires EncodeRune(a) + x == EncodeRune(b) + y
    ensures a == b && x == y
  {
    var ea, eb := EncodeRune(a), EncodeRune(b);
    assert ea[0] == (ea + x)[0] == (eb + y)[0] == eb[0];
    assert |ea| == |eb|;
    assert ea == (ea + x)[..|ea|] == (eb + y)[..|eb|] == eb;
    assert x == (ea + x)[|ea|..] == (eb + y)[|eb|..] == y;
  }

  /** `[]byte(s)` is injective: distinct strings have distinct UTF-8 bytes. */
  lemma {:induction false} Utf8Injective(a: string, b: string)
    ensures Utf8(a) == Utf8(b) <==> a == b
  {
    if Utf8(a) == Utf8(b) && a != [] && b != [] {
      EncodeRunePrefixFree(a[0], b[0], Utf8(a[1..]), Utf8(b[1..]));
      Utf8Injective(a[1..], b[1..]);
      assert a == [a[0]] + a[1..] && b == [b[0]] + b[1..];
    }
  }

  predicate IsLowerHexDigit(c: char) {
    '0' <= c <= '9' || 'a' <= c <= 'f'
  }

  function HexDigit(v: nat): (c: char)
    requires v < 16
    ensures IsLowerHexDigit(c)
  {
    if v < 10 then ('0' as int + v) as char else ('a' as int + v - 10) as char
  }

  function HexValue(c: char): (v: nat)
    requires IsLowerHexDigit(c)
    ensures v < 16 && HexDigit(v) == c
  {
    if c <= '9' then c as int - '0' as int else c as int - 'a' as int + 10
  }

  /** `%x` of a byte slice: two lower-case hexadecimal digits per byte, high nibble first. */
  function LowerHex(bs: seq<Byte>): (r: string)
    ensures |r| == 2 * |bs|
    ensures forall i :: 0 <= i < |r| ==> IsLowerHexDigit(r[i])
  {
    if bs == [] then [] else [HexDigit(bs[0] / 16), HexDigit(bs[0] % 16)] + LowerHex(bs[1..])
  }

  /** Reads hexadecimal text back into bytes; None when it is not pairs of lower-case hex digits. */
  function ReadHex(s: string): Option<seq<Byte>> {
    if s == [] then Some([])
    else if |s| < 2 || !IsLowerHexDigit(s[0]) || !IsLowerHexDigit(s[1]) then None
    else match ReadHex(s[2..])
      case None => None
      case Some(rest) => Some([HexValue(s[0]) * 16 + HexValue(s[1])] + rest)
  }

  lemma {:induction false} ReadHexOfLowerHex(bs: seq<Byte>)
    ensures ReadHex(LowerHex(bs)) == Some(bs)
  {
    if bs != [] {
      var r := LowerHex(bs);
      assert r[2..] == LowerHex(bs[1..]);
      ReadHexOfLowerHex(bs[1..]);
      assert HexValue(r[0]) == bs[0] / 16 && HexValue(r[1]) == bs[0] % 16;
      assert [bs[0]] + bs[1..] == bs;
    }
  }

  /** Distinct byte strings print as distinct hexadecimal text. */
  lemma LowerHexInjective(a: seq<Byte>, b: seq<Byte>)
    ensures LowerHex(a) == LowerHex(b) <==> a == b
  {
    ReadHexOfLowerHex(a);
    ReadHexOfLowerHex(b);
  }
}
