/**
 * The two parts of Node's runtime that the login handler uses to compare
 * passwords: `Buffer.from(string)`, which encodes a string as UTF-8, and
 * `crypto.timingSafeEqual`, which compares two buffers of equal length and
 * throws a RangeError when their lengths differ.
 */
module Buffers {
  import opened Wrappers

  type Byte = b: int | 0 <= b < 0x100

  /** The error `timingSafeEqual` throws for buffers of different byte lengths. */
  const TimingSafeEqualLengthError := "ERR_CRYPTO_TIMING_SAFE_EQUAL_LENGTH"

  /** The number of bytes of a UTF-8 sequence, read off its lead byte. */
  function SequenceLength(lead: Byte): nat
  {
    if lead < 0x80 then 1 else if lead < 0xE0 then 2 else if lead < 0xF0 then 3 else 4
  }

  /** The UTF-8 encoding of one Unicode scalar value. */
  function EncodeChar(c: char): (bytes: seq<Byte>)
    ensures |bytes| == (if c as int < 0x80 then 1 else if c as int < 0x800 then 2
                        else if c as int < 0x1_0000 then 3 else 4)
    ensures |bytes| == SequenceLength(bytes[0])
    ensures forall k :: 1 <= k < |bytes| ==> 0x80 <= bytes[k] < 0xC0
  {
    var cp := c as int;
    if cp < 0x80 then [cp]
    else if cp < 0x800 then [0xC0 + cp / 64, 0x80 + cp % 64]
    else if cp < 0x1_0000 then [0xE0 + cp / 64 / 64, 0x80 + cp / 64 % 64, 0x80 + cp % 64]
    else [0xF0 + cp / 64 / 64 / 64, 0x80 + cp / 64 / 64 % 64, 0x80 + cp / 64 % 64, 0x80 + cp % 64]
  }

  /** The scalar value a well-formed UTF-8 sequence of one to four bytes stands for. */
  function DecodeScalar(bytes: seq<Byte>): int
    requires 1 <= |bytes| <= 4
  {
    if |bytes| == 1 then bytes[0] as int
    else if |bytes| == 2 then (bytes[0] as int - 0xC0) * 64 + (bytes[1] as int - 0x80)
    else if |bytes| == 3 then ((bytes[0] as int - 0xE0) * 64 + (bytes[1] as int - 0x80)) * 64 + (bytes[2] as int - 0x80)
    else (((bytes[0] as int - 0xF0) * 64 + (bytes[1] as int - 0x80)) * 64 + (bytes[2] as int - 0x80)) * 64 + (bytes[3] as int - 0x80)
  }

  /** Decoding undoes the encoding of a single character. */
  lemma DecodeEncodeChar(c: char)
    ensures DecodeScalar(EncodeChar(c)) == c as int
  {
    var cp := c as int;
    if cp >= 0x80 {
      assert cp == cp / 64 * 64 + cp % 64;
      var q := cp / 64;
      assert q == q / 64 * 64 + q % 64;
      var q2 := q / 64;
      assert q2 == q2 / 64 * 64 + q2 % 64;
    }
  }

  /** `Buffer.from(s)`: the UTF-8 encoding of a string. */
  function Utf8(s: string): (bytes: seq<Byte>)
    ensures |bytes| >= |s|
    ensures bytes == [] <==> s == []
  {
    if s == [] then [] else EncodeChar(s[0]) + Utf8(s[1..])
  }

  /** Two strings with the same UTF-8 encoding are the same string. */
  lemma {:induction false} Utf8Injective(s: string, t: string)
    requires Utf8(s) == Utf8(t)
    ensures s == t
  {
    if s != [] {
      var a, b := EncodeChar(s[0]), EncodeChar(t[0]);
      assert Utf8(s) == a + Utf8(s[1..]);
      assert Utf8(t) == b + Utf8(t[1..]);
      assert a[0] == Utf8(s)[0] == b[0];
      assert |a| == |b|;
      assert a == Utf8(s)[..|a|] == b;
      DecodeEncodeChar(s[0]);
      DecodeEncodeChar(t[0]);
      assert Utf8(s[1..]) == Utf8(s)[|a|..] == Utf8(t[1..]);
      Utf8Injective(s[1..], t[1..]);
      assert s == [s[0]] + s[1..];
      assert t == [t[0]] + t[1..];
    }
  }

  /** `crypto.timingSafeEqual(a, b)`: whether two buffers hold the same bytes; throws when their lengths differ. */
  function TimingSafeEqual(a: seq<Byte>, b: seq<Byte>): (r: Result<bool, string>)
    ensures r.Failure? <==> |a| != |b|
    ensures r == Success(true) <==> a == b
  {
    if |a| != |b| then Failure(TimingSafeEqualLengthError) else Success(a == b)
  }
}
