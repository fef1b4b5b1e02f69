/**
 * UTF-8 (section 3 of RFC 3629), the byte form `encodeURIComponent` and
 * `TextEncoder` give a string; used by the corrected cache key.
 */
module Utf8 {
  import opened Base64

  /** The bytes of one Unicode scalar value. */
  function EncodeChar(c: char): (b: seq<byte>)
    ensures 1 <= |b| <= 4 && |b| == Width(b[0])
  {
    var n := c as int;
    if n < 0x80 then [n as byte]
    else if n < 0x800 then [(0xC0 + n / 64) as byte, (0x80 + n % 64) as byte]
    else if n < 0x10000 then
      [(0xE0 + n / 4096) as byte, (0x80 + (n / 64) % 64) as byte, (0x80 + n % 64) as byte]
    else
      [(0xF0 + n / 262144) as byte, (0x80 + (n / 4096) % 64) as byte,
       (0x80 + (n / 64) % 64) as byte, (0x80 + n % 64) as byte]
  }

  /** The length of an encoded character, read off its first byte. */
  function Width(lead: byte): nat
  {
    if lead < 0x80 then 1 else if lead < 0xE0 then 2 else if lead < 0xF0 then 3 else 4
  }

  /** The scalar value an encoded character stands for. */
  function DecodeChar(b: seq<byte>): int
    requires 1 <= |b| <= 4
  {
    if |b| == 1 then b[0] as int
    else if |b| == 2 then (b[0] as int - 0xC0) * 64 + (b[1] as int - 0x80)
    else if |b| == 3 then ((b[0] as int - 0xE0) * 64 + (b[1] as int - 0x80)) * 64 + (b[2] as int - 0x80)
    else (((b[0] as int - 0xF0) * 64 + (b[1] as int - 0x80)) * 64 + (b[2] as int - 0x80)) * 64 + (b[3] as int - 0x80)
  }

  lemma DecodeEncodeChar(c: char)
    ensures DecodeChar(EncodeChar(c)) == c as int
  {
    var n := c as int;
    if n >= 0x800 && n < 0x10000 {
      assert (n / 4096) * 64 + (n / 64) % 64 == n / 64;
    } else if n >= 0x10000 {
      assert (n / 262144) * 64 + (n / 4096) % 64 == n / 4096;
      assert (n / 4096) * 64 + (n / 64) % 64 == n / 64;
    }
  }

  /** UTF-8 encoding of a string. */
  function Encode(s: string): (b: seq<byte>)
    ensures s == [] <==> b == []
  {
    if s == [] then [] else EncodeChar(s[0]) + Encode(s[1..])
  }

  /** Different strings have different UTF-8 encodings. */
  lemma {:induction false} EncodeInjective(s: string, t: string)
    requires Encode(s) == Encode(t)
    ensures s == t
  {
    if s != [] {
      var a, b := EncodeChar(s[0]), EncodeChar(t[0]);
      assert Encode(s)[0] == a[0] && Encode(t)[0] == b[0];
      assert |a| == |b|;
      assert a == Encode(s)[..|a|] && b == Encode(t)[..|b|];
      DecodeEncodeChar(s[0]);
      DecodeEncodeChar(t[0]);
      assert Encode(s[1..]) == Encode(s)[|a|..] == Encode(t)[|b|..] == Encode(t[1..]);
      EncodeInjective(s[1..], t[1..]);
    }
  }

  predicate IsAscii(s: string)
  {
    forall i :: 0 <= i < |s| ==> s[i] as int < 0x80
  }

  /** On ASCII text, UTF-8 and the one-byte-per-character form of `btoa` agree. */
  lemma {:induction false} AsciiEncodesAsLatin1(s: string)
    requires IsAscii(s)
    ensures IsLatin1(s) && Encode(s) == Latin1Bytes(s)
  {
    if s != [] {
      assert IsAscii(s[1..]) by {
        forall i | 0 <= i < |s[1..]| ensures s[1..][i] as int < 0x80 {
          assert s[1..][i] == s[i + 1];
        }
      }
      AsciiEncodesAsLatin1(s[1..]);
    }
  }
}
