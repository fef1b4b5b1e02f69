/**
 * The base 64 encoding of section 4 of RFC 4648 (alphabet `A-Z a-z 0-9 + /`,
 * `=` padding) and the browser's `btoa`, which applies it to a string whose
 * characters are all at most U+00FF, taking each character as one byte, and
 * throws `InvalidCharacterError` otherwise.
 */
module Base64 {
  import opened Wrappers

  newtype byte = x: int | 0 <= x < 256

  type Sextet = x: int | 0 <= x < 64

  /** The character for a 6-bit value (Table 1 of RFC 4648). */
  function Symbol(k: Sextet): char
  {
    if k < 26 then ('A' as int + k) as char
    else if k < 52 then ('a' as int + (k - 26)) as char
    else if k < 62 then ('0' as int + (k - 52)) as char
    else if k == 62 then '+'
    else '/'
  }

  /** The 6-bit value of an alphabet character (the inverse of `Symbol`). */
  function SymbolValue(c: char): (r: Option<Sextet>)
    ensures r.Some? ==> Symbol(r.value) == c
  {
    if 'A' <= c <= 'Z' then Some(c as int - 'A' as int)
    else if 'a' <= c <= 'z' then Some(c as int - 'a' as int + 26)
    else if '0' <= c <= '9' then Some(c as int - '0' as int + 52)
    else if c == '+' then Some(62)
    else if c == '/' then Some(63)
    else None
  }

  lemma SymbolValueOfSymbol(k: Sextet)
    ensures SymbolValue(Symbol(k)) == Some(k)
  {
  }

  predicate IsAlphabet(c: char)
  {
    SymbolValue(c).Some?
  }

  // ---------------------------------------------------------------------------
  // Three bytes to four sextets and back

  function Split3(x: byte, y: byte, z: byte): seq<Sextet>
  {
    [(x / 4) as int, ((x % 4) * 16 + y / 16) as int, ((y % 16) * 4 + z / 64) as int, (z % 64) as int]
  }

  function Join3(a: Sextet, b: Sextet, c: Sextet, d: Sextet): seq<byte>
  {
    [(a * 4 + b / 16) as byte, ((b % 16) * 16 + c / 4) as byte, ((c % 4) * 64 + d) as byte]
  }

  lemma Join3OfSplit3(x: byte, y: byte, z: byte)
    ensures var s := Split3(x, y, z); Join3(s[0], s[1], s[2], s[3]) == [x, y, z]
  {
    var s := Split3(x, y, z);
    assert s[1] / 16 == (x % 4) as int;
    assert s[1] % 16 == (y / 16) as int;
    assert s[2] / 4 == (y % 16) as int;
    assert s[2] % 4 == (z / 64) as int;
  }

  function Chars(s: seq<Sextet>): (r: string)
    ensures |r| == |s|
    ensures forall i :: 0 <= i < |r| ==> IsAlphabet(r[i])
  {
    if s == [] then [] else
      SymbolValueOfSymbol(s[0]);
      [Symbol(s[0])] + Chars(s[1..])
  }

  // ---------------------------------------------------------------------------
  // Encoding

  /** Base 64 text of a byte string, with `=` padding of the final quantum. */
  function Encode(b: seq<byte>): (r: string)
    ensures |r| == 4 * ((|b| + 2) / 3)
  {
    if |b| == 0 then ""
    else if |b| == 1 then Chars(Split3(b[0], 0, 0)[..2]) + "=="
    else if |b| == 2 then Chars(Split3(b[0], b[1], 0)[..3]) + "="
    else Chars(Split3(b[0], b[1], b[2])) + Encode(b[3..])
  }

  /** Every character of the encoding is in the alphabet or is trailing padding. */
  lemma {:induction false} EncodeAlphabet(b: seq<byte>)
    ensures forall i :: 0 <= i < |Encode(b)| ==> IsAlphabet(Encode(b)[i]) || Encode(b)[i] == '='
    ensures forall i :: 0 <= i < |Encode(b)| && Encode(b)[i] == '=' ==> i >= |Encode(b)| - 2
  {
    if |b| >= 3 {
      EncodeAlphabet(b[3..]);
    }
  }

  // ---------------------------------------------------------------------------
  // Decoding

  function Values(s: string): (r: Option<seq<Sextet>>)
    ensures r.Some? ==> |r.value| == |s|
  {
    if s == [] then Some([])
    else match (SymbolValue(s[0]), Values(s[1..]))
      case (Some(k), Some(ks)) => Some([k] + ks)
      case _ => None
  }

  lemma {:induction false} ValuesOfChars(s: seq<Sextet>)
    ensures Values(Chars(s)) == Some(s)
  {
    if s != [] {
      var c := Chars(s);
      assert c[0] == Symbol(s[0]) && c[1..] == Chars(s[1..]);
      SymbolValueOfSymbol(s[0]);
      ValuesOfChars(s[1..]);
      assert s == [s[0]] + s[1..];
    }
  }

  /** Decodes one final quantum, which may carry one or two padding characters. */
  function DecodeLast(q: string): Option<seq<byte>>
    requires |q| == 4
  {
    if q[2..] == "==" then
      match Values(q[..2])
      case Some(v) => (if v[1] % 16 == 0 then Some(Join3(v[0], v[1], 0, 0)[..1]) else None)
      case None => None
    else if q[3] == '=' then
      match Values(q[..3])
      case Some(v) => (if v[2] % 4 == 0 then Some(Join3(v[0], v[1], v[2], 0)[..2]) else None)
      case None => None
    else
      match Values(q)
      case Some(v) => Some(Join3(v[0], v[1], v[2], v[3]))
      case None => None
  }

  /** Strict decoding: the length is a multiple of four and padding appears only at the end. */
  function Decode(s: string): Option<seq<byte>>
    decreases |s|
  {
    if s == [] then Some([])
    else if |s| < 4 then None
    else if |s| == 4 then DecodeLast(s)
    else
      match (Values(s[..4]), Decode(s[4..]))
      case (Some(v), Some(rest)) => Some(Join3(v[0], v[1], v[2], v[3]) + rest)
      case _ => None
  }

  lemma DecodeLastPad2(q: string, v: seq<Sextet>)
    requires |q| == 4 && q[2..] == "==" && |v| == 2 && Values(q[..2]) == Some(v) && v[1] % 16 == 0
    ensures DecodeLast(q) == Some(Join3(v[0], v[1], 0, 0)[..1])
  {
  }

  lemma DecodeLastPad1(q: string, v: seq<Sextet>)
    requires |q| == 4 && q[2] != '=' && q[3] == '=' && |v| == 3 && Values(q[..3]) == Some(v) && v[2] % 4 == 0
    ensures DecodeLast(q) == Some(Join3(v[0], v[1], v[2], 0)[..2])
  {
    assert q[2..] != "==" by { assert q[2..][0] == q[2]; }
  }

  lemma DecodeLastFull(q: string, v: seq<Sextet>)
    requires |q| == 4 && q[3] != '=' && |v| == 4 && Values(q) == Some(v)
    ensures DecodeLast(q) == Some(Join3(v[0], v[1], v[2], v[3]))
  {
    assert q[2..] != "==" by { assert q[2..][1] == q[3]; }
  }

  /** The sextets of one byte: the second is padded with zero bits, and they join back to the byte. */
  lemma SplitOneByte(x: byte)
    ensures var s := Split3(x, 0, 0); s[1] % 16 == 0 && Join3(s[0], s[1], 0, 0)[..1] == [x]
  {
    Join3OfSplit3(x, 0, 0);
  }

  /** The sextets of two bytes: the third is padded with zero bits, and they join back to the bytes. */
  lemma SplitTwoBytes(x: byte, y: byte)
    ensures var s := Split3(x, y, 0); s[2] % 4 == 0 && Join3(s[0], s[1], s[2], 0)[..2] == [x, y]
  {
    Join3OfSplit3(x, y, 0);
  }

  /** A final quantum with two padding characters decodes to the one byte its sextets hold. */
  lemma DecodePadded2(e: string, t: seq<Sextet>, b: seq<byte>)
    requires |t| == 2 && e == Chars(t) + "==" && t[1] % 16 == 0 && Join3(t[0], t[1], 0, 0)[..1] == b
    ensures Decode(e) == Some(b)
  {
    assert e[..2] == Chars(t) && e[2..] == "==";
    ValuesOfChars(t);
    DecodeLastPad2(e, t);
  }

  /** A final quantum with one padding character decodes to the two bytes its sextets hold. */
  lemma DecodePadded1(e: string, t: seq<Sextet>, b: seq<byte>)
    requires |t| == 3 && e == Chars(t) + "=" && t[2] % 4 == 0 && Join3(t[0], t[1], t[2], 0)[..2] == b
    ensures Decode(e) == Some(b)
  {
    assert e[..3] == Chars(t);
    assert e[2] != '=' by {
      assert IsAlphabet(e[2]) && !IsAlphabet('=');
    }
    ValuesOfChars(t);
    DecodeLastPad1(e, t);
  }

  lemma DecodeEncodeOne(b: seq<byte>)
    requires |b| == 1
    ensures Decode(Encode(b)) == Some(b)
  {
    SplitOneByte(b[0]);
    assert b == [b[0]];
    DecodePadded2(Encode(b), Split3(b[0], 0, 0)[..2], b);
  }

  lemma DecodeEncodeTwo(b: seq<byte>)
    requires |b| == 2
    ensures Decode(Encode(b)) == Some(b)
  {
    SplitTwoBytes(b[0], b[1]);
    assert b == [b[0], b[1]];
    DecodePadded1(Encode(b), Split3(b[0], b[1], 0)[..3], b);
  }

  /** A full quantum at the end decodes without padding. */
  lemma DecodeQuantum(e: string, s: seq<Sextet>)
    requires |s| == 4 && e == Chars(s)
    ensures Decode(e) == Some(Join3(s[0], s[1], s[2], s[3]))
  {
    assert e[3] != '=' by {
      assert IsAlphabet(e[3]) && !IsAlphabet('=');
    }
    ValuesOfChars(s);
    DecodeLastFull(e, s);
  }

  lemma Join3OfSplit3Seq(b: seq<byte>, s: seq<Sextet>)
    requires |b| == 3 && s == Split3(b[0], b[1], b[2])
    ensures Join3(s[0], s[1], s[2], s[3]) == b
  {
    Join3OfSplit3(b[0], b[1], b[2]);
  }

  lemma DecodeEncodeThree(b: seq<byte>)
    requires |b| == 3
    ensures Decode(Encode(b)) == Some(b)
  {
    var s := Split3(b[0], b[1], b[2]);
    var e := Encode(b);
    assert e == Chars(s) by {
      assert Encode(b[3..]) == "";
    }
    DecodeQuantum(e, s);
    Join3OfSplit3Seq(b, s);
  }

  /** Decoding recovers every encoded byte string. */
  lemma {:induction false} DecodeEncode(b: seq<byte>)
    ensures Decode(Encode(b)) == Some(b)
  {
    if |b| == 1 {
      DecodeEncodeOne(b);
    } else if |b| == 2 {
      DecodeEncodeTwo(b);
    } else if |b| == 3 {
      DecodeEncodeThree(b);
    } else if |b| > 3 {
      DecodeEncode(b[3..]);
      DecodeEncodeLonger(b);
    }
  }

  /** Past three bytes, the first quantum decodes to the first three bytes and the rest to the rest. */
  lemma {:induction false} DecodeEncodeLonger(b: seq<byte>)
    requires |b| > 3 && Decode(Encode(b[3..])) == Some(b[3..])
    ensures Decode(Encode(b)) == Some(b)
  {
    var e := Encode(b);
    var s := Split3(b[0], b[1], b[2]);
    ValuesOfChars(s);
    Join3OfSplit3(b[0], b[1], b[2]);
    assert e[..4] == Chars(s);
    assert e[4..] == Encode(b[3..]);
    DecodeFrontQuantum(e, s, b[3..]);
    assert b == [b[0], b[1], b[2]] + b[3..];
  }

  /** A full quantum in front of a decodable rest decodes to its three bytes and the rest. */
  lemma DecodeFrontQuantum(e: string, v: seq<Sextet>, rest: seq<byte>)
    requires |e| > 4 && Values(e[..4]) == Some(v) && Decode(e[4..]) == Some(rest)
    ensures |v| == 4 && Decode(e) == Some(Join3(v[0], v[1], v[2], v[3]) + rest)
  {
  }

  /** Different byte strings have different encodings. */
  lemma EncodeInjective(a: seq<byte>, b: seq<byte>)
    requires Encode(a) == Encode(b)
    ensures a == b
  {
    DecodeEncode(a);
    DecodeEncode(b);
  }

  // ---------------------------------------------------------------------------
  // btoa

  predicate IsLatin1(s: string)
  {
    forall i :: 0 <= i < |s| ==> s[i] as int < 256
  }

  /** The bytes of a Latin-1 string, one per character. */
  function Latin1Bytes(s: string): (b: seq<byte>)
    requires IsLatin1(s)
    ensures |b| == |s|
    ensures forall i :: 0 <= i < |s| ==> b[i] as int == s[i] as int
  {
    if s == [] then [] else [s[0] as int as byte] + Latin1Bytes(s[1..])
  }

  /** `btoa`: `None` stands for the `InvalidCharacterError` it throws on a character above U+00FF. */
  function Btoa(s: string): (r: Option<string>)
    ensures r.None? <==> !IsLatin1(s)
    ensures r.Some? ==> |r.value| == 4 * ((|s| + 2) / 3)
  {
    if IsLatin1(s) then Some(Encode(Latin1Bytes(s))) else None
  }

  /** Decoding the output of `btoa` gives back the characters of its input, as bytes. */
  lemma BtoaRoundTrip(s: string)
    requires IsLatin1(s)
    ensures Btoa(s).Some? && Decode(Btoa(s).value) == Some(Latin1Bytes(s))
  {
    DecodeEncode(Latin1Bytes(s));
  }
}
