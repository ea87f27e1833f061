/**
 * The UTF-8 encoding form of RFC 3629 (section 3 describes the bit layout,
 * section 4 the byte syntax of well-formed sequences).  `Encode` stands for
 * Foundation's `String.data(using: .utf8)`, `Decode` for
 * `String(data:encoding: .utf8)`, which refuses ill-formed input.
 */
module Utf8 {
  import opened Wrappers

  type byte = x: int | 0 <= x < 256

  predicate IsContinuation(b: byte) { 0x80 <= b <= 0xBF }

  /** The bytes of one Unicode scalar value. */
  function EncodeChar(c: char): (b: seq<byte>)
    ensures 1 <= |b| <= 4
    ensures (c as int < 0x80) <==> |b| == 1
  {
    var n := c as int;
    if n < 0x80 then [n]
    else if n < 0x800 then [0xC0 + n / 64, 0x80 + n % 64]
    else if n < 0x10000 then [0xE0 + n / 4096, 0x80 + (n / 64) % 64, 0x80 + n % 64]
    else [0xF0 + n / 262144, 0x80 + (n / 4096) % 64, 0x80 + (n / 64) % 64, 0x80 + n % 64]
  }

  function Encode(s: string): (b: seq<byte>)
    ensures |b| >= |s|
  {
    if s == [] then [] else EncodeChar(s[0]) + Encode(s[1..])
  }

  /**
   * The first scalar value of `b` and the number of bytes it occupies,
   * or None when `b` does not start with a well-formed sequence
   * (RFC 3629 section 4: no overlong forms, no surrogates, nothing above U+10FFFF).
   */
  function DecodeFirst(b: seq<byte>): (r: Option<(char, nat)>)
    ensures r.Some? ==> 1 <= r.value.1 <= |b| && r.value.1 <= 4
  {
    if |b| == 0 then None
    else if b[0] < 0x80 then Some((b[0] as char, 1))
    else if 0xC2 <= b[0] <= 0xDF then
      if |b| >= 2 && IsContinuation(b[1])
      then Some((((b[0] as int - 0xC0) * 64 + (b[1] as int - 0x80)) as char, 2))
      else None
    else if 0xE0 <= b[0] <= 0xEF then
      var lo := if b[0] == 0xE0 then 0xA0 else 0x80;
      var hi := if b[0] == 0xED then 0x9F else 0xBF;
      if |b| >= 3 && lo <= b[1] <= hi && IsContinuation(b[2])
      then Some((((b[0] as int - 0xE0) * 4096 + (b[1] as int - 0x80) * 64 + (b[2] as int - 0x80)) as char, 3))
      else None
    else if 0xF0 <= b[0] <= 0xF4 then
      var lo := if b[0] == 0xF0 then 0x90 else 0x80;
      var hi := if b[0] == 0xF4 then 0x8F else 0xBF;
      if |b| >= 4 && lo <= b[1] <= hi && IsContinuation(b[2]) && IsContinuation(b[3])
      then Some((((b[0] as int - 0xF0) * 262144 + (b[1] as int - 0x80) * 4096 + (b[2] as int - 0x80) * 64 + (b[3] as int - 0x80)) as char, 4))
      else None
    else None
  }

  /** The string `b` encodes, or None when `b` is not well-formed UTF-8. */
  function Decode(b: seq<byte>): (r: Option<string>)
    decreases |b|
  {
    if b == [] then Some([])
    else match DecodeFirst(b)
      case None => None
      case Some((c, k)) =>
        match Decode(b[k..])
        case None => None
        case Some(rest) => Some([c] + rest)
  }

  lemma DecodeFirstOfEncodeChar(c: char, rest: seq<byte>)
    ensures DecodeFirst(EncodeChar(c) + rest) == Some((c, |EncodeChar(c)|))
  {
    var n := c as int;
    if n < 0x80 {
    } else if n < 0x800 {
      DecodeTwoBytes(c, rest);
    } else if n < 0x10000 {
      DecodeThreeBytes(c, rest);
    } else {
      DecodeFourBytes(c, rest);
    }
  }

  lemma DecodeTwoBytes(c: char, rest: seq<byte>)
    requires 0x80 <= c as int < 0x800
    ensures DecodeFirst(EncodeChar(c) + rest) == Some((c, 2))
  {
    var n := c as int;
    var q, r := n / 64, n % 64;
    assert n == 64 * q + r && 2 <= q < 32;
    var b := EncodeChar(c) + rest;
    assert b[0] == 0xC0 + q && b[1] == 0x80 + r;
  }

  lemma DecodeThreeBytes(c: char, rest: seq<byte>)
    requires 0x800 <= c as int < 0x10000
    ensures DecodeFirst(EncodeChar(c) + rest) == Some((c, 3))
  {
    var n := c as int;
    var q, r := n / 64, n % 64;
    var q2, r2 := q / 64, q % 64;
    assert n == 64 * q + r && q == 64 * q2 + r2;
    assert n / 4096 == q2;
    assert 0 <= q2 < 16;
    var b := EncodeChar(c) + rest;
    assert b[0] == 0xE0 + q2 && b[1] == 0x80 + r2 && b[2] == 0x80 + r;
    assert q2 == 0 ==> r2 >= 32;
    assert q2 == 13 ==> r2 < 32;
  }

  lemma DecodeFourBytes(c: char, rest: seq<byte>)
    requires 0x10000 <= c as int
    ensures DecodeFirst(EncodeChar(c) + rest) == Some((c, 4))
  {
    var n := c as int;
    var q, r := n / 64, n % 64;
    var q2, r2 := q / 64, q % 64;
    var q3, r3 := q2 / 64, q2 % 64;
    assert n == 64 * q + r && q == 64 * q2 + r2 && q2 == 64 * q3 + r3;
    assert n / 4096 == q2 && n / 262144 == q3;
    assert 0 <= q3 <= 4;
    var b := EncodeChar(c) + rest;
    assert b[0] == 0xF0 + q3 && b[1] == 0x80 + r3 && b[2] == 0x80 + r2 && b[3] == 0x80 + r;
    assert q3 == 0 ==> r3 >= 16;
    assert q3 == 4 ==> r3 < 16;
  }

  /** Round trip: every string survives encoding and decoding. */
  lemma {:induction false} DecodeEncode(s: string)
    ensures Decode(Encode(s)) == Some(s)
  {
    if s != [] {
      var e := EncodeChar(s[0]);
      DecodeFirstOfEncodeChar(s[0], Encode(s[1..]));
      assert (e + Encode(s[1..]))[|e|..] == Encode(s[1..]);
      DecodeEncode(s[1..]);
      assert [s[0]] + s[1..] == s;
    }
  }

  lemma EncodeCharOfDecodeFirst(b: seq<byte>)
    requires DecodeFirst(b).Some?
    ensures EncodeChar(DecodeFirst(b).value.0) == b[..DecodeFirst(b).value.1]
  {
    if b[0] < 0x80 {
    } else if b[0] <= 0xDF {
      EncodeTwoBytes(b);
    } else if b[0] <= 0xEF {
      EncodeThreeBytes(b);
    } else {
      EncodeFourBytes(b);
    }
  }

  lemma EncodeTwoBytes(b: seq<byte>)
    requires DecodeFirst(b).Some? && 0x80 <= b[0] <= 0xDF
    ensures EncodeChar(DecodeFirst(b).value.0) == b[..2]
  {
    var n := DecodeFirst(b).value.0 as int;
    var q, r := b[0] as int - 0xC0, b[1] as int - 0x80;
    assert n == 64 * q + r && 0 <= r < 64;
    assert n / 64 == q && n % 64 == r;
  }

  lemma EncodeThreeBytes(b: seq<byte>)
    requires DecodeFirst(b).Some? && 0xE0 <= b[0] <= 0xEF
    ensures EncodeChar(DecodeFirst(b).value.0) == b[..3]
  {
    var n := DecodeFirst(b).value.0 as int;
    var q2, r2, r := b[0] as int - 0xE0, b[1] as int - 0x80, b[2] as int - 0x80;
    var q := 64 * q2 + r2;
    assert n == 64 * q + r && 0 <= r < 64 && 0 <= r2 < 64;
    assert n / 64 == q && n % 64 == r;
    assert q / 64 == q2 && q % 64 == r2;
    assert n / 4096 == q2;
  }

  lemma EncodeFourBytes(b: seq<byte>)
    requires DecodeFirst(b).Some? && 0xF0 <= b[0]
    ensures EncodeChar(DecodeFirst(b).value.0) == b[..4]
  {
    var n := DecodeFirst(b).value.0 as int;
    var q3, r3, r2, r := b[0] as int - 0xF0, b[1] as int - 0x80, b[2] as int - 0x80, b[3] as int - 0x80;
    var q2 := 64 * q3 + r3;
    var q := 64 * q2 + r2;
    assert n == 64 * q + r && 0 <= r < 64 && 0 <= r2 < 64 && 0 <= r3 < 64;
    assert n / 64 == q && n % 64 == r;
    assert q / 64 == q2 && q % 64 == r2;
    assert q2 / 64 == q3 && q2 % 64 == r3;
    assert n / 4096 == q2 && n / 262144 == q3;
  }

  /** The converse: decoding accepts only the canonical encoding of its result. */
  lemma {:induction false} EncodeDecode(b: seq<byte>)
    requires Decode(b).Some?
    ensures Encode(Decode(b).value) == b
    decreases |b|
  {
    if b != [] {
      var c := DecodeFirst(b).value.0;
      var k := DecodeFirst(b).value.1;
      EncodeCharOfDecodeFirst(b);
      EncodeDecode(b[k..]);
      var s := Decode(b).value;
      assert s == [c] + Decode(b[k..]).value;
      assert s[0] == c && s[1..] == Decode(b[k..]).value;
      assert b == b[..k] + b[k..];
    }
  }

  /** A lone byte 0xFF is not UTF-8, so decoding fails. */
  lemma InvalidByteRejected(rest: seq<byte>)
    ensures Decode([0xFF] + rest) == None
  {
  }
}
