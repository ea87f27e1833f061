/**
 * A UUID and Foundation's `uuidString`: the string representation of
 * RFC 4122 section 3 (five groups of hexadecimal digits, 8-4-4-4-12, joined by
 * hyphens), written with upper-case digits as Foundation does.
 */
module Uuid {
  import opened Utf8

  /** The 16 octets of a UUID. */
  type Uuid = b: seq<byte> | |b| == 16 witness [0, 0, 0, 0, 0, 0, 0, 0, 0, 0, 0, 0, 0, 0, 0, 0]

  predicate IsUpperHexDigit(c: char) { '0' <= c <= '9' || 'A' <= c <= 'F' }

  function HexDigit(n: int): (c: char)
    requires 0 <= n < 16
    ensures IsUpperHexDigit(c)
  {
    if n < 10 then ('0' as int + n) as char else ('A' as int + n - 10) as char
  }

  /** Two hexadecimal digits per octet, most significant first. */
  function Hex(bs: seq<byte>): (s: string)
    ensures |s| == 2 * |bs|
    ensures forall i :: 0 <= i < |s| ==> IsUpperHexDigit(s[i])
  {
    if bs == [] then [] else [HexDigit(bs[0] / 16), HexDigit(bs[0] % 16)] + Hex(bs[1..])
  }

  function UuidString(u: Uuid): (s: string)
    ensures |s| == 36
  {
    Hex(u[..4]) + "-" + Hex(u[4..6]) + "-" + Hex(u[6..8]) + "-" + Hex(u[8..10]) + "-" + Hex(u[10..])
  }

  /** The layout of section 3 of RFC 4122: hyphens exactly at 8, 13, 18 and 23, hexadecimal digits elsewhere. */
  lemma UuidStringFormat(u: Uuid)
    ensures forall i :: 0 <= i < 36 ==> (UuidString(u)[i] == '-' <==> i == 8 || i == 13 || i == 18 || i == 23)
    ensures forall i :: 0 <= i < 36 && i != 8 && i != 13 && i != 18 && i != 23 ==> IsUpperHexDigit(UuidString(u)[i])
  {
    var s := UuidString(u);
    var g0, g1, g2, g3, g4 := Hex(u[..4]), Hex(u[4..6]), Hex(u[6..8]), Hex(u[8..10]), Hex(u[10..]);
    assert s[..8] == g0 && s[9..13] == g1 && s[14..18] == g2 && s[19..23] == g3 && s[24..] == g4;
    forall i | 0 <= i < 36
      ensures (s[i] == '-' <==> i == 8 || i == 13 || i == 18 || i == 23)
      ensures i != 8 && i != 13 && i != 18 && i != 23 ==> IsUpperHexDigit(s[i])
    {
      if i < 8 { assert s[i] == g0[i]; }
      else if 8 < i < 13 { assert s[i] == g1[i - 9]; }
      else if 13 < i < 18 { assert s[i] == g2[i - 14]; }
      else if 18 < i < 23 { assert s[i] == g3[i - 19]; }
      else if 23 < i { assert s[i] == g4[i - 24]; }
    }
  }

  lemma {:induction false} HexInjective(a: seq<byte>, b: seq<byte>)
    requires |a| == |b| && Hex(a) == Hex(b)
    ensures a == b
  {
    if a != [] {
      var ha, hb := Hex(a), Hex(b);
      assert ha[0] == hb[0] && ha[1] == hb[1];
      assert a[0] / 16 == b[0] / 16 && a[0] % 16 == b[0] % 16;
      assert ha[2..] == Hex(a[1..]) && hb[2..] == Hex(b[1..]);
      HexInjective(a[1..], b[1..]);
      assert a == [a[0]] + a[1..] && b == [b[0]] + b[1..];
    }
  }

  /** Distinct UUIDs have distinct strings, so comparing `uuidString`s compares UUIDs. */
  lemma UuidStringInjective(u: Uuid, v: Uuid)
    ensures UuidString(u) == UuidString(v) ==> u == v
  {
    if UuidString(u) == UuidString(v) {
      var s, t := UuidString(u), UuidString(v);
      assert s[..8] == Hex(u[..4]) && t[..8] == Hex(v[..4]);
      assert s[9..13] == Hex(u[4..6]) && t[9..13] == Hex(v[4..6]);
      assert s[14..18] == Hex(u[6..8]) && t[14..18] == Hex(v[6..8]);
      assert s[19..23] == Hex(u[8..10]) && t[19..23] == Hex(v[8..10]);
      assert s[24..] == Hex(u[10..]) && t[24..] == Hex(v[10..]);
      HexInjective(u[..4], v[..4]);
      HexInjective(u[4..6], v[4..6]);
      HexInjective(u[6..8], v[6..8]);
      HexInjective(u[8..10], v[8..10]);
      HexInjective(u[10..], v[10..]);
      assert u == u[..4] + u[4..6] + u[6..8] + u[8..10] + u[10..];
      assert v == v[..4] + v[4..6] + v[6..8] + v[8..10] + v[10..];
    }
  }
}
