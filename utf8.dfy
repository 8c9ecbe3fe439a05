/**
 * UTF-8, the encoding `Buffer.from(s, "utf8")` applies to a string, and the fact that
 * it loses nothing.
 */
module Utf8Bytes {
  newtype byte = b: int | 0 <= b < 256

  /** The UTF-8 encoding of one Unicode scalar value. */
  function Utf8Char(c: char): (r: seq<byte>)
    ensures 1 <= |r| <= 4
  {
    var n := c as int;
    if n < 0x80 then [n as byte]
    else if n < 0x800 then [(0xC0 + n / 64) as byte, (0x80 + n % 64) as byte]
    else if n < 0x10000 then
      [(0xE0 + n / 4096) as byte, (0x80 + n / 64 % 64) as byte, (0x80 + n % 64) as byte]
    else
      [(0xF0 + n / 262144) as byte, (0x80 + n / 4096 % 64) as byte, (0x80 + n / 64 % 64) as byte, (0x80 + n % 64) as byte]
  }

  /** `Buffer.from(s, "utf8")`. */
  function Utf8(s: string): (r: seq<byte>)
    ensures |r| >= |s|
    ensures r == [] <==> s == []
  {
    if s == [] then [] else Utf8Char(s[0]) + Utf8(s[1..])
  }

  /** The length of a sequence announced by its first byte. */
  function LeadLength(b: byte): nat {
    if b < 0x80 then 1 else if b < 0xE0 then 2 else if b < 0xF0 then 3 else 4
  }

  /** The scalar value carried by one well-formed sequence. */
  function CodePoint(bs: seq<byte>): int
    requires 1 <= |bs| <= 4
  {
    if |bs| == 1 then bs[0] as int
    else if |bs| == 2 then (bs[0] as int - 0xC0) * 64 + (bs[1] as int - 0x80)
    else if |bs| == 3 then (bs[0] as int - 0xE0) * 4096 + (bs[1] as int - 0x80) * 64 + (bs[2] as int - 0x80)
    else (bs[0] as int - 0xF0) * 262144 + (bs[1] as int - 0x80) * 4096 + (bs[2] as int - 0x80) * 64 + (bs[3] as int - 0x80)
  }

  lemma Digits64(n: int)
    requires 0 <= n
    ensures n == n / 64 * 64 + n % 64
    ensures n / 64 == n / 4096 * 64 + n / 64 % 64
    ensures n / 4096 == n / 262144 * 64 + n / 4096 % 64
  {
  }

  /** Each sequence announces its own length and decodes back to its character. */
  lemma Utf8CharDecodes(c: char)
    ensures LeadLength(Utf8Char(c)[0]) == |Utf8Char(c)|
    ensures CodePoint(Utf8Char(c)) == c as int
  {
    Digits64(c as int);
  }

  /** Different characters have different encodings. */
  lemma Utf8CharInjective(c: char, d: char)
    requires Utf8Char(c) == Utf8Char(d)
    ensures c == d
  {
    Utf8CharDecodes(c);
    Utf8CharDecodes(d);
  }

  /** UTF-8 loses nothing: equal bytes come only from equal strings. */
  lemma {:induction false} Utf8Injective(s: string, t: string)
    requires Utf8(s) == Utf8(t)
    ensures s == t
  {
    if s != [] && t != [] {
      var a, b := Utf8Char(s[0]), Utf8Char(t[0]);
      Utf8CharDecodes(s[0]);
      Utf8CharDecodes(t[0]);
      assert Utf8(s)[0] == a[0] && Utf8(t)[0] == b[0];
      assert |a| == |b|;
      assert a == Utf8(s)[..|a|] && b == Utf8(t)[..|b|];
      Utf8CharInjective(s[0], t[0]);
      assert Utf8(s[1..]) == Utf8(s)[|a|..] == Utf8(t)[|b|..] == Utf8(t[1..]);
      Utf8Injective(s[1..], t[1..]);
    }
  }
}
