/** UTF-8 encoding of Unicode scalar values (section 3 of RFC 3629), as the .NET encoder produces it. */
module Utf8 {

  /** An octet. */
  type byte = x: int | 0 <= x < 256

  /** The bytes of one scalar value: one byte below U+0080, then two, three or four bytes. */
  function EncodeChar(c: char): (r: seq<byte>)
    ensures 1 <= |r| <= 4
    ensures |r| == 1 <==> c as int < 0x80
    ensures |r| == 1 ==> r[0] == c as int
    ensures |r| > 1 ==> r[0] >= 0xC0
    ensures forall k :: 1 <= k < |r| ==> r[k] / 64 == 2
  {
    var n := c as int;
    if n < 0x80 then
      [n]
    else if n < 0x800 then
      [(0xC0 + n / 64), (0x80 + n % 64)]
    else if n < 0x10000 then
      [(0xE0 + n / 4096), (0x80 + n / 64 % 64), (0x80 + n % 64)]
    else
      [(0xF0 + n / 262144), (0x80 + n / 4096 % 64),
       (0x80 + n / 64 % 64), (0x80 + n % 64)]
  }

  /** The UTF-8 bytes of a whole string, character after character. */
  function Encode(s: string): (r: seq<byte>)
    ensures |s| <= |r| <= 4 * |s|
  {
    if s == [] then [] else EncodeChar(s[0]) + Encode(s[1..])
  }

  /** Encoding distributes over concatenation. */
  lemma {:induction false} EncodeAppend(s: string, t: string)
    ensures Encode(s + t) == Encode(s) + Encode(t)
  {
    if s == [] {
      assert s + t == t;
    } else {
      assert (s + t)[1..] == s[1..] + t;
      EncodeAppend(s[1..], t);
    }
  }

  /** An ASCII string encodes to one byte per character, each equal to its code. */
  lemma {:induction false} EncodeAscii(s: string)
    requires forall i :: 0 <= i < |s| ==> s[i] as int < 0x80
    ensures |Encode(s)| == |s|
    ensures forall i :: 0 <= i < |s| ==> Encode(s)[i] == s[i] as int
  {
    if s != [] {
      EncodeAscii(s[1..]);
    }
  }
}
