/**
 * Uri.EscapeDataString: the value is encoded as UTF-8 and every byte outside the
 * unreserved set of section 2.3 of RFC 3986 becomes "%" followed by two upper-case
 * hexadecimal digits (section 2.1 of RFC 3986).
 */
module UriEscaping {
  import opened Wrappers
  import opened Utf8

  /** ALPHA / DIGIT / "-" / "." / "_" / "~" (section 2.3 of RFC 3986). */
  predicate IsUnreserved(b: int)
  {
    ('A' as int <= b <= 'Z' as int) || ('a' as int <= b <= 'z' as int) || ('0' as int <= b <= '9' as int)
    || b == '-' as int || b == '.' as int || b == '_' as int || b == '~' as int
  }

  /** A character that may appear in an escaped value: an unreserved one or the escape mark. */
  predicate IsEscapedChar(c: char)
  {
    IsUnreserved(c as int) || c == '%'
  }

  function HexDigit(d: int): (c: char)
    requires 0 <= d < 16
    ensures IsUnreserved(c as int)
  {
    "0123456789ABCDEF"[d]
  }

  /** The value of a hexadecimal digit of either case. */
  function HexValue(c: char): (r: Option<int>)
    ensures r.Some? ==> 0 <= r.value < 16
  {
    if '0' <= c <= '9' then Some(c as int - '0' as int)
    else if 'A' <= c <= 'F' then Some(c as int - 'A' as int + 10)
    else if 'a' <= c <= 'f' then Some(c as int - 'a' as int + 10)
    else None
  }

  lemma HexValueOfDigit(d: int)
    requires 0 <= d < 16
    ensures HexValue(HexDigit(d)) == Some(d)
  {
  }

  /** One byte: itself when unreserved, otherwise its percent-encoded triplet. */
  function EncodeByte(b: byte): (r: string)
    ensures |r| == 1 || |r| == 3
    ensures forall i :: 0 <= i < |r| ==> IsEscapedChar(r[i])
  {
    if IsUnreserved(b) then [b as char] else ['%', HexDigit(b / 16), HexDigit(b % 16)]
  }

  function PercentEncode(bs: seq<byte>): (r: string)
    ensures |bs| <= |r| <= 3 * |bs|
    ensures forall i :: 0 <= i < |r| ==> IsEscapedChar(r[i])
  {
    if bs == [] then "" else EncodeByte(bs[0]) + PercentEncode(bs[1..])
  }

  /** The inverse of PercentEncode: a "%" must be followed by two hexadecimal digits,
      and every other character must be a single byte. */
  function PercentDecode(s: string): (r: Option<seq<byte>>)
    decreases |s|
  {
    if s == [] then Some([])
    else if s[0] == '%' then
      if |s| < 3 || HexValue(s[1]).None? || HexValue(s[2]).None? then None
      else
        match PercentDecode(s[3..])
        case None => None
        case Some(rest) => Some([HexValue(s[1]).value * 16 + HexValue(s[2]).value] + rest)
    else if s[0] as int < 256 then
      match PercentDecode(s[1..])
      case None => None
      case Some(rest) => Some([s[0] as int] + rest)
    else None
  }

  /** An unreserved byte, written as itself, is read back as itself. */
  lemma DecodeUnreservedByte(b: byte, rest: string)
    requires IsUnreserved(b)
    ensures PercentDecode([b as char] + rest) ==
      match PercentDecode(rest) case None => None case Some(bs) => Some([b] + bs)
  {
    var s := [b as char] + rest;
    assert s[0] == b as char && s[0] != '%' && s[0] as int < 256;
    assert s[1..] == rest;
  }

  /** A percent-encoded triplet is read back as the byte it encodes. */
  lemma DecodeTriplet(b: byte, rest: string)
    ensures PercentDecode(['%', HexDigit(b / 16), HexDigit(b % 16)] + rest) ==
      match PercentDecode(rest) case None => None case Some(bs) => Some([b] + bs)
  {
    var s := ['%', HexDigit(b / 16), HexDigit(b % 16)] + rest;
    assert s[0] == '%' && s[1] == HexDigit(b / 16) && s[2] == HexDigit(b % 16) && |s| >= 3;
    assert s[3..] == rest;
    HexValueOfDigit(b / 16);
    HexValueOfDigit(b % 16);
    assert (b / 16) * 16 + b % 16 == b;
  }

  lemma DecodeEncodedByte(b: byte, rest: string)
    ensures PercentDecode(EncodeByte(b) + rest) ==
      match PercentDecode(rest) case None => None case Some(bs) => Some([b] + bs)
  {
    if IsUnreserved(b) {
      DecodeUnreservedByte(b, rest);
    } else {
      DecodeTriplet(b, rest);
    }
  }

  /** Decoding recovers every byte sequence that was encoded. */
  lemma {:induction false} PercentRoundTrip(bs: seq<byte>)
    ensures PercentDecode(PercentEncode(bs)) == Some(bs)
  {
    if bs != [] {
      PercentRoundTrip(bs[1..]);
      DecodeEncodedByte(bs[0], PercentEncode(bs[1..]));
      assert PercentEncode(bs) == EncodeByte(bs[0]) + PercentEncode(bs[1..]);
      assert [bs[0]] + bs[1..] == bs;
    }
  }

  /** Uri.EscapeDataString. */
  function EscapeDataString(s: string): (r: string)
    ensures forall i :: 0 <= i < |r| ==> IsEscapedChar(r[i])
  {
    PercentEncode(Utf8.Encode(s))
  }

  /** Escaping is undone by percent-decoding: the output names exactly the UTF-8 bytes of the value. */
  lemma EscapeRoundTrip(s: string)
    ensures PercentDecode(EscapeDataString(s)) == Some(Utf8.Encode(s))
  {
    PercentRoundTrip(Utf8.Encode(s));
  }

  /** A value made only of unreserved characters is left as it is. */
  lemma {:induction false} EscapeUnreservedIsIdentity(s: string)
    requires forall i :: 0 <= i < |s| ==> IsUnreserved(s[i] as int)
    ensures EscapeDataString(s) == s
  {
    if s != [] {
      EscapeUnreservedIsIdentity(s[1..]);
      assert Utf8.Encode(s) == [s[0] as int] + Utf8.Encode(s[1..]);
      assert s == [s[0]] + s[1..];
    }
  }

  /** The escaped value never contains a character with a meaning in a URI path or query. */
  lemma EscapeHasNoDelimiters(s: string)
    ensures forall c :: c in EscapeDataString(s) ==> c !in "{}/?&#= +"
  {
    var r := EscapeDataString(s);
    forall c | c in r ensures c !in "{}/?&#= +" {
      var i :| 0 <= i < |r| && r[i] == c;
      assert IsEscapedChar(r[i]);
    }
  }
}
