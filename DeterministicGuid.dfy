/**
 * Name-based GUIDs (version 5, section 4.3 of RFC 4122): the SHA-1 hash of a fixed
 * namespace followed by the UTF-8 bytes of a name, with the version and variant bits
 * stamped, laid out as a .NET Guid.
 */
module DeterministicGuid {
  import Utf8

  type byte = Utf8.byte
  type uint16 = x: int | 0 <= x < 0x1_0000
  type uint32 = x: int | 0 <= x < 0x1_0000_0000

  /** The eight trailing bytes of a Guid. */
  type Tail = s: seq<byte> | |s| == 8 witness [0, 0, 0, 0, 0, 0, 0, 0]

  /** A SHA-1 digest: 20 bytes. */
  type Digest = h: seq<byte> | |h| == 20 witness [0, 0, 0, 0, 0, 0, 0, 0, 0, 0, 0, 0, 0, 0, 0, 0, 0, 0, 0, 0]

  /** A .NET Guid: a 32-bit field, two 16-bit fields and eight bytes, as written in its text form. */
  datatype Guid = Guid(a: uint32, b: uint16, c: uint16, d: Tail)

  // Little- and big-endian byte layouts of the integer fields.

  function Le16(x: uint16): (r: seq<byte>)
    ensures |r| == 2
  {
    [x % 256, x / 256]
  }

  function Le32(x: uint32): (r: seq<byte>)
    ensures |r| == 4
  {
    Le16(x % 0x1_0000) + Le16(x / 0x1_0000)
  }

  function Be16(x: uint16): (r: seq<byte>)
    ensures |r| == 2
  {
    [x / 256, x % 256]
  }

  function Be32(x: uint32): (r: seq<byte>)
    ensures |r| == 4
  {
    Be16(x / 0x1_0000) + Be16(x % 0x1_0000)
  }

  function Decode16(lo: byte, hi: byte): uint16
  {
    lo + 256 * hi
  }

  /** `Guid.ToByteArray`: the integer fields little-endian, then the eight tail bytes. */
  function ToByteArray(g: Guid): (r: seq<byte>)
    ensures |r| == 16
  {
    Le32(g.a) + Le16(g.b) + Le16(g.c) + g.d
  }

  /** `new Guid(bytes)`: reads the layout ToByteArray writes. */
  function FromByteArray(bs: seq<byte>): (g: Guid)
    requires |bs| == 16
  {
    Guid(Decode16(bs[0], bs[1]) + 0x1_0000 * Decode16(bs[2], bs[3]),
         Decode16(bs[4], bs[5]), Decode16(bs[6], bs[7]), bs[8..])
  }

  /**
   * The RFC 4122 network byte order of a Guid: every field big-endian. This is the
   * order in which the hexadecimal digits of its text form are written.
   */
  function NetworkOrder(g: Guid): (r: seq<byte>)
    ensures |r| == 16
  {
    Be32(g.a) + Be16(g.b) + Be16(g.c) + g.d
  }

  lemma Le16RoundTrip(x: uint16)
    ensures Decode16(Le16(x)[0], Le16(x)[1]) == x
  {
  }

  lemma Decode16RoundTrip(lo: byte, hi: byte)
    ensures Le16(Decode16(lo, hi)) == [lo, hi]
  {
  }

  /** Reading back what ToByteArray wrote gives the same Guid. */
  lemma FromToByteArray(g: Guid)
    ensures FromByteArray(ToByteArray(g)) == g
  {
    var bs := ToByteArray(g);
    Le16RoundTrip(g.a % 0x1_0000);
    Le16RoundTrip(g.a / 0x1_0000);
    Le16RoundTrip(g.b);
    Le16RoundTrip(g.c);
    assert bs[8..] == g.d;
  }

  /** Writing out the Guid read from 16 bytes gives those bytes back. */
  lemma ToFromByteArray(bs: seq<byte>)
    requires |bs| == 16
    ensures ToByteArray(FromByteArray(bs)) == bs
  {
    var g := FromByteArray(bs);
    var lo := Decode16(bs[0], bs[1]);
    var hi := Decode16(bs[2], bs[3]);
    assert g.a % 0x1_0000 == lo && g.a / 0x1_0000 == hi;
    Decode16RoundTrip(bs[0], bs[1]);
    Decode16RoundTrip(bs[2], bs[3]);
    Decode16RoundTrip(bs[4], bs[5]);
    Decode16RoundTrip(bs[6], bs[7]);
    assert ToByteArray(g) == [bs[0], bs[1]] + [bs[2], bs[3]] + [bs[4], bs[5]] + [bs[6], bs[7]] + bs[8..];
  }

  /** Where SwapByteOrder takes byte `k` from: 0–3 reversed, 4↔5, 6↔7, the rest in place. */
  function SwapIndex(k: nat): (j: nat)
    ensures k < 8 <==> j < 8
    ensures k >= 8 ==> j == k
  {
    if k < 4 then 3 - k
    else if k < 6 then 9 - k
    else if k < 8 then 13 - k
    else k
  }

  /** The bytes after SwapByteOrder: byte `k` comes from byte SwapIndex(k). */
  function Swapped(g: seq<byte>): (r: seq<byte>)
    requires |g| >= 8
    ensures |r| == |g|
    ensures r[8..] == g[8..]
  {
    seq(|g|, k requires 0 <= k < |g| => g[SwapIndex(k)])
  }

  /** A sequence that has the swapped first eight bytes and the same later bytes is Swapped. */
  lemma SwappedByBytes(before: seq<byte>, after: seq<byte>)
    requires |before| == |after| >= 8
    requires after[..8] == [before[3], before[2], before[1], before[0], before[5], before[4], before[7], before[6]]
    requires after[8..] == before[8..]
    ensures after == Swapped(before)
  {
    forall k | 0 <= k < |after|
      ensures after[k] == Swapped(before)[k]
    {
      if k >= 8 {
        assert after[k] == after[8..][k - 8];
      } else {
        assert after[k] == after[..8][k];
      }
    }
  }

  /** SwapByteOrder: bytes 0–3 reversed, 4 and 5 exchanged, 6 and 7 exchanged, in place. */
  method SwapByteOrder(guid: array<byte>)
    requires guid.Length >= 8
    modifies guid
    ensures guid[..] == Swapped(old(guid[..]))
  {
    ghost var original := guid[..];
    guid[0], guid[3] := guid[3], guid[0];
    guid[1], guid[2] := guid[2], guid[1];
    guid[4], guid[5] := guid[5], guid[4];
    guid[6], guid[7] := guid[7], guid[6];
    assert guid[8..] == original[8..];
    assert guid[..8] == [original[3], original[2], original[1], original[0],
                         original[5], original[4], original[7], original[6]];
    SwappedByBytes(original, guid[..]);
  }

  /** The swap is its own inverse, so the same routine converts either way. */
  lemma SwappedInvolution(g: seq<byte>)
    requires |g| >= 8
    ensures Swapped(Swapped(g)) == g
  {
    forall k | 0 <= k < |g|
      ensures Swapped(Swapped(g))[k] == g[k]
    {
      assert SwapIndex(SwapIndex(k)) == k;
    }
  }

  /** Swapping the first 16 bytes is swapping the whole buffer and keeping 16 bytes. */
  lemma SwappedPrefix(g: seq<byte>, n: nat)
    requires 8 <= n <= |g|
    ensures Swapped(g)[..n] == Swapped(g[..n])
  {
  }

  /** Swapping the .NET layout gives the network byte order ("convert to big-endian"). */
  lemma NetworkOrderIsSwapped(g: Guid)
    ensures NetworkOrder(g) == Swapped(ToByteArray(g))
  {
    var le := ToByteArray(g);
    var be := NetworkOrder(g);
    forall k | 0 <= k < 16
      ensures be[k] == Swapped(le)[k]
    {
      assert le[8..] == g.d && be[8..] == g.d;
      if k >= 8 {
        assert be[k] == g.d[k - 8] == le[k];
      }
    }
  }

  /** A Guid is determined by its network byte order. */
  lemma NetworkOrderInjective(g1: Guid, g2: Guid)
    ensures NetworkOrder(g1) == NetworkOrder(g2) <==> g1 == g2
  {
    if NetworkOrder(g1) == NetworkOrder(g2) {
      NetworkOrderIsSwapped(g1);
      NetworkOrderIsSwapped(g2);
      SwappedInvolution(ToByteArray(g1));
      SwappedInvolution(ToByteArray(g2));
      FromToByteArray(g1);
      FromToByteArray(g2);
    }
  }

  /** The Guid whose .NET layout is `bs` has network order Swapped(bs). */
  lemma NetworkOrderOfLayout(bs: seq<byte>)
    requires |bs| == 16
    ensures NetworkOrder(FromByteArray(bs)) == Swapped(bs)
  {
    NetworkOrderIsSwapped(FromByteArray(bs));
    ToFromByteArray(bs);
  }

  /** The namespace "9a692101-09fa-41ce-8c0f-97d36b915581". */
  const NamespaceGuid: Guid := Guid(0x9a69_2101, 0x09fa, 0x41ce, [0x8c, 0x0f, 0x97, 0xd3, 0x6b, 0x91, 0x55, 0x81])

  /** The namespace bytes the hash starts with: the namespace in network order. */
  function NamespaceBytes(): (r: seq<byte>)
    ensures |r| == 16
  {
    NetworkOrder(NamespaceGuid)
  }

  /** The namespace bytes are the hexadecimal digits of its text form, in order. */
  lemma NamespaceBytesValue()
    ensures NamespaceBytes() == [0x9a, 0x69, 0x21, 0x01, 0x09, 0xfa, 0x41, 0xce,
                                 0x8c, 0x0f, 0x97, 0xd3, 0x6b, 0x91, 0x55, 0x81]
  {
  }

  /** The static constructor: the namespace's ToByteArray, converted to big-endian in place. */
  method InitNamespaceBytes() returns (ns: array<byte>)
    ensures ns.Length == 16 && ns[..] == NamespaceBytes()
  {
    var layout := ToByteArray(NamespaceGuid);
    ns := new byte[16](i requires 0 <= i < 16 => layout[i]);
    assert ns[..] == layout;
    SwapByteOrder(ns);
    NetworkOrderIsSwapped(NamespaceGuid);
  }

  /** What is hashed for a name: the namespace bytes, then the UTF-8 bytes of the name. */
  function HashInput(name: string): (r: seq<byte>)
    ensures |r| == 16 + |Utf8.Encode(name)|
    ensures r[..16] == NamespaceBytes()
  {
    NamespaceBytes() + Utf8.Encode(name)
  }

  /**
   * `g` is the name-based Guid of digest `h` (section 4.3 of RFC 4122): in network byte
   * order, byte 6 carries version 5 over the low four bits of h[6], byte 8 carries the
   * variant bits 10 over the low six bits of h[8], and every other byte of the first
   * sixteen is the digest's byte at the same offset.
   */
  predicate IsNameBasedGuid(g: Guid, h: Digest)
  {
    var t := NetworkOrder(g);
    && t[6] == 0x50 + h[6] % 16
    && t[8] == 0x80 + h[8] % 64
    && forall k :: 0 <= k < 16 && k != 6 && k != 8 ==> t[k] == h[k]
  }

  /** Version 5 in the high nibble of byte 6, variant bits 10 at the top of byte 8. */
  lemma NameBasedGuidVersion(g: Guid, h: Digest)
    requires IsNameBasedGuid(g, h)
    ensures NetworkOrder(g)[6] / 16 == 5 && NetworkOrder(g)[6] % 16 == h[6] % 16
    ensures NetworkOrder(g)[8] / 64 == 2 && NetworkOrder(g)[8] % 64 == h[8] % 64
  {
  }

  /** One digest names one Guid: the result does not depend on anything but the hash. */
  lemma NameBasedGuidDeterministic(g1: Guid, g2: Guid, h: Digest)
    requires IsNameBasedGuid(g1, h) && IsNameBasedGuid(g2, h)
    ensures g1 == g2
  {
    assert NetworkOrder(g1) == NetworkOrder(g2);
    NetworkOrderInjective(g1, g2);
  }

  /**
   * FromString: the name-based Guid of the SHA-1 digest of the namespace bytes followed
   * by the name's UTF-8 bytes. `sha1` stands for SHA1.HashData; `leftover` is what the
   * pooled array holds when a long name makes the buffer come from the array pool, and
   * it never reaches the hash.
   */
  method FromString(input: string, sha1: seq<byte> -> Digest, leftover: seq<byte>) returns (g: Guid)
    ensures IsNameBasedGuid(g, sha1(HashInput(input)))
  {
    var encoded := Utf8.Encode(input);
    var inputByteCount := |encoded|;
    var totalLength := 16 + inputByteCount;

    var buffer: array<byte>;
    if totalLength <= 256 {
      buffer := new byte[totalLength](i => 0);
    } else {
      var rentedLength := if |leftover| < totalLength then totalLength else |leftover|;
      buffer := new byte[rentedLength](i => if 0 <= i < |leftover| then leftover[i] else 0);
    }

    var ns := NamespaceBytes();
    forall i | 0 <= i < 16 {
      buffer[i] := ns[i];
    }
    forall i | 0 <= i < inputByteCount {
      buffer[16 + i] := encoded[i];
    }
    assert buffer[..totalLength] == HashInput(input);

    var h := sha1(buffer[..totalLength]);
    var hashBuffer := new byte[20](i requires 0 <= i < 20 => h[i]);
    hashBuffer[6] := hashBuffer[6] % 16 + 0x50;
    hashBuffer[8] := hashBuffer[8] % 64 + 0x80;
    ghost var stamped := hashBuffer[..];
    assert stamped == h[6 := h[6] % 16 + 0x50][8 := h[8] % 64 + 0x80];

    SwapByteOrder(hashBuffer);
    g := FromByteArray(hashBuffer[..16]);

    SwappedPrefix(stamped, 16);
    NetworkOrderOfLayout(hashBuffer[..16]);
    SwappedInvolution(stamped[..16]);
    StampedDigestIsNameBased(g, h, stamped);
  }

  /** A Guid whose network order is the stamped digest's first 16 bytes is the name-based Guid of that digest. */
  lemma StampedDigestIsNameBased(g: Guid, h: Digest, stamped: seq<byte>)
    requires stamped == h[6 := h[6] % 16 + 0x50][8 := h[8] % 64 + 0x80]
    requires NetworkOrder(g) == stamped[..16]
    ensures IsNameBasedGuid(g, h)
  {
  }
}
