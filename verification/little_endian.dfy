/** Fixed-width two's-complement integers and their little-endian byte encoding,
    as used by every multi-byte field of a RIFF/WAVE file. */
module LittleEndian {

  /** An octet of the output file. */
  newtype byte = x: int | 0 <= x < 256

  /** C's int16_t and int32_t. */
  newtype int16 = x: int | -0x8000 <= x < 0x8000
  newtype int32 = x: int | -0x8000_0000 <= x < 0x8000_0000

  const TWO_16: nat := 0x1_0000
  const TWO_32: nat := 0x1_0000_0000

  /** 256 to the power k: the number of distinct k-byte strings. */
  function Pow256(k: nat): (r: nat)
    ensures r > 0
  {
    if k == 0 then 1 else 256 * Pow256(k - 1)
  }

  /** The k least significant bytes of u, least significant first. */
  function UnsignedLE(u: nat, k: nat): (bs: seq<byte>)
    ensures |bs| == k
  {
    if k == 0 then [] else [(u % 256) as byte] + UnsignedLE(u / 256, k - 1)
  }

  /** The unsigned number a little-endian byte string denotes. */
  function UnsignedValue(bs: seq<byte>): (u: nat)
    ensures u < Pow256(|bs|)
  {
    if bs == [] then 0 else bs[0] as nat + 256 * UnsignedValue(bs[1..])
  }

  lemma {:induction false} ValueOfUnsignedLE(u: nat, k: nat)
    requires u < Pow256(k)
    ensures UnsignedValue(UnsignedLE(u, k)) == u
  {
    if k > 0 {
      var bs := UnsignedLE(u, k);
      assert u / 256 < Pow256(k - 1);
      ValueOfUnsignedLE(u / 256, k - 1);
      assert bs[1..] == UnsignedLE(u / 256, k - 1);
      assert bs[0] as nat == u % 256;
      assert UnsignedValue(bs) == u % 256 + 256 * (u / 256);
    }
  }

  lemma {:induction false} UnsignedLEOfValue(bs: seq<byte>)
    ensures UnsignedLE(UnsignedValue(bs), |bs|) == bs
  {
    if bs != [] {
      var v := UnsignedValue(bs[1..]);
      UnsignedLEOfValue(bs[1..]);
      assert (bs[0] as nat + 256 * v) % 256 == bs[0] as nat;
      assert (bs[0] as nat + 256 * v) / 256 == v;
      assert bs == [bs[0]] + bs[1..];
    }
  }

  lemma Pow256Widths()
    ensures Pow256(2) == TWO_16 && Pow256(4) == TWO_32
  {
  }

  /** A 16-bit field as it is laid out in the file: two bytes, low byte first. */
  function EncodeInt16(x: int16): (bs: seq<byte>)
    ensures |bs| == 2
  {
    UnsignedLE(x as int % TWO_16, 2)
  }

  function DecodeInt16(bs: seq<byte>): int16
    requires |bs| == 2
  {
    Pow256Widths();
    var u := UnsignedValue(bs);
    if u < TWO_16 / 2 then u as int16 else (u - TWO_16) as int16
  }

  /** A 32-bit field as it is laid out in the file: four bytes, low byte first. */
  function EncodeInt32(x: int32): (bs: seq<byte>)
    ensures |bs| == 4
  {
    UnsignedLE(x as int % TWO_32, 4)
  }

  function DecodeInt32(bs: seq<byte>): int32
    requires |bs| == 4
  {
    Pow256Widths();
    var u := UnsignedValue(bs);
    if u < TWO_32 / 2 then u as int32 else (u - TWO_32) as int32
  }

  lemma DecodeEncodeInt16(x: int16)
    ensures DecodeInt16(EncodeInt16(x)) == x
  {
    Pow256Widths();
    ValueOfUnsignedLE(x as int % TWO_16, 2);
  }

  lemma EncodeDecodeInt16(bs: seq<byte>)
    requires |bs| == 2
    ensures EncodeInt16(DecodeInt16(bs)) == bs
  {
    Pow256Widths();
    var u := UnsignedValue(bs);
    var d := DecodeInt16(bs) as int;
    assert d == u || d == u - TWO_16;
    assert d % TWO_16 == u;
    UnsignedLEOfValue(bs);
  }

  lemma DecodeEncodeInt32(x: int32)
    ensures DecodeInt32(EncodeInt32(x)) == x
  {
    Pow256Widths();
    ValueOfUnsignedLE(x as int % TWO_32, 4);
  }

  lemma EncodeDecodeInt32(bs: seq<byte>)
    requires |bs| == 4
    ensures EncodeInt32(DecodeInt32(bs)) == bs
  {
    Pow256Widths();
    var u := UnsignedValue(bs);
    var d := DecodeInt32(bs) as int;
    assert d == u || d == u - TWO_32;
    assert d % TWO_32 == u;
    UnsignedLEOfValue(bs);
  }
}
