/**
 * Little-endian encoding of unsigned integers, as `binary.LittleEndian.PutUint64` writes
 * them (the boundary mutator's maximum-uint64 and minimum-int64 shapes).
 */
module Encoding {
  import opened Base

  function Pow256(n: nat): (r: nat)
    ensures r > 0
  {
    if n == 0 then 1 else 256 * Pow256(n - 1)
  }

  /** The `n` low-order bytes of `v`, least significant first. */
  function LittleEndian(v: nat, n: nat): (r: seq<byte>)
    ensures |r| == n
  {
    if n == 0 then [] else [v % 256] + LittleEndian(v / 256, n - 1)
  }

  /** The value a little-endian byte string denotes. */
  function DecodeLittleEndian(bs: seq<byte>): (v: nat)
    ensures v < Pow256(|bs|)
  {
    if bs == [] then 0 else bs[0] + 256 * DecodeLittleEndian(bs[1..])
  }

  /** `PutUint64(buf[off:off+8], v)`: overwrite eight bytes of `buf` with `v`. */
  function PutUint64(buf: seq<byte>, off: nat, v: nat): (r: seq<byte>)
    requires off + 8 <= |buf|
    requires v < Pow256(8)
    ensures |r| == |buf|
    ensures r[off..off + 8] == LittleEndian(v, 8)
    ensures forall i :: 0 <= i < |buf| && !(off <= i < off + 8) ==> r[i] == buf[i]
  {
    buf[..off] + LittleEndian(v, 8) + buf[off + 8..]
  }

  /** Encoding then decoding gives back every value that fits. */
  lemma {:induction false} DecodeEncode(v: nat, n: nat)
    requires v < Pow256(n)
    ensures DecodeLittleEndian(LittleEndian(v, n)) == v
  {
    if n > 0 {
      assert v / 256 < Pow256(n - 1);
      DecodeEncode(v / 256, n - 1);
      assert LittleEndian(v, n)[1..] == LittleEndian(v / 256, n - 1);
    }
  }

  /** Decoding then encoding gives back every byte string. */
  lemma {:induction false} EncodeDecode(bs: seq<byte>)
    ensures LittleEndian(DecodeLittleEndian(bs), |bs|) == bs
  {
    if bs != [] {
      var v := DecodeLittleEndian(bs);
      var w := DecodeLittleEndian(bs[1..]);
      assert v == bs[0] + 256 * w;
      assert v % 256 == bs[0] && v / 256 == w;
      EncodeDecode(bs[1..]);
    }
  }

  /** 0xFFFFFFFFFFFFFFFF is eight 0xFF bytes. */
  lemma MaxUint64Bytes()
    ensures LittleEndian(0xFFFF_FFFF_FFFF_FFFF, 8) == Repeat(0xFF, 8)
  {
    assert LittleEndian(0xFF, 1) == [0xFF];
    assert LittleEndian(0xFFFF, 2) == [0xFF, 0xFF];
    assert LittleEndian(0xFF_FFFF, 3) == [0xFF, 0xFF, 0xFF];
    assert LittleEndian(0xFFFF_FFFF, 4) == [0xFF, 0xFF, 0xFF, 0xFF];
    assert LittleEndian(0xFF_FFFF_FFFF, 5) == [0xFF, 0xFF, 0xFF, 0xFF, 0xFF];
    assert LittleEndian(0xFFFF_FFFF_FFFF, 6) == [0xFF, 0xFF, 0xFF, 0xFF, 0xFF, 0xFF];
    assert LittleEndian(0xFF_FFFF_FFFF_FFFF, 7) == [0xFF, 0xFF, 0xFF, 0xFF, 0xFF, 0xFF, 0xFF];
  }

  /** 0x8000000000000000 (the bit pattern of -2^63) is seven zero bytes and then 0x80. */
  lemma MinInt64Bytes()
    ensures LittleEndian(0x8000_0000_0000_0000, 8) == Repeat(0, 7) + [0x80]
  {
    assert LittleEndian(0x80, 1) == [0x80];
    assert LittleEndian(0x8000, 2) == [0, 0x80];
    assert LittleEndian(0x80_0000, 3) == [0, 0, 0x80];
    assert LittleEndian(0x8000_0000, 4) == [0, 0, 0, 0x80];
    assert LittleEndian(0x80_0000_0000, 5) == [0, 0, 0, 0, 0x80];
    assert LittleEndian(0x8000_0000_0000, 6) == [0, 0, 0, 0, 0, 0x80];
    assert LittleEndian(0x80_0000_0000_0000, 7) == [0, 0, 0, 0, 0, 0, 0x80];
  }
}
