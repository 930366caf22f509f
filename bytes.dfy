/**
 * Fixed-width integers and the pieces of Python's `struct` module that the
 * request codec relies on: the `s` (fixed-size byte string) format and native
 * little-endian unsigned 16- and 32-bit integers.
 */
module Bytes {

  newtype byte = x: int | 0 <= x < 0x100
  newtype uint16 = x: int | 0 <= x < 0x1_0000
  newtype uint32 = x: int | 0 <= x < 0x1_0000_0000

  /** `n` zero bytes. */
  function Zeros(n: nat): (z: seq<byte>)
    ensures |z| == n
    ensures forall i | 0 <= i < n :: z[i] == 0
  {
    seq(n, _ => 0)
  }

  /**
   * Packing a byte string with the `<n>s` format: the string is cut to `n`
   * bytes when longer and padded with NUL bytes when shorter.
   */
  function PackFixed(s: seq<byte>, n: nat): (r: seq<byte>)
    ensures |r| == n
    ensures forall i | 0 <= i < n :: r[i] == (if i < |s| then s[i] else 0)
  {
    if |s| >= n then s[..n] else s + Zeros(n - |s|)
  }

  /** Native (little-endian) unsigned 16-bit value of two bytes. */
  function DecodeU16(b: seq<byte>): (v: uint16)
    requires |b| == 2
  {
    (b[0] as int + 0x100 * b[1] as int) as uint16
  }

  /** Native (little-endian) encoding of an unsigned 16-bit value. */
  function EncodeU16(v: uint16): (b: seq<byte>)
    ensures |b| == 2
    ensures DecodeU16(b) == v
  {
    [(v as int % 0x100) as byte, (v as int / 0x100) as byte]
  }

  lemma EncodeDecodeU16(b: seq<byte>)
    requires |b| == 2
    ensures EncodeU16(DecodeU16(b)) == b
  {
  }

  /** Native (little-endian) unsigned 32-bit value of four bytes: low half first. */
  function DecodeU32(b: seq<byte>): (v: uint32)
    requires |b| == 4
  {
    (DecodeU16(b[..2]) as int + 0x1_0000 * DecodeU16(b[2..]) as int) as uint32
  }

  /** Native (little-endian) encoding of an unsigned 32-bit value. */
  function EncodeU32(v: uint32): (b: seq<byte>)
    ensures |b| == 4
    ensures DecodeU32(b) == v
  {
    var lo, hi := (v as int % 0x1_0000) as uint16, (v as int / 0x1_0000) as uint16;
    var b := EncodeU16(lo) + EncodeU16(hi);
    assert b[..2] == EncodeU16(lo) && b[2..] == EncodeU16(hi);
    b
  }

  lemma EncodeDecodeU32(b: seq<byte>)
    requires |b| == 4
    ensures EncodeU32(DecodeU32(b)) == b
  {
    var lo, hi := DecodeU16(b[..2]), DecodeU16(b[2..]);
    var v := DecodeU32(b);
    assert (v as int % 0x1_0000) as uint16 == lo;
    assert (v as int / 0x1_0000) as uint16 == hi;
    EncodeDecodeU16(b[..2]);
    EncodeDecodeU16(b[2..]);
    assert b == b[..2] + b[2..];
  }
}
