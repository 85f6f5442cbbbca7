/**
 * Bytes and the little-endian field reads a JavaScript DataView performs with
 * `littleEndian = true` (getUint16, getUint32, getInt16), together with the
 * matching writers used to state round trips.
 */
module Bytes {

  /** One element of a Uint8Array. */
  type Byte = b: int | 0 <= b < 256

  /** DataView.getUint16(at, true). */
  function U16(s: seq<Byte>, at: nat): (v: nat)
    requires at + 2 <= |s|
    ensures v < 0x1_0000
  {
    s[at] as int + 0x100 * (s[at + 1] as int)
  }

  /** DataView.getUint32(at, true). */
  function U32(s: seq<Byte>, at: nat): (v: nat)
    requires at + 4 <= |s|
    ensures v < 0x1_0000_0000
  {
    U16(s, at) + 0x1_0000 * U16(s, at + 2)
  }

  /** DataView.getInt16(at, true): the two's-complement reading of the same two bytes. */
  function I16(s: seq<Byte>, at: nat): (v: int)
    requires at + 2 <= |s|
    ensures -0x8000 <= v <= 0x7FFF
    ensures v >= 0 <==> s[at + 1] < 0x80
    ensures v % 0x1_0000 == U16(s, at)
  {
    var u := U16(s, at);
    if u < 0x8000 then u else u - 0x1_0000
  }

  /** The two little-endian bytes of an unsigned 16-bit value. */
  function LeU16(v: nat): (r: seq<Byte>)
    requires v < 0x1_0000
    ensures |r| == 2 && U16(r, 0) == v
  {
    [v % 0x100, v / 0x100]
  }

  /** The four little-endian bytes of an unsigned 32-bit value. */
  function LeU32(v: nat): (r: seq<Byte>)
    requires v < 0x1_0000_0000
    ensures |r| == 4 && U32(r, 0) == v
  {
    var r := LeU16(v % 0x1_0000) + LeU16(v / 0x1_0000);
    assert U16(r, 0) == v % 0x1_0000 && U16(r, 2) == v / 0x1_0000;
    r
  }

  /** The two little-endian bytes of a signed 16-bit sample (two's complement). */
  function LeI16(v: int): (r: seq<Byte>)
    requires -0x8000 <= v <= 0x7FFF
    ensures |r| == 2 && I16(r, 0) == v
  {
    LeU16(if v < 0 then v + 0x1_0000 else v)
  }
}
