/** Fixed-width integers and their byte encodings in either byte order.
    The loader reads every multi-byte field through a stream that is bound
    to one byte order (big-endian for the third-generation container). */
module Bytes {

  type byte = x: int | 0 <= x < 0x100
  type uint16 = x: int | 0 <= x < 0x1_0000
  type int16 = x: int | -0x8000 <= x < 0x8000
  type uint32 = x: int | 0 <= x < 0x1_0000_0000
  type int32 = x: int | -0x8000_0000 <= x < 0x8000_0000
  type uint64 = x: int | 0 <= x < 0x1_0000_0000_0000_0000

  const UInt32Max: uint32 := 0xFFFF_FFFF

  datatype Endian = Big | Little

  /** Two's-complement reinterpretation of raw bits as a signed value. */
  function AsInt16(u: uint16): int16 {
    if u < 0x8000 then u else u - 0x1_0000
  }

  function AsInt32(u: uint32): int32 {
    if u < 0x8000_0000 then u else u - 0x1_0000_0000
  }

  /** The raw bits of a signed value: the C# `(uint)` cast. */
  function Bits32(i: int32): (u: uint32)
    ensures AsInt32(u) == i
    ensures u % 0x1_0000_0000 == i % 0x1_0000_0000
  {
    if i >= 0 then i else i + 0x1_0000_0000
  }

  function U16(e: Endian, b: seq<byte>): uint16
    requires |b| == 2
  {
    if e.Big? then (b[0] as int) * 0x100 + b[1] else (b[1] as int) * 0x100 + b[0]
  }

  function U32(e: Endian, b: seq<byte>): uint32
    requires |b| == 4
  {
    if e.Big? then (((b[0] as int) * 0x100 + b[1]) * 0x100 + b[2]) * 0x100 + b[3]
    else (((b[3] as int) * 0x100 + b[2]) * 0x100 + b[1]) * 0x100 + b[0]
  }

  function U16At(e: Endian, data: seq<byte>, p: nat): uint16
    requires p + 2 <= |data|
  {
    U16(e, data[p..p + 2])
  }

  function I16At(e: Endian, data: seq<byte>, p: nat): int16
    requires p + 2 <= |data|
  {
    AsInt16(U16At(e, data, p))
  }

  function U32At(e: Endian, data: seq<byte>, p: nat): uint32
    requires p + 4 <= |data|
  {
    U32(e, data[p..p + 4])
  }

  function I32At(e: Endian, data: seq<byte>, p: nat): int32
    requires p + 4 <= |data|
  {
    AsInt32(U32At(e, data, p))
  }

  /** The four bytes of a dword in byte order `e`; decoding them gives the dword back. */
  function EncodeU32(e: Endian, v: uint32): (r: seq<byte>)
    ensures |r| == 4
    ensures U32(e, r) == v
  {
    var b3, b2, b1, b0 := v % 0x100, v / 0x100 % 0x100, v / 0x100 / 0x100 % 0x100, v / 0x100 / 0x100 / 0x100;
    if e.Big? then [b0, b1, b2, b3] else [b3, b2, b1, b0]
  }

  function EncodeI32(e: Endian, v: int32): (r: seq<byte>)
    ensures |r| == 4
    ensures AsInt32(U32(e, r)) == v
  {
    EncodeU32(e, Bits32(v))
  }

  /** The eight bytes of a qword: the two dword halves, most significant first when big-endian. */
  function EncodeU64(e: Endian, v: uint64): (r: seq<byte>)
    ensures |r| == 8
    ensures v == 0 ==> forall i :: 0 <= i < 8 ==> r[i] == 0
  {
    var hi, lo := v / 0x1_0000_0000, v % 0x1_0000_0000;
    if e.Big? then EncodeU32(e, hi) + EncodeU32(e, lo) else EncodeU32(e, lo) + EncodeU32(e, hi)
  }

  /** Decoding then re-encoding four bytes gives the same bytes: the encoding is a bijection. */
  lemma {:induction false} EncodeDecodeU32(e: Endian, b: seq<byte>)
    requires |b| == 4
    ensures EncodeU32(e, U32(e, b)) == b
  {
    var v := U32(e, b);
    if e.Big? {
      assert v == (((b[0] as int) * 0x100 + b[1]) * 0x100 + b[2]) * 0x100 + b[3];
      assert v % 0x100 == b[3] && v / 0x100 == ((b[0] as int) * 0x100 + b[1]) * 0x100 + b[2];
      assert v / 0x100 / 0x100 == (b[0] as int) * 0x100 + b[1];
    } else {
      assert v == (((b[3] as int) * 0x100 + b[2]) * 0x100 + b[1]) * 0x100 + b[0];
      assert v % 0x100 == b[0] && v / 0x100 == ((b[3] as int) * 0x100 + b[2]) * 0x100 + b[1];
      assert v / 0x100 / 0x100 == (b[3] as int) * 0x100 + b[2];
    }
  }

  /** A dword inside a window of the data is the dword at the matching absolute offset. */
  lemma U32AtWithin(e: Endian, data: seq<byte>, p: nat, n: nat, q: nat)
    requires p + n <= |data| && q + 4 <= n
    ensures U32At(e, data[p..p + n], q) == U32At(e, data, p + q)
  {
    var w := data[p..p + n];
    var u, v := w[q..q + 4], data[p + q..p + q + 4];
    forall i | 0 <= i < 4
      ensures u[i] == v[i]
    {
      assert u[i] == w[q + i] == data[p + q + i];
    }
    assert u == v;
  }
}
