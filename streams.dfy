/** The endian-aware byte source and sink the loader reads and writes
    through (the library's EndianReader and EndianWriter). A source is an
    immutable byte sequence plus a cursor. The reader's own body is not part of
    this model; it is assumed that the cursor may be sought past the end and that a read of
    a fixed count there fails rather than returning fewer bytes. */
module Streams {
  import opened Bytes
  import opened Errors

  /** Width of a fixed tag string (build string, map name). */
  const TagStringLength: nat := 32

  /** The index of the first NUL byte at or after `pos`, if any. */
  function NulFrom(data: seq<byte>, pos: nat): (r: Option<nat>)
    decreases |data| - pos
    ensures r.Some? ==> pos <= r.value < |data| && data[r.value] == 0
    ensures r.Some? ==> forall k :: pos <= k < r.value ==> data[k] != 0
    ensures r.None? ==> forall k :: pos <= k < |data| ==> data[k] != 0
  {
    if pos >= |data| then None
    else if data[pos] == 0 then Some(pos)
    else NulFrom(data, pos + 1)
  }

  /** Bytes as single-byte characters: each byte becomes the character with its code (Latin-1). */
  function Chars(b: seq<byte>): (s: string)
    ensures |s| == |b|
    ensures forall i :: 0 <= i < |b| ==> s[i] as int == b[i]
  {
    seq(|b|, i requires 0 <= i < |b| => b[i] as char)
  }

  /** The text of a fixed-width, NUL-padded ASCII field: the characters before its first NUL. */
  function AsciiZ(b: seq<byte>): (s: string)
    ensures |s| <= |b|
    ensures forall i :: 0 <= i < |s| ==> s[i] as int == b[i] && b[i] != 0
  {
    match NulFrom(b, 0)
    case None => Chars(b)
    case Some(k) => Chars(b[..k])
  }

  datatype SeekOrigin = Begin | Current

  class Reader {
    const data: seq<byte>
    const endian: Endian
    var pos: nat

    constructor (data: seq<byte>, endian: Endian)
      ensures this.data == data && this.endian == endian && pos == 0
    {
      this.data, this.endian, pos := data, endian, 0;
    }

    /** Moves the cursor relative to the start or to its current place; only a target below 0 fails. */
    method Seek(offset: int, origin: SeekOrigin) returns (r: Result<nat>)
      modifies this
      ensures var target := (if origin == Begin then 0 else old(pos)) + offset;
        if target >= 0 then r == Success(target) && pos == target
        else r == Failure(SeekBeforeBegin) && pos == old(pos)
    {
      var target := (if origin == Begin then 0 else pos) + offset;
      if target < 0 {
        return Failure(SeekBeforeBegin);
      }
      pos := target;
      r := Success(target);
    }

    /** A forward seek relative to the cursor (Seek(n, Current) with n >= 0), which cannot fail. */
    method Skip(n: nat)
      modifies this
      ensures pos == old(pos) + n
    {
      pos := pos + n;
    }

    /** A seek from the beginning to a non-negative offset, which cannot fail. */
    method SeekTo(p: nat)
      modifies this
      ensures pos == p
    {
      pos := p;
    }

    /** Reads `n` bytes at the cursor; a read past the end fails and leaves the cursor. */
    method ReadBytes(n: nat) returns (r: Result<seq<byte>>)
      modifies this
      ensures r.Success? <==> old(pos) + n <= |data|
      ensures r.Success? ==> r.value == data[old(pos)..old(pos) + n] && pos == old(pos) + n
      ensures r.Failure? ==> r.error == EndOfStream && pos == old(pos)
    {
      if pos + n > |data| {
        return Failure(EndOfStream);
      }
      r := Success(data[pos..pos + n]);
      pos := pos + n;
    }

    method ReadByte() returns (r: Result<byte>)
      modifies this
      ensures r.Success? <==> old(pos) + 1 <= |data|
      ensures r.Success? ==> r.value == data[old(pos)] && pos == old(pos) + 1
      ensures r.Failure? ==> r.error == EndOfStream && pos == old(pos)
    {
      var b :- ReadBytes(1);
      r := Success(b[0]);
    }

    /** A one-byte boolean: any non-zero byte is true. */
    method ReadBool() returns (r: Result<bool>)
      modifies this
      ensures r.Success? <==> old(pos) + 1 <= |data|
      ensures r.Success? ==> r.value == (data[old(pos)] != 0) && pos == old(pos) + 1
      ensures r.Failure? ==> r.error == EndOfStream && pos == old(pos)
    {
      var b :- ReadBytes(1);
      r := Success(b[0] != 0);
    }

    method ReadInt16() returns (r: Result<int16>)
      modifies this
      ensures r.Success? <==> old(pos) + 2 <= |data|
      ensures r.Success? ==> r.value == I16At(endian, data, old(pos)) && pos == old(pos) + 2
      ensures r.Failure? ==> r.error == EndOfStream && pos == old(pos)
    {
      var b :- ReadBytes(2);
      r := Success(AsInt16(U16(endian, b)));
    }

    method ReadUInt32() returns (r: Result<uint32>)
      modifies this
      ensures r.Success? <==> old(pos) + 4 <= |data|
      ensures r.Success? ==> r.value == U32At(endian, data, old(pos)) && pos == old(pos) + 4
      ensures r.Failure? ==> r.error == EndOfStream && pos == old(pos)
    {
      var b :- ReadBytes(4);
      r := Success(U32(endian, b));
    }

    method ReadInt32() returns (r: Result<int32>)
      modifies this
      ensures r.Success? <==> old(pos) + 4 <= |data|
      ensures r.Success? ==> r.value == I32At(endian, data, old(pos)) && pos == old(pos) + 4
      ensures r.Failure? ==> r.error == EndOfStream && pos == old(pos)
    {
      var b :- ReadBytes(4);
      r := Success(AsInt32(U32(endian, b)));
    }

    /** A fixed-width ASCII field of `n` bytes, cut at its first NUL. */
    method ReadAsciiString(n: nat) returns (r: Result<string>)
      modifies this
      ensures r.Success? <==> old(pos) + n <= |data|
      ensures r.Success? ==> r.value == AsciiZ(data[old(pos)..old(pos) + n]) && pos == old(pos) + n
      ensures r.Failure? ==> r.error == EndOfStream && pos == old(pos)
    {
      var b :- ReadBytes(n);
      r := Success(AsciiZ(b));
    }

    /** A tag string: a fixed ASCII field of TagStringLength bytes. */
    method ReadTagString() returns (r: Result<string>)
      modifies this
      ensures r.Success? <==> old(pos) + TagStringLength <= |data|
      ensures r.Success? ==> r.value == AsciiZ(data[old(pos)..old(pos) + TagStringLength]) && pos == old(pos) + TagStringLength
      ensures r.Failure? ==> r.error == EndOfStream && pos == old(pos)
    {
      r := ReadAsciiString(TagStringLength);
    }

    /** A NUL-terminated string: the characters up to the next NUL, which is consumed too.
        With no NUL before the end of the data the read fails. */
    method ReadCString() returns (r: Result<string>)
      modifies this
      ensures match NulFrom(data, old(pos))
        case Some(k) => r == Success(Chars(data[old(pos)..k])) && pos == k + 1
        case None => r == Failure(EndOfStream) && pos == old(pos)
    {
      if pos >= |data| {
        return Failure(EndOfStream);
      }
      var i := pos;
      while i < |data| && data[i] != 0
        invariant pos <= i <= |data|
        invariant NulFrom(data, pos) == NulFrom(data, i)
        decreases |data| - i
      {
        i := i + 1;
      }
      if i == |data| {
        return Failure(EndOfStream);
      }
      r := Success(Chars(data[pos..i]));
      pos := i + 1;
    }
  }

  /** A byte sink; every write appends at the end of what was written so far. */
  class Writer {
    const endian: Endian
    var bytes: seq<byte>

    constructor (endian: Endian)
      ensures this.endian == endian && bytes == []
    {
      this.endian, bytes := endian, [];
    }

    method WriteUInt32(v: uint32)
      modifies this
      ensures bytes == old(bytes) + EncodeU32(endian, v)
    {
      bytes := bytes + EncodeU32(endian, v);
    }

    method WriteInt32(v: int32)
      modifies this
      ensures bytes == old(bytes) + EncodeI32(endian, v)
    {
      bytes := bytes + EncodeI32(endian, v);
    }

    method WriteUInt64(v: uint64)
      modifies this
      ensures bytes == old(bytes) + EncodeU64(endian, v)
    {
      bytes := bytes + EncodeU64(endian, v);
    }
  }
}
