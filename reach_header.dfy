/** The third-generation (Halo Reach) container header: a fixed-layout,
    big-endian record read field by field through a cursor
    (BlamLib/BlamLib/Blam/HaloReach/CacheFile.cs, CacheHeader.Read).

    The layout is given twice: once as the cursor-driven method
    `CacheHeader.Read`, which consumes widths one after another, and once as
    `ParseHeader`, which decodes every field at the absolute offset the
    loader's comments name (0x158, 0x2C4, 0x2F0, 0x46C, 0x4AC). The method's
    contract ties the two, so every offset comment is a proved fact. */
module ReachHeader {
  import opened Bytes
  import opened Errors
  import opened Streams

  /** Header sizes of the beta and release containers. */
  const kSizeOfBeta: nat := 0x4000
  const kSizeOf: nat := 0xA000

  /** Width of a fixed ASCII path field (source file, scenario path). */
  const PathLength: nat := 256

  /** Width of the interop block at 0x46C, as its offset and the 0x4AC comment place it. */
  const InteropSize: nat := 48

  /** The element table after the compression guid: 320 slots of 28 bytes. */
  const ElementSize: nat := 28
  const ElementSlots: nat := 320

  /** Where every read of the header has ended: after the compression guid. */
  const HeaderReadEnd: nat := 0x4C4

  const PartitionCount: nat := 6

  /** One memory partition: a base address and a size. */
  datatype Partition = Partition(baseAddress: uint32, size: int32)

  /** The dependency flags the header can add. */
  datatype HeaderFlag = DependsOnMainMenu | DependsOnShared | DependsOnCampaign

  /** The runs of the header, in the order they are stored. */
  datatype Identity = Identity(fileLength: int32, tagIndexAddress: uint32, memoryBufferOffset: int32, memoryBufferSize: int32)
  datatype BuildInfo = BuildInfo(sourceFile: string, build: string, cacheType: int16, sharedType: int16)
  datatype StringIdTable = StringIdTable(count: int32, bufferSize: int32, indicesOffset: int32, bufferOffset: int32)
  datatype Timestamps = Timestamps(needsShared: bool, filetimeHigh: int32, filetimeLow: int32)
  datatype Names = Names(name: string, scenarioPath: string)
  datatype TagNameTable = TagNameTable(count: int32, bufferOffset: int32, bufferSize: int32, indicesOffset: int32)
  datatype Addresses = Addresses(checksum: uint32, baseAddress: uint32, xdkVersion: int32)
  datatype Trailer = Trailer(interop: seq<byte>, compressionGuid: seq<byte>)

  /** Everything the header read stores, apart from the dependency flags it adds. */
  datatype Header = Header(
    version: int32, identity: Identity, buildInfo: BuildInfo, stringIds: StringIdTable,
    timestamps: Timestamps, names: Names, tagNames: TagNameTable, addresses: Addresses,
    partitions: seq<Partition>, trailer: Trailer)

  /** The accepted values of the version field. */
  predicate AcceptedVersion(v: int) {
    v == 11 || v == 12
  }

  // Each run decoded at the offset `p` it starts at; the widths add up to the next run's offset.

  const IdentitySize: nat := 5 * 4

  /** File length, an unused dword, the tag index address and the memory buffer. */
  function IdentityAt(e: Endian, data: seq<byte>, p: nat): Identity
    requires p + IdentitySize <= |data|
  {
    Identity(I32At(e, data, p), U32At(e, data, p + 8), I32At(e, data, p + 12), I32At(e, data, p + 16))
  }

  const BuildInfoSize: nat := PathLength + TagStringLength + 2 + 2

  /** The source file path, the build string, and the cache and shared types. */
  function BuildInfoAt(e: Endian, data: seq<byte>, p: nat): BuildInfo
    requires p + BuildInfoSize <= |data|
  {
    BuildInfo(AsciiZ(data[p..p + PathLength]), AsciiZ(data[p + PathLength..p + PathLength + TagStringLength]),
      I16At(e, data, p + PathLength + TagStringLength), I16At(e, data, p + PathLength + TagStringLength + 2))
  }

  /** Three bools, a byte and five dwords, none of them kept. */
  const ReservedSize: nat := 1 + 1 + 1 + 1 + 5 * 4

  const TableSize: nat := 4 * 4

  /** The string-id table descriptor: count, buffer size, index table offset, buffer offset. */
  function StringIdTableAt(e: Endian, data: seq<byte>, p: nat): StringIdTable
    requires p + TableSize <= |data|
  {
    StringIdTable(I32At(e, data, p), I32At(e, data, p + 4), I32At(e, data, p + 8), I32At(e, data, p + 12))
  }

  const TimestampsSize: nat := 3 * 4

  /** The needs-shared dword (true when non-zero) and the two filetime halves. */
  function TimestampsAt(e: Endian, data: seq<byte>, p: nat): Timestamps
    requires p + TimestampsSize <= |data|
  {
    Timestamps(I32At(e, data, p) != 0, I32At(e, data, p + 4), I32At(e, data, p + 8))
  }

  const DependenciesSize: nat := 3 * 8

  /** The flags for the three dependency dwords, each followed by an unused dword. */
  function DependenciesAt(e: Endian, data: seq<byte>, p: nat): (r: set<HeaderFlag>)
    requires p + DependenciesSize <= |data|
    ensures DependsOnMainMenu in r <==> I32At(e, data, p) != 0
    ensures DependsOnShared in r <==> I32At(e, data, p + 8) != 0
    ensures DependsOnCampaign in r <==> I32At(e, data, p + 16) != 0
  {
    (if I32At(e, data, p) != 0 then {DependsOnMainMenu} else {})
      + (if I32At(e, data, p + 8) != 0 then {DependsOnShared} else {})
      + (if I32At(e, data, p + 16) != 0 then {DependsOnCampaign} else {})
  }

  const NamesSize: nat := TagStringLength + 4 + PathLength + 4

  /** The map name, an unused dword, the scenario path and the unused minor version. */
  function NamesAt(data: seq<byte>, p: nat): Names
    requires p + NamesSize <= |data|
  {
    Names(AsciiZ(data[p..p + TagStringLength]), AsciiZ(data[p + TagStringLength + 4..p + TagStringLength + 4 + PathLength]))
  }

  /** The tag-name table descriptor: count, buffer offset, buffer size, index table offset. */
  function TagNameTableAt(e: Endian, data: seq<byte>, p: nat): TagNameTable
    requires p + TableSize <= |data|
  {
    TagNameTable(I32At(e, data, p), I32At(e, data, p + 4), I32At(e, data, p + 8), I32At(e, data, p + 12))
  }

  const AddressesSize: nat := 4 + 32 + 4 + 4

  /** The checksum, 32 constant bytes, the expected base address and the xdk version. */
  function AddressesAt(e: Endian, data: seq<byte>, p: nat): Addresses
    requires p + AddressesSize <= |data|
  {
    Addresses(U32At(e, data, p), U32At(e, data, p + 36), I32At(e, data, p + 40))
  }

  const PartitionsSize: nat := PartitionCount * 8

  /** The six partitions, as (base address, size) pairs in on-disk order. */
  function PartitionsAt(e: Endian, data: seq<byte>, p: nat): (r: seq<Partition>)
    requires p + PartitionsSize <= |data|
    ensures |r| == PartitionCount
    ensures forall i :: 0 <= i < PartitionCount ==>
      r[i] == Partition(U32At(e, data, p + 8 * i), I32At(e, data, p + 8 * i + 4))
  {
    [Partition(U32At(e, data, p), I32At(e, data, p + 4)),
     Partition(U32At(e, data, p + 8), I32At(e, data, p + 12)),
     Partition(U32At(e, data, p + 16), I32At(e, data, p + 20)),
     Partition(U32At(e, data, p + 24), I32At(e, data, p + 28)),
     Partition(U32At(e, data, p + 32), I32At(e, data, p + 36)),
     Partition(U32At(e, data, p + 40), I32At(e, data, p + 44))]
  }

  /** From the trailer's start: an overwritten count, 12 and 316 reserved bytes, the interop
      block, 16 constant bytes, two int16 (the second is the element count), a dword and
      the 16-byte compression guid. */
  const InteropOffset: nat := 4 + 12 + 316
  const ElementCountOffset: nat := InteropOffset + InteropSize + 16 + 2
  const GuidOffset: nat := ElementCountOffset + 2 + 4
  const TrailerReadSize: nat := GuidOffset + 16
  /** The reserved run after the element table. */
  const FinalReservedSize: nat := 6200 + 4

  function TrailerAt(data: seq<byte>, p: nat): (t: Trailer)
    requires p + TrailerReadSize <= |data|
    ensures |t.interop| == InteropSize && |t.compressionGuid| == 16
  {
    Trailer(data[p + InteropOffset..p + InteropOffset + InteropSize], data[p + GuidOffset..p + TrailerReadSize])
  }

  /** The element count that decides the element-table seek. */
  function ElementCountAt(e: Endian, data: seq<byte>, p: nat): int16
    requires p + TrailerReadSize <= |data|
  {
    I16At(e, data, p + ElementCountOffset)
  }

  /** The absolute offsets of the runs, as the loader's comments give them. */
  const IdentityStart: nat := 8
  const StringIdsStart: nat := 0x158
  const TimestampsStart: nat := 0x168
  const DependenciesStart: nat := 0x174
  const NamesStart: nat := 0x18C
  const TagNamesStart: nat := 0x2B4
  const ChecksumStart: nat := 0x2C4
  const PartitionsStart: nat := 0x2F0
  const TrailerStart: nat := 0x320

  /** Each run ends where the next begins, and the trailer's interop block and guid land at
      0x46C and 0x4B4: the layout the comments record is the one the widths produce. */
  lemma LayoutOffsets()
    ensures IdentityStart + IdentitySize + BuildInfoSize + ReservedSize == StringIdsStart
    ensures StringIdsStart + TableSize == TimestampsStart
    ensures TimestampsStart + TimestampsSize == DependenciesStart
    ensures DependenciesStart + DependenciesSize == NamesStart
    ensures NamesStart + NamesSize == TagNamesStart
    ensures TagNamesStart + TableSize == ChecksumStart
    ensures ChecksumStart + AddressesSize == PartitionsStart
    ensures PartitionsStart + PartitionsSize == TrailerStart
    ensures TrailerStart + InteropOffset == 0x46C && TrailerStart + InteropOffset + InteropSize + 16 == 0x4AC
    ensures TrailerStart + TrailerReadSize == HeaderReadEnd
  {
  }

  /** Every field decoded at the absolute offset the loader's layout puts it. */
  function HeaderAt(e: Endian, data: seq<byte>): (h: Header)
    requires HeaderReadEnd <= |data|
    ensures |h.partitions| == PartitionCount
    ensures |h.trailer.interop| == InteropSize && |h.trailer.compressionGuid| == 16
  {
    LayoutOffsets();
    Header(I32At(e, data, 4), IdentityAt(e, data, IdentityStart),
      BuildInfoAt(e, data, IdentityStart + IdentitySize), StringIdTableAt(e, data, StringIdsStart),
      TimestampsAt(e, data, TimestampsStart), NamesAt(data, NamesStart),
      TagNameTableAt(e, data, TagNamesStart), AddressesAt(e, data, ChecksumStart),
      PartitionsAt(e, data, PartitionsStart), TrailerAt(data, TrailerStart))
  }

  /** The header decoded at absolute offsets. The read fails at the end of the data
      before the version, on a version other than 11 or 12, at the end of the data
      anywhere before 0x4C4, or when the element count at 0x4AE (-44 or less) sends the cursor
      before the start. */
  function ParseHeader(e: Endian, data: seq<byte>): (r: Result<Header>)
    ensures r.Success? ==> AcceptedVersion(r.value.version) && |data| >= HeaderReadEnd
    ensures |data| >= 8 && !AcceptedVersion(I32At(e, data, 4)) ==> r == Failure(InvalidCacheFile)
    ensures r.Success? ==> (r.value.timestamps.needsShared <==> I32At(e, data, 0x168) != 0)
    ensures |data| >= HeaderReadEnd && AcceptedVersion(I32At(e, data, 4)) ==>
      && (r.Failure? <==> ElementCountAt(e, data, TrailerStart) <= -44)
      && (r.Failure? ==> r.error == SeekBeforeBegin)
  {
    if |data| < 8 then Failure(EndOfStream)
    else if !AcceptedVersion(I32At(e, data, 4)) then Failure(InvalidCacheFile)
    else if |data| < HeaderReadEnd then Failure(EndOfStream)
    else if HeaderReadEnd + ElementSize * ElementCountAt(e, data, TrailerStart) < 0 then Failure(SeekBeforeBegin)
    else Success(HeaderAt(e, data))
  }

  /** The header's version gate in both directions: past the version field, the read
      is refused as an invalid cache exactly when the version is neither 11 nor 12. */
  lemma VersionGate(e: Endian, data: seq<byte>)
    requires |data| >= 8
    ensures ParseHeader(e, data) == Failure(InvalidCacheFile) <==> !AcceptedVersion(I32At(e, data, 4))
  {
  }

  /** The two seeks over the element table skip 320 slots together, whatever the count,
      so the cursor leaves the table at 0x27C4 and the header read at 0x4000. */
  lemma ElementTableSkip(count: int)
    ensures HeaderReadEnd + ElementSize * count + (ElementSlots - count) * ElementSize == 0x27C4
    ensures 0x27C4 + FinalReservedSize == kSizeOfBeta
  {
  }

  // The cursor-driven reads of the runs. Each consumes its run's width and fails, at the
  // end of the data, exactly when the run does not fit.

  method ReadIdentity(s: Reader) returns (r: Result<Identity>)
    modifies s
    ensures r.Success? <==> old(s.pos) + IdentitySize <= |s.data|
    ensures r.Success? ==> s.pos == old(s.pos) + IdentitySize && r.value == IdentityAt(s.endian, s.data, old(s.pos))
    ensures r.Failure? ==> r.error == EndOfStream
  {
    var fileLength :- s.ReadInt32();
    var _ :- s.ReadInt32();
    var tagIndexAddress :- s.ReadUInt32();
    var memoryBufferOffset :- s.ReadInt32();
    var memoryBufferSize :- s.ReadInt32();
    r := Success(Identity(fileLength, tagIndexAddress, memoryBufferOffset, memoryBufferSize));
  }

  method ReadBuildInfo(s: Reader) returns (r: Result<BuildInfo>)
    modifies s
    ensures r.Success? <==> old(s.pos) + BuildInfoSize <= |s.data|
    ensures r.Success? ==> s.pos == old(s.pos) + BuildInfoSize && r.value == BuildInfoAt(s.endian, s.data, old(s.pos))
    ensures r.Failure? ==> r.error == EndOfStream
  {
    var sourceFile :- s.ReadAsciiString(PathLength);
    var build :- s.ReadTagString();
    var cacheType :- s.ReadInt16();
    var sharedType :- s.ReadInt16();
    r := Success(BuildInfo(sourceFile, build, cacheType, sharedType));
  }

  method ReadReserved(s: Reader) returns (r: Status)
    modifies s
    ensures r.Success? <==> old(s.pos) + ReservedSize <= |s.data|
    ensures r.Success? ==> s.pos == old(s.pos) + ReservedSize
    ensures r.Failure? ==> r.error == EndOfStream
  {
    var _ :- s.ReadBool();
    var _ :- s.ReadBool(); // false for an untracked build
    var _ :- s.ReadBool();
    var _ :- s.ReadByte();
    var _ :- s.ReadInt32(); var _ :- s.ReadInt32();
    var _ :- s.ReadInt32(); var _ :- s.ReadInt32(); var _ :- s.ReadInt32();
    r := Done;
  }

  method ReadStringIdTable(s: Reader) returns (r: Result<StringIdTable>)
    modifies s
    ensures r.Success? <==> old(s.pos) + TableSize <= |s.data|
    ensures r.Success? ==> s.pos == old(s.pos) + TableSize && r.value == StringIdTableAt(s.endian, s.data, old(s.pos))
    ensures r.Failure? ==> r.error == EndOfStream
  {
    var count :- s.ReadInt32();
    var bufferSize :- s.ReadInt32();
    var indicesOffset :- s.ReadInt32();
    var bufferOffset :- s.ReadInt32();
    r := Success(StringIdTable(count, bufferSize, indicesOffset, bufferOffset));
  }

  method ReadTimestamps(s: Reader) returns (r: Result<Timestamps>)
    modifies s
    ensures r.Success? <==> old(s.pos) + TimestampsSize <= |s.data|
    ensures r.Success? ==> s.pos == old(s.pos) + TimestampsSize && r.value == TimestampsAt(s.endian, s.data, old(s.pos))
    ensures r.Failure? ==> r.error == EndOfStream
  {
    var dword :- s.ReadInt32();
    var high :- s.ReadInt32();
    var low :- s.ReadInt32();
    r := Success(Timestamps(dword != 0, high, low));
  }

  /** Adds a flag to `flags` for each non-zero dependency dword; nothing is removed. */
  method ReadDependencies(s: Reader, flags: set<HeaderFlag>) returns (r: Result<set<HeaderFlag>>)
    modifies s
    ensures r.Success? <==> old(s.pos) + DependenciesSize <= |s.data|
    ensures r.Success? ==> s.pos == old(s.pos) + DependenciesSize && r.value == flags + DependenciesAt(s.endian, s.data, old(s.pos))
    ensures r.Failure? ==> r.error == EndOfStream
  {
    var result := flags;
    var dword :- s.ReadInt32();
    if dword != 0 { result := result + {DependsOnMainMenu}; }
    var _ :- s.ReadInt32();
    dword :- s.ReadInt32();
    if dword != 0 { result := result + {DependsOnShared}; }
    var _ :- s.ReadInt32();
    dword :- s.ReadInt32();
    if dword != 0 { result := result + {DependsOnCampaign}; }
    var _ :- s.ReadInt32();
    r := Success(result);
  }

  method ReadNames(s: Reader) returns (r: Result<Names>)
    modifies s
    ensures r.Success? <==> old(s.pos) + NamesSize <= |s.data|
    ensures r.Success? ==> s.pos == old(s.pos) + NamesSize && r.value == NamesAt(s.data, old(s.pos))
    ensures r.Failure? ==> r.error == EndOfStream
  {
    var name :- s.ReadTagString();
    var _ :- s.ReadInt32();
    var scenarioPath :- s.ReadAsciiString(PathLength);
    var _ :- s.ReadInt32(); // minor version
    r := Success(Names(name, scenarioPath));
  }

  method ReadTagNameTable(s: Reader) returns (r: Result<TagNameTable>)
    modifies s
    ensures r.Success? <==> old(s.pos) + TableSize <= |s.data|
    ensures r.Success? ==> s.pos == old(s.pos) + TableSize && r.value == TagNameTableAt(s.endian, s.data, old(s.pos))
    ensures r.Failure? ==> r.error == EndOfStream
  {
    var count :- s.ReadInt32();
    var bufferOffset :- s.ReadInt32(); // C-string buffer
    var bufferSize :- s.ReadInt32();
    var indicesOffset :- s.ReadInt32();
    r := Success(TagNameTable(count, bufferOffset, bufferSize, indicesOffset));
  }

  method ReadAddresses(s: Reader) returns (r: Result<Addresses>)
    modifies s
    ensures r.Success? <==> old(s.pos) + AddressesSize <= |s.data|
    ensures r.Success? ==> s.pos == old(s.pos) + AddressesSize && r.value == AddressesAt(s.endian, s.data, old(s.pos))
    ensures r.Failure? ==> r.error == EndOfStream
  {
    var checksum :- s.ReadUInt32();
    s.Skip(32);
    var baseAddress :- s.ReadUInt32();
    var xdkVersion :- s.ReadInt32();
    r := Success(Addresses(checksum, baseAddress, xdkVersion));
  }

  /** One partition entry: its base address, then its size. */
  method ReadPartition(s: Reader) returns (r: Result<Partition>)
    modifies s
    ensures r.Success? <==> old(s.pos) + 8 <= |s.data|
    ensures r.Success? ==> (s.pos == old(s.pos) + 8
      && r.value == Partition(U32At(s.endian, s.data, old(s.pos)), I32At(s.endian, s.data, old(s.pos) + 4)))
    ensures r.Failure? ==> r.error == EndOfStream
  {
    var baseAddress :- s.ReadUInt32();
    var size :- s.ReadInt32();
    r := Success(Partition(baseAddress, size));
  }

  /** Fills slot `k` of the partition table from the cursor; no other slot changes. */
  method ReadPartitionInto(s: Reader, a: array<Partition>, k: nat) returns (r: Status)
    requires k < a.Length
    modifies s, a
    ensures r.Success? <==> old(s.pos) + 8 <= |s.data|
    ensures r.Success? ==> (s.pos == old(s.pos) + 8
      && a[..] == old(a[..])[k := Partition(U32At(s.endian, s.data, old(s.pos)), I32At(s.endian, s.data, old(s.pos) + 4))])
    ensures r.Failure? ==> r.error == EndOfStream
  {
    var p :- ReadPartition(s);
    a[k] := p;
    r := Done;
  }

  /** Fills the six-entry partition table in on-disk order. */
  method ReadPartitions(s: Reader, a: array<Partition>) returns (r: Status)
    requires a.Length == PartitionCount
    modifies s, a
    ensures r.Success? <==> old(s.pos) + PartitionsSize <= |s.data|
    ensures r.Success? ==> s.pos == old(s.pos) + PartitionsSize && a[..] == PartitionsAt(s.endian, s.data, old(s.pos))
    ensures r.Failure? ==> r.error == EndOfStream
  {
    var _ :- ReadPartitionInto(s, a, 0); // cache resource buffer
    var _ :- ReadPartitionInto(s, a, 1); // cache gestalt resource buffer
    var _ :- ReadPartitionInto(s, a, 2); // global tags buffer
    var _ :- ReadPartitionInto(s, a, 3); // shared tag blocks
    var _ :- ReadPartitionInto(s, a, 4);
    var _ :- ReadPartitionInto(s, a, 5); // map tags buffer
    r := Done;
  }

  /** The trailer: reserved runs, the interop block, the element count, the compression
      guid, the two seeks over the element table, and the final reserved run. */
  method ReadTrailer(s: Reader) returns (r: Result<Trailer>)
    modifies s
    ensures r.Success? <==> (old(s.pos) + TrailerReadSize <= |s.data|
      && old(s.pos) + TrailerReadSize + ElementSize * ElementCountAt(s.endian, s.data, old(s.pos)) >= 0)
    ensures r.Success? ==> (r.value == TrailerAt(s.data, old(s.pos))
      && s.pos == old(s.pos) + TrailerReadSize + ElementSlots * ElementSize + FinalReservedSize)
    ensures r.Failure? ==> r.error == if old(s.pos) + TrailerReadSize > |s.data| then EndOfStream else SeekBeforeBegin
  {
    var count :- s.ReadInt32();
    s.Skip(4 + 8);
    s.Skip(20 + 40 + 256); // a hash and a signature, if anywhere

    // 0x46C
    var interop :- s.ReadBytes(InteropSize);
    s.Skip(16);

    // 0x4AC
    var _ :- s.ReadInt16();
    var count16 :- s.ReadInt16();
    count := count16;
    var _ :- s.ReadInt32();
    var guid :- s.ReadBytes(16);

    var _ :- s.Seek(count * ElementSize, Current);
    var _ := s.Seek((ElementSlots - count) * ElementSize, Current);
    s.Skip(FinalReservedSize);
    r := Success(Trailer(interop, guid));
  }

  /** The runs from the file length to the string-id table: 0x8 up to 0x168. */
  const PrologueSize: nat := IdentitySize + BuildInfoSize + ReservedSize + TableSize

  method ReadPrologue(s: Reader) returns (r: Result<(Identity, BuildInfo, StringIdTable)>)
    modifies s
    ensures r.Success? <==> old(s.pos) + PrologueSize <= |s.data|
    ensures r.Success? ==> (s.pos == old(s.pos) + PrologueSize
      && r.value == (IdentityAt(s.endian, s.data, old(s.pos)),
                     BuildInfoAt(s.endian, s.data, old(s.pos) + IdentitySize),
                     StringIdTableAt(s.endian, s.data, old(s.pos) + IdentitySize + BuildInfoSize + ReservedSize)))
    ensures r.Failure? ==> r.error == EndOfStream
  {
    var identity :- ReadIdentity(s);
    var buildInfo :- ReadBuildInfo(s);
    var _ :- ReadReserved(s);
    // 0x158
    var stringIds :- ReadStringIdTable(s);
    r := Success((identity, buildInfo, stringIds));
  }

  /** The runs from the timestamps to the expected base address: 0x168 up to 0x2F0. */
  const DescriptorsSize: nat := TimestampsSize + DependenciesSize + NamesSize + TableSize + AddressesSize

  method ReadDescriptors(s: Reader, flags: set<HeaderFlag>)
    returns (r: Result<(Timestamps, set<HeaderFlag>, Names, TagNameTable, Addresses)>)
    modifies s
    ensures r.Success? <==> old(s.pos) + DescriptorsSize <= |s.data|
    ensures r.Success? ==> (s.pos == old(s.pos) + DescriptorsSize
      && r.value == (TimestampsAt(s.endian, s.data, old(s.pos)),
                     flags + DependenciesAt(s.endian, s.data, old(s.pos) + TimestampsSize),
                     NamesAt(s.data, old(s.pos) + TimestampsSize + DependenciesSize),
                     TagNameTableAt(s.endian, s.data, old(s.pos) + TimestampsSize + DependenciesSize + NamesSize),
                     AddressesAt(s.endian, s.data, old(s.pos) + TimestampsSize + DependenciesSize + NamesSize + TableSize)))
    ensures r.Failure? ==> r.error == EndOfStream
  {
    var timestamps :- ReadTimestamps(s);
    var newFlags :- ReadDependencies(s, flags);
    var names :- ReadNames(s);
    var tagNames :- ReadTagNameTable(s);
    // 0x2C4
    var addresses :- ReadAddresses(s);
    r := Success((timestamps, newFlags, names, tagNames, addresses));
  }

  /** Every run after the version field, read from offset 8 with the cursor there: the
      decoded header, the dependency flags added to `flags`, and the partition table
      filled in `a`. The read fails at the end of the data anywhere before 0x4C4, or when
      the element count sends the cursor before the start. */
  method ReadRuns(s: Reader, version: int32, flags: set<HeaderFlag>, a: array<Partition>)
    returns (r: Result<(Header, set<HeaderFlag>)>)
    requires s.pos == IdentityStart && 8 <= |s.data| && version == I32At(s.endian, s.data, 4)
    requires a.Length == PartitionCount
    modifies s, a
    ensures r.Success? <==> (HeaderReadEnd <= |s.data|
      && HeaderReadEnd + ElementSize * ElementCountAt(s.endian, s.data, TrailerStart) >= 0)
    ensures r.Success? ==> (r.value.0 == HeaderAt(s.endian, s.data) && a[..] == r.value.0.partitions
      && r.value.1 == flags + DependenciesAt(s.endian, s.data, DependenciesStart)
      && s.pos == kSizeOfBeta)
    ensures r.Failure? ==> r.error == if |s.data| < HeaderReadEnd then EndOfStream else SeekBeforeBegin
  {
    LayoutOffsets();
    var prologue :- ReadPrologue(s);
    var descriptors :- ReadDescriptors(s, flags);
    // 0x2F0
    var _ :- ReadPartitions(s, a);
    var trailer :- ReadTrailer(s);
    ElementTableSkip(ElementCountAt(s.endian, s.data, TrailerStart));
    var (identity, buildInfo, stringIds) := prologue;
    var (timestamps, newFlags, names, tagNames, addresses) := descriptors;
    r := Success((Header(version, identity, buildInfo, stringIds, timestamps, names, tagNames, addresses, a[..], trailer), newFlags));
  }

  /** Where the index lies and how addresses become offsets; derived by the header's
      post-processing, which is a collaborator here. */
  datatype IndexLocation = IndexLocation(offsetToIndex: nat, addressMask: uint32)

  type BaseAddressRule = Header -> IndexLocation

  class CacheHeader {
    var version: int32
    var identity: Identity
    var buildInfo: BuildInfo
    var stringIds: StringIdTable
    var timestamps: Timestamps
    var flags: set<HeaderFlag>
    var names: Names
    var tagNames: TagNameTable
    var addresses: Addresses
    var memoryPartitions: array?<Partition>
    var trailer: Trailer
    var location: IndexLocation

    /** The stored fields as one value. */
    function View(): Header
      reads this, memoryPartitions
      requires memoryPartitions != null
    {
      Header(version, identity, buildInfo, stringIds, timestamps, names, tagNames, addresses,
        memoryPartitions[..], trailer)
    }

    constructor ()
      ensures memoryPartitions == null && flags == {}
    {
      memoryPartitions := null;
      flags := {};
      identity := Identity(0, 0, 0, 0);
      buildInfo := BuildInfo([], [], 0, 0);
      stringIds := StringIdTable(0, 0, 0, 0);
      timestamps := Timestamps(false, 0, 0);
      names := Names([], []);
      tagNames := TagNameTable(0, 0, 0, 0);
      addresses := Addresses(0, 0, 0);
    }

    /** Reads the header from the start of `s`. On success every field holds its value at
        the absolute offset HeaderAt gives, the partition table is a new six-entry array
        in on-disk order, the dependency flags are added to those already set, and the
        cursor stands at 0x4000; on failure the error is ParseHeader's. */
    method Read(s: Reader, locate: BaseAddressRule) returns (r: Status)
      modifies this, s
      ensures r.Success? <==> ParseHeader(s.endian, s.data).Success?
      ensures r.Failure? ==> r.error == ParseHeader(s.endian, s.data).error
      ensures r.Success? ==>
        && memoryPartitions != null && fresh(memoryPartitions)
        && View() == HeaderAt(s.endian, s.data)
        && flags == old(flags) + DependenciesAt(s.endian, s.data, DependenciesStart)
        && location == locate(HeaderAt(s.endian, s.data))
        && s.pos == kSizeOfBeta
    {
      s.SeekTo(4);
      var v :- s.ReadInt32();
      version := v;
      if version != 11 && version != 12 {
        return Failure(InvalidCacheFile);
      }
      var partitions := new Partition[PartitionCount](_ => Partition(0, 0));
      var runs :- ReadRuns(s, version, flags, partitions);
      flags := runs.1;
      Store(runs.0, partitions, locate(runs.0));
      r := Done;
    }

    /** Stores a decoded header, its partition table and the index location in the fields. */
    method Store(h: Header, partitions: array<Partition>, location: IndexLocation)
      requires partitions[..] == h.partitions
      modifies this
      ensures memoryPartitions == partitions && flags == old(flags)
      ensures View() == h && this.location == location
    {
      version, identity, buildInfo, stringIds, timestamps := h.version, h.identity, h.buildInfo, h.stringIds, h.timestamps;
      names, tagNames, addresses, trailer := h.names, h.tagNames, h.addresses, h.trailer;
      memoryPartitions, this.location := partitions, location;
    }
  }
}
