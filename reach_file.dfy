/** The Halo Reach cache file (BlamLib/BlamLib/Blam/HaloReach/CacheFile.cs,
    class `CacheFile`): its unique name, the choice of a shared stream for the
    known shared maps, and the load state machine that reads the header, the
    engine version and the tag index at most once. */
module ReachFile {
  import opened Bytes
  import opened Errors
  import opened Streams
  import opened Gen2
  import opened ReachHeader
  import opened ReachSegments
  import opened ReachIndex

  // -------------------------------------------------------------- unique name

  /** The upper-case hexadecimal digit of a value below 16. */
  function HexDigit(d: nat): (c: char)
    requires d < 16
    ensures '0' <= c <= '9' || 'A' <= c <= 'F'
  {
    if d < 10 then ('0' as int + d) as char else ('A' as int + d - 10) as char
  }

  /** The value of a hexadecimal digit; anything else counts as 0. */
  function DigitValue(c: char): (d: nat)
    ensures d < 16
  {
    if '0' <= c <= '9' then c as int - '0' as int
    else if 'A' <= c <= 'F' then c as int - 'A' as int + 10
    else 0
  }

  function Pow16(n: nat): (r: nat)
    ensures r >= 1
  {
    if n == 0 then 1 else 16 * Pow16(n - 1)
  }

  /** The `n` low hexadecimal digits of `v`, most significant first, padded with zeros. */
  function HexDigits(v: nat, n: nat): (r: string)
    ensures |r| == n
    ensures forall i :: 0 <= i < n ==> '0' <= r[i] <= '9' || 'A' <= r[i] <= 'F'
  {
    if n == 0 then "" else HexDigits(v / 16, n - 1) + [HexDigit(v % 16)]
  }

  /** A string of hexadecimal digits read as a number, most significant first. */
  function ParseHex(s: string): nat {
    if s == [] then 0 else ParseHex(s[..|s| - 1]) * 16 + DigitValue(s[|s| - 1])
  }

  /** Reading `n` digits back gives the value, for a value that fits them. */
  lemma {:induction false} ParseHexDigits(v: nat, n: nat)
    requires v < Pow16(n)
    ensures ParseHex(HexDigits(v, n)) == v
  {
    if n > 0 {
      var d := HexDigits(v, n);
      assert d[..|d| - 1] == HexDigits(v / 16, n - 1);
      assert v / 16 < Pow16(n - 1);
      ParseHexDigits(v / 16, n - 1);
      assert DigitValue(HexDigit(v % 16)) == v % 16;
    }
  }

  /** The "X8" format of a 32-bit value: eight upper-case hexadecimal digits. A negative
      integer is formatted by its raw bits, so the caller passes Bits32 of it. */
  function Hex8(v: uint32): (r: string)
    ensures |r| == 8
  {
    HexDigits(v, 8)
  }

  /** Eight digits give back the dword they format. */
  lemma Hex8RoundTrip(v: uint32)
    ensures ParseHex(Hex8(v)) == v
  {
    assert Pow16(8) == TwoTo32;
    ParseHexDigits(v, 8);
  }

  /** `name` "_" then the high and the low dword of the file time in eight hex digits each. */
  function UniqueName(name: string, high: int32, low: int32): (r: string)
    ensures |r| == |name| + 17 && r[..|name|] == name && r[|name|] == '_'
  {
    name + "_" + Hex8(Bits32(high)) + Hex8(Bits32(low))
  }

  /** The last seventeen characters are fixed in shape, so the name and both halves of the
      file time are read back from a unique name. */
  lemma UniqueNameParts(name: string, high: int32, low: int32)
    ensures var r := UniqueName(name, high, low);
      && r[..|name|] == name
      && ParseHex(r[|name| + 1..|name| + 9]) == Bits32(high)
      && ParseHex(r[|name| + 9..]) == Bits32(low)
  {
    var r := UniqueName(name, high, low);
    assert r[|name| + 1..|name| + 9] == Hex8(Bits32(high));
    assert r[|name| + 9..] == Hex8(Bits32(low));
    Hex8RoundTrip(Bits32(high));
    Hex8RoundTrip(Bits32(low));
  }

  /** Two files have the same unique name only when they have the same name and file time. */
  lemma UniqueNameInjective(n1: string, h1: int32, l1: int32, n2: string, h2: int32, l2: int32)
    requires UniqueName(n1, h1, l1) == UniqueName(n2, h2, l2)
    ensures n1 == n2 && h1 == h2 && l1 == l2
  {
    UniqueNameParts(n1, h1, l1);
    UniqueNameParts(n2, h2, l2);
    assert AsInt32(Bits32(h1)) == h1 && AsInt32(Bits32(l1)) == l1;
  }

  // --------------------------------------------------------- shared streams

  /** The shared Xbox caches a map can take its streams from. */
  datatype KnownMap = XboxMainmenu | XboxShared | XboxCampaign

  /** Whether a path names the given known cache (SharableReference, whose body is a
      collaborator here). */
  type SharableRule = (string, KnownMap) -> bool

  /** The first known cache, in the order main menu, shared, campaign, that `path` may
      share its streams with; none when it names none of them. */
  function SharableReferenceXbox(path: string, sharable: SharableRule): (r: Option<KnownMap>)
    ensures r == Some(XboxMainmenu) <==> sharable(path, XboxMainmenu)
    ensures r == Some(XboxShared) <==> !sharable(path, XboxMainmenu) && sharable(path, XboxShared)
    ensures r == Some(XboxCampaign) <==>
      !sharable(path, XboxMainmenu) && !sharable(path, XboxShared) && sharable(path, XboxCampaign)
    ensures r.None? <==>
      !sharable(path, XboxMainmenu) && !sharable(path, XboxShared) && !sharable(path, XboxCampaign)
  {
    if sharable(path, XboxMainmenu) then Some(XboxMainmenu)
    else if sharable(path, XboxShared) then Some(XboxShared)
    else if sharable(path, XboxCampaign) then Some(XboxCampaign)
    else None
  }

  // ----------------------------------------------------------------- loading

  /** The header's shared-type field as the cache's enumeration names it. */
  datatype SharedType = NotShared | MainMenu | Shared | Campaign | OtherShared(code: int16)

  /** What the load needs besides the cache's bytes: the header's base-address rule, the
      names of the shared-type codes, and the index's collaborators. */
  datatype LoadContext = LoadContext(
    locate: BaseAddressRule, sharedTypeOf: int16 -> SharedType,
    find: Catalog, instances: InstanceReader, fixup: Fixup, decrypt: Decryptor)

  /** Shared and campaign caches cannot be loaded on their own. */
  predicate IsSharedCache(c: LoadContext, h: Header) {
    c.sharedTypeOf(h.buildInfo.sharedType) == Shared || c.sharedTypeOf(h.buildInfo.sharedType) == Campaign
  }

  /** The index context a loaded header gives: its mask, its tag-name segment and the version. */
  function IndexContextOf(c: LoadContext, h: Header, v: EngineVersion): (ic: IndexContext)
    ensures ic.addressMask == c.locate(h).addressMask && ic.version == v
    ensures ic.namesOffset == h.tagNames.bufferOffset && ic.namesSize == h.tagNames.bufferSize
  {
    IndexContext(c.find, c.locate(h).addressMask, c.instances, c.fixup, c.decrypt, v,
      h.tagNames.bufferOffset, h.tagNames.bufferSize)
  }

  /** A completed load: the header, the engine version, the index and the reference table. */
  datatype Loaded = Loaded(header: Header, version: EngineVersion, index: Index, keys: seq<Key>)

  /** The load from stream bytes `data` with the cache's input bytes `cacheData`: the
      header, the engine version of its build string, the refusal of shared caches, then
      the index at the header's index offset with a new reference table. */
  function LoadAt(c: LoadContext, e: Endian, data: seq<byte>, cacheData: seq<byte>): Result<Loaded> {
    var h :- ParseHeader(e, data);
    LoadFrom(c, e, data, cacheData, h)
  }

  /** The load is the header read and then the load past that header. */
  lemma LoadAtSplit(c: LoadContext, e: Endian, data: seq<byte>, cacheData: seq<byte>)
    ensures ParseHeader(e, data).Failure? ==> LoadAt(c, e, data, cacheData) == Failure(ParseHeader(e, data).error)
    ensures ParseHeader(e, data).Success? ==>
      LoadAt(c, e, data, cacheData) == LoadFrom(c, e, data, cacheData, HeaderAt(e, data))
  {
  }

  /** The load past a header `h` that was read. */
  function LoadFrom(c: LoadContext, e: Endian, data: seq<byte>, cacheData: seq<byte>, h: Header): Result<Loaded> {
    var v :- EngineVersionOf(h.buildInfo.build);
    if IsSharedCache(c, h) then Failure(SharedCacheAccess)
    else
      var (index, keys) :- IndexAt(IndexContextOf(c, h, v), e, data, c.locate(h).offsetToIndex, cacheData, []);
      Success(Loaded(h, v, index, keys))
  }

  /** A shared or campaign cache never loads, whatever else its bytes hold. */
  lemma SharedCacheRefused(c: LoadContext, e: Endian, data: seq<byte>, cacheData: seq<byte>, h: Header)
    requires IsSharedCache(c, h)
    ensures LoadFrom(c, e, data, cacheData, h).Failure?
  {
  }

  /** A load succeeds only past the version gate and with a recognised build, and the
      version it records is the build suffix's. */
  lemma {:induction false} LoadedVersion(c: LoadContext, e: Endian, data: seq<byte>, cacheData: seq<byte>, h: Header)
    requires LoadFrom(c, e, data, cacheData, h).Success?
    ensures var l := LoadFrom(c, e, data, cacheData, h).value;
      && l.header == h
      && !IsSharedCache(c, l.header)
      && |l.header.buildInfo.build| >= SuffixStart
      && l.header.buildInfo.build[SuffixStart..] in KnownSuffixes
      && l.version == KnownSuffixes[l.header.buildInfo.build[SuffixStart..]]
  {
    assert EngineVersionOf(h.buildInfo.build).Success?;
  }

  /** The cache file: its streams, its header and index, and whether it has been loaded. */
  class CacheFile {
    var isLoaded: bool
    var sharedWith: Option<KnownMap>
    var inputStream: Reader
    var header: CacheHeader
    var index: CacheIndex
    var engineVersion: Option<EngineVersion>
    var references: ReferenceTable

    /** What a completed load left in the fields. */
    function State(): Loaded
      reads this, header, header.memoryPartitions, index, index.groupTags, index.items, references
      requires header.memoryPartitions != null && index.groupTags != null && index.items != null
      requires engineVersion.Some?
    {
      Loaded(header.View(), engineVersion.value, index.View(), references.keys)
    }

    /** GetUniqueName: the loaded header's map name and file time, formatted as UniqueName
        says, so both can be read back from it. */
    function GetUniqueName(): (r: string)
      reads this, header
      ensures var name := header.names.name;
        && |r| == |name| + 17 && r[..|name|] == name && r[|name|] == '_'
        && ParseHex(r[|name| + 1..|name| + 9]) == Bits32(header.timestamps.filetimeHigh)
        && ParseHex(r[|name| + 9..]) == Bits32(header.timestamps.filetimeLow)
    {
      UniqueNameParts(header.names.name, header.timestamps.filetimeHigh, header.timestamps.filetimeLow);
      UniqueName(header.names.name, header.timestamps.filetimeHigh, header.timestamps.filetimeLow)
    }

    /** Opens `mapName`: a known shared cache lends its stream, any other map is opened as
        a big-endian stream over its own bytes. Nothing is loaded yet. */
    constructor (mapName: string, sharable: SharableRule, open: string -> seq<byte>,
                 sharedData: KnownMap -> seq<byte>)
      ensures sharedWith == SharableReferenceXbox(mapName, sharable) && !isLoaded
      ensures inputStream.pos == 0 && inputStream.endian == Big
      ensures inputStream.data == match sharedWith case Some(m) => sharedData(m) case None => open(mapName)
      ensures header.memoryPartitions == null && index.groupTags == null && index.items == null
      ensures engineVersion == None
    {
      var shared := SharableReferenceXbox(mapName, sharable);
      var bytes := match shared case Some(m) => sharedData(m) case None => open(mapName);
      sharedWith := shared;
      inputStream := new Reader(bytes, Big);
      index := new CacheIndex();
      header := new CacheHeader();
      references := new ReferenceTable();
      engineVersion := None;
      isLoaded := false;
    }

    /** Loads the cache from `s` once. Once loaded it does nothing. Otherwise it reads the
        header, determines the engine version, refuses a shared or campaign cache, then
        seeks to the index and reads it with the tag names interned in a new reference
        table. It is loaded exactly when this succeeds, and the header, the version, the
        index and the table are then LoadAt's. */
    method Read(s: Reader, c: LoadContext) returns (r: Status)
      modifies this, header, index, s, inputStream
      ensures header == old(header) && index == old(index) && inputStream == old(inputStream)
      ensures sharedWith == old(sharedWith)
      ensures old(isLoaded) ==> r == Done && unchanged(this, header, index, s, inputStream)
      ensures !old(isLoaded) ==> (
        && (r.Success? <==> LoadAt(c, s.endian, s.data, inputStream.data).Success?)
        && (r.Failure? ==> r.error == LoadAt(c, s.endian, s.data, inputStream.data).error)
        && isLoaded == r.Success?)
      ensures !old(isLoaded) && r.Success? ==> (
        && header.memoryPartitions != null && index.groupTags != null && index.items != null && engineVersion.Some?
        && State() == LoadAt(c, s.endian, s.data, inputStream.data).value)
    {
      if isLoaded {
        return Done;
      }
      LoadAtSplit(c, s.endian, s.data, inputStream.data);
      var _ :- header.Read(s, c.locate);
      r := LoadRest(s, c, header.View());
    }

    /** The load past the header, which holds `h`: the engine version, the refusal of a
        shared cache, and the index at the header's index offset. */
    method LoadRest(s: Reader, c: LoadContext, h: Header) returns (r: Status)
      requires header.memoryPartitions != null && header.View() == h && header.location == c.locate(h)
      requires !isLoaded
      modifies this, index, s, inputStream
      ensures header == old(header) && index == old(index) && inputStream == old(inputStream)
      ensures sharedWith == old(sharedWith)
      ensures header.View() == h
      ensures (r.Success? <==> LoadFrom(c, s.endian, s.data, inputStream.data, h).Success?)
      ensures r.Failure? ==> r.error == LoadFrom(c, s.endian, s.data, inputStream.data, h).error
      ensures isLoaded == r.Success?
      ensures r.Success? ==> (
        && index.groupTags != null && index.items != null && engineVersion.Some?
        && State() == LoadFrom(c, s.endian, s.data, inputStream.data, h).value)
    {
      var v :- EngineVersionOf(h.buildInfo.build);
      engineVersion := Some(v);
      if IsSharedCache(c, h) {
        return Failure(SharedCacheAccess);
      }
      var refs := new ReferenceTable();
      references := refs;
      s.SeekTo(header.location.offsetToIndex);
      var _ :- index.Read(s, inputStream, IndexContextOf(c, h, v), refs);
      isLoaded := true;
      r := Done;
    }

    /** Reads only the header, from the input stream, for a file used as a resource cache;
        once loaded, it does nothing. Loaded exactly when the header read succeeds. */
    method ReadResourceCache(locate: BaseAddressRule) returns (r: Status)
      modifies this, header, inputStream
      ensures header == old(header) && inputStream == old(inputStream)
      ensures index == old(index) && engineVersion == old(engineVersion)
      ensures references == old(references) && sharedWith == old(sharedWith)
      ensures old(isLoaded) ==> r == Done && unchanged(this, header, inputStream)
      ensures !old(isLoaded) ==> (
        && (r.Success? <==> ParseHeader(inputStream.endian, inputStream.data).Success?)
        && (r.Failure? ==> r.error == ParseHeader(inputStream.endian, inputStream.data).error)
        && isLoaded == r.Success?)
      ensures !old(isLoaded) && r.Success? ==>
        header.memoryPartitions != null && header.View() == HeaderAt(inputStream.endian, inputStream.data)
    {
      if isLoaded {
        return Done;
      }
      var _ :- header.Read(inputStream, locate);
      isLoaded := true;
      r := Done;
    }
  }
}
