/** Records shared with the second-generation engine: the group-tag triple
    of a tag-group table entry and the language-pack resource header
    (BlamLib/BlamLib/Blam/Cache/CacheFileGen2nd.cs). */
module Gen2 {
  import opened Bytes
  import opened Errors
  import opened Streams

  /** The all-bits-set dword that stands for "no group" at any level of a triple. */
  const NullGroupTag: uint32 := UInt32Max

  /** A tag group: the null group, or a group known by its four-character code. */
  datatype TagGroup = Null | Group(id: uint32)

  /** The numeric four-character code of a group; the null group's is the sentinel. */
  function ID(g: TagGroup): uint32 {
    match g
    case Null => NullGroupTag
    case Group(id) => id
  }

  /** The group definition catalog's lookup of a four-character code. */
  type Catalog = uint32 -> TagGroup

  /** How one stored dword becomes a group: the sentinel is the null group, anything else is looked up. */
  function GroupTagFrom(find: Catalog, gt: uint32): TagGroup {
    if gt != NullGroupTag then find(gt) else Null
  }

  /** A group that, written as its code, reads back as itself. */
  predicate Canonical(find: Catalog, g: TagGroup) {
    g.Null? || (g.id != NullGroupTag && find(g.id) == g)
  }

  /** A stored dword that the catalog resolves to a group carrying that same code. */
  predicate Resolves(find: Catalog, gt: uint32) {
    gt == NullGroupTag || ID(find(gt)) == gt
  }

  datatype GroupTagTriple = GroupTagTriple(groupTag1: TagGroup, groupTag2: TagGroup, groupTag3: TagGroup)

  const GroupTagTripleSize: nat := 3 * 4

  /** The triple stored in twelve bytes: primary, parent and grandparent dwords in that order. */
  function DecodeGroupTags(find: Catalog, e: Endian, b: seq<byte>): GroupTagTriple
    requires |b| == GroupTagTripleSize
  {
    GroupTagTriple(GroupTagFrom(find, U32At(e, b, 0)), GroupTagFrom(find, U32At(e, b, 4)), GroupTagFrom(find, U32At(e, b, 8)))
  }

  function EncodeGroupTags(e: Endian, t: GroupTagTriple): (r: seq<byte>)
    ensures |r| == GroupTagTripleSize
    ensures U32At(e, r, 0) == ID(t.groupTag1) && U32At(e, r, 4) == ID(t.groupTag2) && U32At(e, r, 8) == ID(t.groupTag3)
  {
    var r := EncodeU32(e, ID(t.groupTag1)) + EncodeU32(e, ID(t.groupTag2)) + EncodeU32(e, ID(t.groupTag3));
    assert r[0..4] == EncodeU32(e, ID(t.groupTag1));
    assert r[4..8] == EncodeU32(e, ID(t.groupTag2));
    assert r[8..12] == EncodeU32(e, ID(t.groupTag3));
    r
  }

  /** Each level of a triple is the null group exactly when its dword is the sentinel,
      provided the catalog never answers a real code with the null group. */
  lemma NullLevelIffSentinel(find: Catalog, e: Endian, b: seq<byte>)
    requires |b| == GroupTagTripleSize
    requires !find(U32At(e, b, 0)).Null? && !find(U32At(e, b, 4)).Null? && !find(U32At(e, b, 8)).Null?
    ensures var t := DecodeGroupTags(find, e, b);
      && (t.groupTag1.Null? <==> U32At(e, b, 0) == NullGroupTag)
      && (t.groupTag2.Null? <==> U32At(e, b, 4) == NullGroupTag)
      && (t.groupTag3.Null? <==> U32At(e, b, 8) == NullGroupTag)
  {
  }

  /** Writing a triple and reading it back gives the triple, when every level is canonical. */
  lemma {:induction false} DecodeEncodeGroupTags(find: Catalog, e: Endian, t: GroupTagTriple)
    requires Canonical(find, t.groupTag1) && Canonical(find, t.groupTag2) && Canonical(find, t.groupTag3)
    ensures DecodeGroupTags(find, e, EncodeGroupTags(e, t)) == t
  {
  }

  /** Reading twelve bytes and writing the triple back gives the same bytes,
      when the catalog resolves every stored code to a group with that code. */
  lemma {:induction false} EncodeDecodeGroupTags(find: Catalog, e: Endian, b: seq<byte>)
    requires |b| == GroupTagTripleSize
    requires Resolves(find, U32At(e, b, 0)) && Resolves(find, U32At(e, b, 4)) && Resolves(find, U32At(e, b, 8))
    ensures EncodeGroupTags(e, DecodeGroupTags(find, e, b)) == b
  {
    var t := DecodeGroupTags(find, e, b);
    assert ID(t.groupTag1) == U32At(e, b, 0) && ID(t.groupTag2) == U32At(e, b, 4) && ID(t.groupTag3) == U32At(e, b, 8);
    EncodeDecodeU32(e, b[0..4]);
    EncodeDecodeU32(e, b[4..8]);
    EncodeDecodeU32(e, b[8..12]);
    assert b == b[0..4] + b[4..8] + b[8..12];
  }

  /** Reads the three group-tag dwords (CacheItemGroupTagGen2.ReadGroupTags). */
  method ReadGroupTags(find: Catalog, s: Reader) returns (r: Result<GroupTagTriple>)
    modifies s
    ensures old(s.pos) + GroupTagTripleSize <= |s.data| ==>
      r == Success(DecodeGroupTags(find, s.endian, s.data[old(s.pos)..old(s.pos) + GroupTagTripleSize]))
      && s.pos == old(s.pos) + GroupTagTripleSize
    ensures old(s.pos) + GroupTagTripleSize > |s.data| ==> r == Failure(EndOfStream)
  {
    ghost var p := s.pos;
    var gt :- s.ReadUInt32();
    var groupTag1 := if gt != UInt32Max then find(gt) else Null;
    gt :- s.ReadUInt32();
    var groupTag2 := if gt != UInt32Max then find(gt) else Null;
    gt :- s.ReadUInt32();
    var groupTag3 := if gt != UInt32Max then find(gt) else Null;
    U32AtWithin(s.endian, s.data, p, GroupTagTripleSize, 0);
    U32AtWithin(s.endian, s.data, p, GroupTagTripleSize, 4);
    U32AtWithin(s.endian, s.data, p, GroupTagTripleSize, 8);
    r := Success(GroupTagTriple(groupTag1, groupTag2, groupTag3));
  }

  /** Writes the three levels in the order ReadGroupTags consumes them. */
  method WriteGroupTags(t: GroupTagTriple, w: Writer)
    modifies w
    ensures w.bytes == old(w.bytes) + EncodeGroupTags(w.endian, t)
  {
    w.WriteUInt32(ID(t.groupTag1));
    w.WriteUInt32(ID(t.groupTag2));
    w.WriteUInt32(ID(t.groupTag3));
  }

  /** Size of a language-pack header: two runtime pointers, four fields, padding (28 bytes). */
  const kSizeOf: nat := (4 * 2) + (4 * 4) + (1 + 3)

  datatype LanguagePackFields = LanguagePackFields(count: int32, size: int32, offsetReferences: uint32, offsetStrings: uint32)

  /** The four fields stored after the two pointer slots of a record that starts at `p`. */
  function LanguagePackFieldsAt(e: Endian, data: seq<byte>, p: nat): LanguagePackFields
    requires p + 8 + 4 * 4 <= |data|
  {
    LanguagePackFields(I32At(e, data, p + 8), I32At(e, data, p + 12), U32At(e, data, p + 16), U32At(e, data, p + 20))
  }

  function EncodeLanguagePack(e: Endian, f: LanguagePackFields): (r: seq<byte>)
    ensures |r| == kSizeOf
    ensures forall i :: 0 <= i < 8 ==> r[i] == 0
    ensures forall i :: 8 + 4 * 4 <= i < kSizeOf ==> r[i] == 0
  {
    EncodeU64(e, 0) + EncodeI32(e, f.count) + EncodeI32(e, f.size)
      + EncodeU32(e, f.offsetReferences) + EncodeU32(e, f.offsetStrings) + EncodeU32(e, 0)
  }

  /** Appending six pieces one by one appends their concatenation. */
  lemma AppendSix<T>(s: seq<T>, a: seq<T>, b: seq<T>, c: seq<T>, d: seq<T>, f: seq<T>, g: seq<T>)
    ensures s + a + b + c + d + f + g == s + (a + b + c + d + f + g)
  {
  }

  /** A record written after any earlier bytes reads back, at its own offset, as the same four fields. */
  lemma {:induction false} LanguagePackRoundTrip(e: Endian, prefix: seq<byte>, f: LanguagePackFields)
    ensures |prefix + EncodeLanguagePack(e, f)| == |prefix| + kSizeOf
    ensures LanguagePackFieldsAt(e, prefix + EncodeLanguagePack(e, f), |prefix|) == f
  {
    var data := prefix + EncodeLanguagePack(e, f);
    var p := |prefix|;
    assert data[p + 8..p + 12] == EncodeI32(e, f.count);
    assert data[p + 12..p + 16] == EncodeI32(e, f.size);
    assert data[p + 16..p + 20] == EncodeU32(e, f.offsetReferences);
    assert data[p + 20..p + 24] == EncodeU32(e, f.offsetStrings);
  }

  /** An opaque string-reference record of the language pack. */
  datatype StringReference = StringReference(raw: seq<byte>)

  /** `n` consecutive records of `width` bytes starting at `p`, or None when the data ends first. */
  function RecordsFrom(data: seq<byte>, p: nat, n: nat, width: nat): (r: Option<seq<StringReference>>)
    decreases n
    ensures r.Some? ==> |r.value| == n
    ensures r.Some? ==> forall i :: 0 <= i < n ==> |r.value[i].raw| == width
  {
    if n == 0 then Some([])
    else if p + width > |data| then None
    else match RecordsFrom(data, p + width, n - 1, width)
      case None => None
      case Some(rest) => Some([StringReference(data[p..p + width])] + rest)
  }

  function Prepend(pre: seq<StringReference>, rest: Option<seq<StringReference>>): Option<seq<StringReference>> {
    match rest
    case None => None
    case Some(t) => Some(pre + t)
  }

  lemma PrependTwice(a: seq<StringReference>, b: seq<StringReference>, rest: Option<seq<StringReference>>)
    ensures Prepend(a, Prepend(b, rest)) == Prepend(a + b, rest)
  {
    if rest.Some? {
      assert a + (b + rest.value) == (a + b) + rest.value;
    }
  }

  /** Fills `a` with records read one after another from `s` (the loop over mStringReferences). */
  method ReadRecords(a: array<StringReference>, s: Reader, width: nat) returns (r: Status)
    modifies a, s
    ensures r.Success? <==> RecordsFrom(s.data, old(s.pos), a.Length, width).Some?
    ensures r.Success? ==> RecordsFrom(s.data, old(s.pos), a.Length, width) == Some(a[..])
  {
    ghost var p0 := s.pos;
    var x := 0;
    assert a[..0] == [];
    match RecordsFrom(s.data, p0, a.Length, width) {
      case None =>
      case Some(t) => assert [] + t == t;
    }
    while x < a.Length
      invariant 0 <= x <= a.Length
      invariant RecordsFrom(s.data, p0, a.Length, width) == Prepend(a[..x], RecordsFrom(s.data, s.pos, a.Length - x, width))
    {
      ghost var rest := RecordsFrom(s.data, s.pos + width, a.Length - x - 1, width);
      var raw := s.ReadBytes(width);
      if raw.Failure? {
        return Failure(raw.error);
      }
      a[x] := StringReference(raw.value);
      assert a[..x + 1] == a[..x] + [StringReference(raw.value)];
      PrependTwice(a[..x], [StringReference(raw.value)], rest);
      x := x + 1;
    }
    assert a[..x] + [] == a[..];
    r := Done;
  }

  /** The language-pack resource header and its lazily read string tables. */
  class LanguagePack {
    var count: int32
    var size: int32
    var offsetReferences: uint32
    var offsetStrings: uint32
    var stringReferences: array?<StringReference>
    var stringData: array?<byte>

    function Fields(): LanguagePackFields
      reads this
    {
      LanguagePackFields(count, size, offsetReferences, offsetStrings)
    }

    /** There are never string references without a string data buffer. */
    predicate Valid()
      reads this
    {
      stringReferences != null ==> stringData != null
    }

    constructor ()
      ensures Valid() && stringReferences == null && stringData == null
      ensures Fields() == LanguagePackFields(0, 0, 0, 0)
    {
      count, size, offsetReferences, offsetStrings := 0, 0, 0, 0;
      stringReferences, stringData := null, null;
    }

    /** Reads one record: skips the two pointer slots, reads the four fields, skips the padding.
        The trailing skip reads nothing, so only the first 24 bytes must be present. */
    method Read(s: Reader) returns (r: Status)
      modifies this, s
      ensures old(s.pos) + 8 + 4 * 4 <= |s.data| ==>
        r == Done && Fields() == LanguagePackFieldsAt(s.endian, s.data, old(s.pos)) && s.pos == old(s.pos) + kSizeOf
      ensures old(s.pos) + 8 + 4 * 4 > |s.data| ==> r == Failure(EndOfStream)
      ensures stringReferences == old(stringReferences) && stringData == old(stringData)
    {
      s.Skip(4 + 4);
      count :- s.ReadInt32();
      size :- s.ReadInt32();
      offsetReferences :- s.ReadUInt32();
      offsetStrings :- s.ReadUInt32();
      s.Skip(1 + 3);
      r := Done;
    }

    /** Writes one record: a zero qword, the four fields, a zero dword. */
    method Write(w: Writer)
      modifies w
      ensures w.bytes == old(w.bytes) + EncodeLanguagePack(w.endian, Fields())
    {
      ghost var start, e := w.bytes, w.endian;
      w.WriteUInt64(0);
      w.WriteInt32(count);
      w.WriteInt32(size);
      w.WriteUInt32(offsetReferences);
      w.WriteUInt32(offsetStrings);
      w.WriteUInt32(0);
      AppendSix(start, EncodeU64(e, 0), EncodeI32(e, count), EncodeI32(e, size),
        EncodeU32(e, offsetReferences), EncodeU32(e, offsetStrings), EncodeU32(e, 0));
    }

    /** The string-reference part of ReadFromCache AS WRITTEN: it seeks the resolving cache's
        stream but reads the records from the primary cache's stream. */
    method ReadStringReferencesAsWritten(primary: Reader, refsCache: Reader, refsOffset: int, n: nat, width: nat)
      returns (r: Status)
      modifies this`stringReferences, primary, refsCache
      ensures refsOffset < 0 ==> r == Failure(SeekBeforeBegin)
      ensures refsOffset >= 0 && primary != refsCache ==>
        (r.Success? <==> RecordsFrom(primary.data, old(primary.pos), n, width).Some?)
      ensures r.Success? ==> stringReferences != null && fresh(stringReferences) && stringReferences.Length == n
      ensures r.Success? && primary != refsCache ==>
        RecordsFrom(primary.data, old(primary.pos), n, width) == Some(stringReferences[..])
      ensures refsOffset >= 0 && primary == refsCache ==>
        (r.Success? <==> RecordsFrom(refsCache.data, refsOffset, n, width).Some?)
      ensures r.Success? && primary == refsCache ==>
        RecordsFrom(refsCache.data, refsOffset, n, width) == Some(stringReferences[..])
    {
      var _ :- refsCache.Seek(refsOffset, Begin);
      var a := new StringReference[n];
      stringReferences := a;
      r := ReadRecords(a, primary, width);
    }

    /** The string-reference part of ReadFromCache as intended: records are read from the
        stream of the cache the pointer resolved to, starting at the pointer's offset. */
    method ReadStringReferences(refsCache: Reader, refsOffset: int, n: nat, width: nat) returns (r: Status)
      modifies this`stringReferences, refsCache
      ensures refsOffset < 0 ==> r == Failure(SeekBeforeBegin)
      ensures refsOffset >= 0 ==> (r.Success? <==> RecordsFrom(refsCache.data, refsOffset, n, width).Some?)
      ensures r.Success? ==> stringReferences != null && fresh(stringReferences) && stringReferences.Length == n
      ensures r.Success? ==> RecordsFrom(refsCache.data, refsOffset, n, width) == Some(stringReferences[..])
    {
      var _ :- refsCache.Seek(refsOffset, Begin);
      var a := new StringReference[n];
      stringReferences := a;
      r := ReadRecords(a, refsCache, width);
    }

    /** Loads the string references and the string data of a pack whose count is positive.
        `refsCache` and `stringsCache` are the caches the two resource pointers resolve to
        (None when they do not resolve); `refsOffset` and `stringsOffset` are the pointers'
        offsets; `width` is the size of one string-reference record. The references are
        read with ReadStringReferences, the corrected read, so when the pointer resolves to
        another cache they are the records at the pointer, not what the code as written
        reads from this cache's own stream. */
    method ReadFromCache(refsCache: Option<Reader>, refsOffset: int, stringsCache: Option<Reader>, stringsOffset: int, width: nat)
      returns (r: Status)
      modifies this, (if refsCache.Some? then {refsCache.value} else {}), (if stringsCache.Some? then {stringsCache.value} else {})
      ensures Fields() == old(Fields())
      ensures old(count) <= 0 ==> r == Done && unchanged(this)
      ensures old(count) <= 0 && refsCache.Some? ==> unchanged(refsCache.value)
      ensures old(count) <= 0 && stringsCache.Some? ==> unchanged(stringsCache.value)
      ensures old(count) > 0 ==> (r.Success? <==>
        && (refsCache.Some? ==> refsOffset >= 0 && RecordsFrom(refsCache.value.data, refsOffset, count as nat, width).Some?)
        && (stringsCache.Some? ==> stringsOffset >= 0 && size >= 0 && stringsOffset + size <= |stringsCache.value.data|))
      ensures old(count) > 0 && r.Success? && refsCache.Some? && stringsCache.Some? ==>
        && stringReferences != null && fresh(stringReferences) && stringReferences.Length == count as nat
        && RecordsFrom(refsCache.value.data, refsOffset, count as nat, width) == Some(stringReferences[..])
      ensures old(count) > 0 && r.Success? && refsCache.None? && stringsCache.Some? ==> stringReferences == old(stringReferences)
      ensures old(count) > 0 && r.Success? && stringsCache.Some? ==>
        && stringData != null && fresh(stringData)
        && stringData[..] == stringsCache.value.data[stringsOffset..stringsOffset + size]
      ensures old(count) > 0 && r.Success? && stringsCache.None? ==> stringReferences == null && stringData == old(stringData)
      ensures old(count) > 0 && r.Success? ==> Valid()
    {
      var n := count;
      if n <= 0 {
        return Done;
      }
      if refsCache.Some? {
        var _ :- ReadStringReferences(refsCache.value, refsOffset, n as nat, width);
      }
      if stringsCache.Some? {
        var strings := stringsCache.value;
        var _ :- strings.Seek(stringsOffset, Begin);
        if size < 0 {
          return Failure(ArgumentOutOfRange);
        }
        var bytes :- strings.ReadBytes(size as nat);
        stringData := new byte[|bytes|](i requires 0 <= i < |bytes| => bytes[i]);
      } else {
        stringReferences := null;
      }
      r := Done;
    }
  }

  /** Whenever the records at the resolved offset differ from the bytes under the primary
      stream's cursor, the as-written read (records from the primary stream) does not
      return the records the resource pointer designates. */
  lemma {:induction false} AsWrittenReadsOtherRecords(primary: seq<byte>, pos: nat, resource: seq<byte>, offset: nat, n: nat, width: nat)
    requires n > 0 && pos + width <= |primary| && offset + width <= |resource|
    requires primary[pos..pos + width] != resource[offset..offset + width]
    ensures RecordsFrom(resource, offset, n, width).Some? ==>
      RecordsFrom(primary, pos, n, width) != RecordsFrom(resource, offset, n, width)
  {
    var mine, theirs := RecordsFrom(primary, pos, n, width), RecordsFrom(resource, offset, n, width);
    if mine.Some? && theirs.Some? {
      assert mine.value[0] == StringReference(primary[pos..pos + width]);
      assert theirs.value[0] == StringReference(resource[offset..offset + width]);
    }
  }

  /** A concrete instance: a companion cache holding the records 1 2 3 4 at offset 0,
      and a primary stream positioned on four zero bytes. */
  lemma AsWrittenExample()
    ensures RecordsFrom([0, 0, 0, 0], 0, 1, 4) != RecordsFrom([1, 2, 3, 4], 0, 1, 4)
  {
    assert [0, 0, 0, 0][0..4][0] != [1, 2, 3, 4][0..4][0];
    AsWrittenReadsOtherRecords([0, 0, 0, 0], 0, [1, 2, 3, 4], 0, 1, 4);
  }
}
