/** The Halo Reach tag index (BlamLib/BlamLib/Blam/HaloReach/CacheFile.cs,
    `CacheIndex.Read` and `ReadGroupTags`): the index body with its address
    to offset conversion, the group-tag table, the group-tag fix-up of every
    tag slot, and the resolution of tag names from the decrypted name buffer
    into interned references. */
module ReachIndex {
  import opened Bytes
  import opened Errors
  import opened Streams
  import opened Gen2
  import opened ReachSegments

  // ---------------------------------------------------------------- addresses

  /** A stored address made relative to the file: the address mask subtracted in
      32-bit unsigned arithmetic. */
  function OffsetOf(address: uint32, mask: uint32): (r: uint32)
    ensures address >= mask ==> r == address - mask
    ensures address < mask ==> r == address - mask + TwoTo32
  {
    (address - mask) % TwoTo32
  }

  /** The address an offset stands for under a mask. */
  function AddressOf(offset: uint32, mask: uint32): uint32 {
    (offset + mask) % TwoTo32
  }

  /** Subtracting the mask loses nothing: adding it back gives the stored address. */
  lemma OffsetAddressRoundTrip(address: uint32, mask: uint32)
    ensures AddressOf(OffsetOf(address, mask), mask) == address
  {
  }

  // --------------------------------------------------------------- index body

  /** The index body: three (count, address) pairs. */
  datatype IndexBody = IndexBody(
    groupTagsCount: int32, groupTagsAddress: uint32,
    tagCount: int32, address: uint32,
    dependentTagsCount: int32, dependentTagsAddress: uint32)

  /** Three pairs, 12 skipped bytes, the checksum and the 'tags' signature. */
  const IndexBodySize: nat := 6 * 4 + 12 + 4 + 4

  function IndexBodyAt(e: Endian, data: seq<byte>, p: nat): IndexBody
    requires p + IndexBodySize <= |data|
  {
    IndexBody(I32At(e, data, p), U32At(e, data, p + 4), I32At(e, data, p + 8), U32At(e, data, p + 12),
      I32At(e, data, p + 16), U32At(e, data, p + 20))
  }

  method ReadIndexBody(s: Reader) returns (r: Result<IndexBody>)
    modifies s
    ensures r.Success? <==> old(s.pos) + IndexBodySize <= |s.data|
    ensures r.Success? ==> (s.pos == old(s.pos) + IndexBodySize && r.value == IndexBodyAt(s.endian, s.data, old(s.pos)))
    ensures r.Failure? ==> r.error == EndOfStream
  {
    var groupTagsCount :- s.ReadInt32();
    var groupTagsAddress :- s.ReadUInt32();
    var tagCount :- s.ReadInt32();
    var address :- s.ReadUInt32();
    var dependentTagsCount :- s.ReadInt32();
    var dependentTagsAddress :- s.ReadUInt32();
    s.Skip(4 + 4 + 4);
    var _ :- s.ReadUInt32(); // crc?
    var _ :- s.ReadInt32(); // 'tags'
    r := Success(IndexBody(groupTagsCount, groupTagsAddress, tagCount, address, dependentTagsCount, dependentTagsAddress));
  }

  // ---------------------------------------------------------- group-tag table

  /** One entry of the group-tag table: the group-tag triple and the group's name id. */
  datatype GroupTagEntry = GroupTagEntry(tags: GroupTagTriple, name: uint32)

  const GroupTagEntrySize: nat := GroupTagTripleSize + 4

  function GroupTagEntryAt(find: Catalog, e: Endian, data: seq<byte>, p: nat): GroupTagEntry
    requires p + GroupTagEntrySize <= |data|
  {
    GroupTagEntry(DecodeGroupTags(find, e, data[p..p + GroupTagTripleSize]), U32At(e, data, p + GroupTagTripleSize))
  }

  /** The table of `n` entries starting at `p` fits in the data; an empty one always does,
      wherever the cursor stands. */
  predicate TableFits(data: seq<byte>, p: nat, n: nat) {
    n == 0 || p + GroupTagEntrySize * n <= |data|
  }

  /** `n` consecutive entries starting at `p`. */
  function GroupTagTableAt(find: Catalog, e: Endian, data: seq<byte>, p: nat, n: nat): (r: seq<GroupTagEntry>)
    requires TableFits(data, p, n)
    ensures |r| == n
    ensures forall j :: 0 <= j < n ==> EntryFits(data, p, j) && r[j] == GroupTagEntryAt(find, e, data, p + GroupTagEntrySize * j)
  {
    seq(n, j requires 0 <= j < n => EntryFitsLemma(data, p, n, j); GroupTagEntryAt(find, e, data, p + GroupTagEntrySize * j))
  }

  predicate EntryFits(data: seq<byte>, p: nat, j: nat) {
    p + GroupTagEntrySize * j + GroupTagEntrySize <= |data|
  }

  lemma EntryFitsLemma(data: seq<byte>, p: nat, n: nat, j: nat)
    requires TableFits(data, p, n) && j < n
    ensures EntryFits(data, p, j)
  {
  }

  /** One entry: its group-tag triple, then its name (CacheItemGroupTag.Read). */
  method ReadGroupTagEntry(find: Catalog, s: Reader) returns (r: Result<GroupTagEntry>)
    modifies s
    ensures r.Success? <==> old(s.pos) + GroupTagEntrySize <= |s.data|
    ensures r.Success? ==> (s.pos == old(s.pos) + GroupTagEntrySize
      && r.value == GroupTagEntryAt(find, s.endian, s.data, old(s.pos)))
    ensures r.Failure? ==> r.error == EndOfStream
  {
    var tags :- ReadGroupTags(find, s);
    var name :- s.ReadUInt32();
    r := Success(GroupTagEntry(tags, name));
  }

  /** Fills `a` with entries read one after another from the cursor. */
  method ReadGroupTagTable(find: Catalog, s: Reader, a: array<GroupTagEntry>) returns (r: Status)
    modifies s, a
    ensures r.Success? <==> TableFits(s.data, old(s.pos), a.Length)
    ensures r.Success? ==> a[..] == GroupTagTableAt(find, s.endian, s.data, old(s.pos), a.Length)
    ensures r.Failure? ==> r.error == EndOfStream
  {
    ghost var p0 := s.pos;
    var x := 0;
    while x < a.Length
      invariant 0 <= x <= a.Length
      invariant s.pos == p0 + GroupTagEntrySize * x
      invariant x == 0 || p0 + GroupTagEntrySize * x <= |s.data|
      invariant forall j :: 0 <= j < x ==> EntryFits(s.data, p0, j) && a[j] == GroupTagEntryAt(find, s.endian, s.data, p0 + GroupTagEntrySize * j)
    {
      var entry := ReadGroupTagEntry(find, s);
      if entry.Failure? {
        return Failure(entry.error);
      }
      a[x] := entry.value;
      x := x + 1;
    }
    r := Done;
  }

  // ------------------------------------------------------------------- slots

  /** A datum handle: the slot index in its low half, a salt in its high half. */
  datatype Datum = Datum(index: uint16, salt: uint16)

  /** A tag's interned reference name, or the null datum an empty slot gets. */
  datatype ReferenceName = NullName | Named(handle: nat)

  /** One slot of the tag-instance table, with the fields the index read assigns. */
  datatype TagSlot = TagSlot(
    isEmpty: bool, datum: Datum, groupTag: TagGroup, groupTagInt: uint32,
    tagNameOffset: uint32, referenceName: ReferenceName)

  /** The per-item repair of the datum (CacheItem.Fixup), given the slot number cut to 16 bits. */
  type Fixup = (Datum, uint16) -> Datum

  /** Slot `x` after the fix-up: the primary group of the group-tag entry its datum
      points at, that group's code, and the repaired datum. */
  function FixSlot(item: TagSlot, x: nat, groupTags: seq<GroupTagEntry>, fixup: Fixup): TagSlot
    requires item.datum.index < |groupTags|
  {
    var g := groupTags[item.datum.index].tags.groupTag1;
    item.(groupTag := g, groupTagInt := ID(g), datum := fixup(item.datum, x % 0x1_0000))
  }

  /** The fix-up of the first `tagCount` slots can run: the count does not pass the end
      of the table and every non-empty slot it reaches points into the group-tag table. */
  predicate FixupDefined(items: seq<TagSlot>, groupTags: seq<GroupTagEntry>, tagCount: int) {
    && tagCount <= |items|
    && forall x :: 0 <= x < tagCount && !items[x].isEmpty ==> items[x].datum.index < |groupTags|
  }

  /** The slots after the fix-up loop; it fails when an index leaves its table. */
  function FixedItems(items: seq<TagSlot>, groupTags: seq<GroupTagEntry>, tagCount: int, fixup: Fixup)
    : (r: Result<seq<TagSlot>>)
    ensures r.Success? <==> FixupDefined(items, groupTags, tagCount)
    ensures r.Failure? ==> r.error == IndexOutOfRange
    ensures r.Success? ==> |r.value| == |items|
    ensures r.Success? ==> forall x :: 0 <= x < |items| && (x >= tagCount || items[x].isEmpty) ==> r.value[x] == items[x]
    ensures r.Success? ==> forall x :: 0 <= x < tagCount && !items[x].isEmpty ==>
      && r.value[x].groupTag == groupTags[items[x].datum.index].tags.groupTag1
      && r.value[x].groupTagInt == ID(r.value[x].groupTag)
      && r.value[x].isEmpty == items[x].isEmpty
  {
    if FixupDefined(items, groupTags, tagCount) then
      Success(seq(|items|, x requires 0 <= x < |items| =>
        if x < tagCount && !items[x].isEmpty then FixSlot(items[x], x, groupTags, fixup) else items[x]))
    else Failure(IndexOutOfRange)
  }

  /** The fix-up loop over the first `tagCount` slots, in place. A count past the end of
      the table, or a datum past the end of the group-tag table, fails with the earlier
      slots already repaired. */
  method FixupGroupTags(items: array<TagSlot>, groupTags: array<GroupTagEntry>, tagCount: int32, fixup: Fixup)
    returns (r: Status)
    modifies items
    ensures r.Success? <==> FixedItems(old(items[..]), groupTags[..], tagCount, fixup).Success?
    ensures r.Success? ==> items[..] == FixedItems(old(items[..]), groupTags[..], tagCount, fixup).value
    ensures r.Failure? ==> r.error == IndexOutOfRange
  {
    ghost var original := items[..];
    var x := 0;
    while x < tagCount
      invariant 0 <= x <= if tagCount < 0 then 0 else tagCount as int
      invariant x <= items.Length
      invariant forall j :: 0 <= j < x && !original[j].isEmpty ==> original[j].datum.index < groupTags.Length
      invariant forall j :: 0 <= j < items.Length ==>
        items[j] == if j < x && !original[j].isEmpty then FixSlot(original[j], j, groupTags[..], fixup) else original[j]
    {
      if x >= items.Length {
        return Failure(IndexOutOfRange);
      }
      var item := items[x];
      if !item.isEmpty {
        if item.datum.index as int >= groupTags.Length {
          return Failure(IndexOutOfRange);
        }
        var g := groupTags[item.datum.index].tags.groupTag1;
        items[x] := item.(groupTag := g, groupTagInt := ID(g), datum := fixup(item.datum, (x % 0x1_0000) as uint16));
      }
      x := x + 1;
    }
    assert FixupDefined(original, groupTags[..], tagCount);
    var fixed := FixedItems(original, groupTags[..], tagCount, fixup).value;
    forall j | 0 <= j < items.Length
      ensures items[j] == fixed[j]
    {
      assert j < x <==> j < tagCount;
    }
    assert items[..] == fixed;
    r := Done;
  }

  // --------------------------------------------------------------- interning

  /** What the reference table interns: a tag's group and its name. */
  type Key = (TagGroup, string)

  /** No key is held twice. */
  predicate Distinct(keys: seq<Key>) {
    forall i, j :: 0 <= i < j < |keys| ==> keys[i] != keys[j]
  }

  /** The position of a key that is present. */
  function PositionOf(keys: seq<Key>, k: Key): (i: nat)
    requires k in keys
    ensures i < |keys| && keys[i] == k
    ensures forall j :: 0 <= j < i ==> keys[j] != k
  {
    if keys[0] == k then 0 else 1 + PositionOf(keys[1..], k)
  }

  /** Insert-if-absent: a present key keeps its handle and the table is unchanged,
      an absent one is appended and gets the next handle. */
  function Intern(keys: seq<Key>, k: Key): (r: (seq<Key>, nat))
    ensures r.1 < |r.0| && r.0[r.1] == k
    ensures k in keys ==> r.0 == keys
    ensures k !in keys ==> r.0 == keys + [k] && r.1 == |keys|
  {
    if k in keys then (keys, PositionOf(keys, k)) else (keys + [k], |keys|)
  }

  /** Interning keeps the table free of duplicates, so a key's handle is its only position. */
  lemma InternDistinct(keys: seq<Key>, k: Key)
    requires Distinct(keys)
    ensures Distinct(Intern(keys, k).0)
    ensures forall i :: 0 <= i < |Intern(keys, k).0| && Intern(keys, k).0[i] == k ==> i == Intern(keys, k).1
  {
  }

  /** Interning the same key again changes nothing and gives the same handle. */
  lemma InternIdempotent(keys: seq<Key>, k: Key)
    requires Distinct(keys)
    ensures Intern(Intern(keys, k).0, k) == Intern(keys, k)
  {
    var (t, h) := Intern(keys, k);
    InternDistinct(keys, k);
    assert k in t;
    var h2 := PositionOf(t, k);
    assert t[h2] == k;
  }

  /** The reference manager's table of interned (group, name) keys; a handle is a position. */
  class ReferenceTable {
    var keys: seq<Key>

    constructor ()
      ensures keys == []
    {
      keys := [];
    }

    /** References.AddOptimized: the handle of the key, added first when absent. */
    method AddOptimized(g: TagGroup, name: string) returns (h: nat)
      modifies this
      ensures (keys, h) == Intern(old(keys), (g, name))
    {
      var (updated, handle) := Intern(keys, (g, name));
      keys, h := updated, handle;
    }
  }

  // ------------------------------------------------------------------- names

  /** The name recorded for a C-string: an empty one becomes "NONE". */
  function TagNameOf(text: string): (r: string)
    ensures r != ""
    ensures text == "" ==> r == "NONE"
    ensures text != "" ==> r == text
  {
    if text == "" then "NONE" else text
  }

  /** The C-string at `p`, when a NUL ends it before the end of the buffer. */
  function CStringAt(buffer: seq<byte>, p: nat): Option<string> {
    match NulFrom(buffer, p)
    case None => None
    case Some(k) => Some(Chars(buffer[p..k]))
  }

  /** The progress of the name walk: the slots so far, the table, the buffer position. */
  datatype NameState = NameState(slots: seq<TagSlot>, keys: seq<Key>, pos: nat)

  /** One slot of the walk. An empty slot gets the all-ones offset and the null name and
      reads nothing; any other slot records the position, reads a C-string there and
      interns its name under the slot's group. */
  function NameStep(buffer: seq<byte>, st: NameState, item: TagSlot): (r: Result<NameState>)
    ensures r.Failure? <==> !item.isEmpty && NulFrom(buffer, st.pos).None?
    ensures item.isEmpty ==> r.Success? && r.value.pos == st.pos && r.value.keys == st.keys
    ensures !item.isEmpty && r.Success? ==> st.pos < r.value.pos <= |buffer|
  {
    if item.isEmpty then
      Success(NameState(st.slots + [item.(tagNameOffset := UInt32Max, referenceName := NullName)], st.keys, st.pos))
    else
      match NulFrom(buffer, st.pos)
      case None => Failure(EndOfStream)
      case Some(k) =>
        var name := TagNameOf(Chars(buffer[st.pos..k]));
        var (keys, h) := Intern(st.keys, (item.groupTag, name));
        Success(NameState(st.slots + [item.(tagNameOffset := st.pos % TwoTo32, referenceName := Named(h))], keys, k + 1))
  }

  /** One step appends one slot, named as SlotNamed says from the position it starts at,
      and only grows the table, keeping it free of duplicates. */
  lemma NameStepFacts(buffer: seq<byte>, st: NameState, item: TagSlot)
    requires NameStep(buffer, st, item).Success?
    ensures var next := NameStep(buffer, st, item).value;
      && |next.slots| == |st.slots| + 1 && (forall j :: 0 <= j < |st.slots| ==> next.slots[j] == st.slots[j])
      && SlotNamed(buffer, item, next.slots[|st.slots|], next.keys, st.pos)
      && st.keys <= next.keys && (Distinct(st.keys) ==> Distinct(next.keys))
  {
    if !item.isEmpty {
      var name := TagNameOf(CStringAt(buffer, st.pos).value);
      if Distinct(st.keys) {
        InternDistinct(st.keys, (item.groupTag, name));
      }
    }
  }

  /** The walk over the first `n` slots from the start of the buffer. */
  function NamesPrefix(buffer: seq<byte>, keys: seq<Key>, items: seq<TagSlot>, n: nat): (r: Result<NameState>)
    requires n <= |items|
    ensures r.Success? ==> |r.value.slots| == n
  {
    if n == 0 then Success(NameState([], keys, 0))
    else
      var st :- NamesPrefix(buffer, keys, items, n - 1);
      NameStep(buffer, st, items[n - 1])
  }

  /** Once the walk fails it stays failed, with the C-string read's error. */
  lemma {:induction false} NamesPrefixFailureSticks(buffer: seq<byte>, keys: seq<Key>, items: seq<TagSlot>, n: nat, m: nat)
    requires n <= m <= |items| && NamesPrefix(buffer, keys, items, n).Failure?
    ensures NamesPrefix(buffer, keys, items, m) == Failure(EndOfStream)
    decreases m
  {
    if m == n {
      NamesPrefixFailureIsEndOfStream(buffer, keys, items, n);
    } else {
      NamesPrefixFailureSticks(buffer, keys, items, n, m - 1);
    }
  }

  lemma {:induction false} NamesPrefixFailureIsEndOfStream(buffer: seq<byte>, keys: seq<Key>, items: seq<TagSlot>, n: nat)
    requires n <= |items| && NamesPrefix(buffer, keys, items, n).Failure?
    ensures NamesPrefix(buffer, keys, items, n) == Failure(EndOfStream)
  {
    if n > 0 && NamesPrefix(buffer, keys, items, n - 1).Failure? {
      NamesPrefixFailureIsEndOfStream(buffer, keys, items, n - 1);
    }
  }

  /** One pass of the name loop: slot `x` named from the buffer's cursor, as NameStep
      says, with the slots before it and after it untouched. */
  method NameSlot(items: array<TagSlot>, x: nat, buffer: Reader, refs: ReferenceTable) returns (r: Status)
    requires x < items.Length
    modifies items, buffer, refs
    ensures r.Success? <==> NameStep(buffer.data, NameState(old(items[..x]), old(refs.keys), old(buffer.pos)), old(items[x])).Success?
    ensures r.Success? ==> (
      && NameStep(buffer.data, NameState(old(items[..x]), old(refs.keys), old(buffer.pos)), old(items[x]))
           == Success(NameState(items[..x + 1], refs.keys, buffer.pos))
      && items[x + 1..] == old(items[x + 1..]))
    ensures r.Failure? ==> r.error == EndOfStream
  {
    var ci := items[x];
    if !ci.isEmpty {
      // a buffer-relative offset: the cache holds the buffer encrypted
      var offset := buffer.pos % TwoTo32;
      var text :- buffer.ReadCString();
      var name := if text == "" then "NONE" else text;
      var h := refs.AddOptimized(ci.groupTag, name);
      items[x] := ci.(tagNameOffset := offset, referenceName := Named(h));
    } else {
      items[x] := ci.(tagNameOffset := UInt32Max, referenceName := NullName);
    }
    assert items[..x + 1] == old(items[..x]) + [items[x]];
    r := Done;
  }

  /** The name loop over every slot, in place, reading C-strings from `buffer` (at its
      start) and interning the names in `refs`. */
  method ResolveNames(items: array<TagSlot>, buffer: Reader, refs: ReferenceTable) returns (r: Status)
    requires buffer.pos == 0
    modifies items, buffer, refs
    ensures r.Success? <==> NamesPrefix(buffer.data, old(refs.keys), old(items[..]), items.Length).Success?
    ensures r.Success? ==> (
      && items[..] == NamesPrefix(buffer.data, old(refs.keys), old(items[..]), items.Length).value.slots
      && refs.keys == NamesPrefix(buffer.data, old(refs.keys), old(items[..]), items.Length).value.keys)
    ensures r.Failure? ==> r.error == EndOfStream
  {
    ghost var original, keys0 := items[..], refs.keys;
    var x := 0;
    while x < items.Length
      invariant 0 <= x <= items.Length
      invariant NamesPrefix(buffer.data, keys0, original, x) == Success(NameState(items[..x], refs.keys, buffer.pos))
      invariant items[x..] == original[x..]
    {
      assert items[x] == original[x];
      var step := NameSlot(items, x, buffer, refs);
      if step.Failure? {
        NamesPrefixFailureSticks(buffer.data, keys0, original, x + 1, items.Length);
        return step;
      }
      x := x + 1;
    }
    assert items[..x] == items[..];
    r := Done;
  }

  /** What the walk promises about one slot read at buffer position `p`: only the name
      fields change; an empty slot gets the all-ones offset and the null name; any other
      slot records `p` as its offset, and its handle names, in the table, its group and
      the C-string at `p` ("NONE" when that string is empty). */
  predicate SlotNamed(buffer: seq<byte>, item: TagSlot, slot: TagSlot, keys: seq<Key>, p: nat) {
    && slot == item.(tagNameOffset := slot.tagNameOffset, referenceName := slot.referenceName)
    && (item.isEmpty ==> slot.tagNameOffset == UInt32Max && slot.referenceName == NullName)
    && (!item.isEmpty ==>
          && slot.tagNameOffset == p % TwoTo32
          && slot.referenceName.Named? && slot.referenceName.handle < |keys|
          && CStringAt(buffer, p).Some?
          && keys[slot.referenceName.handle] == (item.groupTag, TagNameOf(CStringAt(buffer, p).value)))
  }

  /** A slot stays named as the table grows at its end. */
  lemma SlotNamedGrows(buffer: seq<byte>, item: TagSlot, slot: TagSlot, keys: seq<Key>, more: seq<Key>, p: nat)
    requires SlotNamed(buffer, item, slot, keys, p) && keys <= more
    ensures SlotNamed(buffer, item, slot, more, p)
  {
    if !item.isEmpty {
      assert more[slot.referenceName.handle] == keys[slot.referenceName.handle];
    }
  }

  /** The buffer position before slot `j` is read, for a walk that reached slot `j`. */
  function PositionBefore(buffer: seq<byte>, keys: seq<Key>, items: seq<TagSlot>, j: nat): nat
    requires j < |items| && NamesPrefix(buffer, keys, items, j).Success?
  {
    NamesPrefix(buffer, keys, items, j).value.pos
  }

  /** The names the walk assigns: the table only grows, stays free of duplicates, and
      every slot is named, as SlotNamed says, from the position the walk had reached. */
  lemma {:induction false} NamesPrefixNames(buffer: seq<byte>, keys: seq<Key>, items: seq<TagSlot>, n: nat)
    requires n <= |items| && NamesPrefix(buffer, keys, items, n).Success?
    ensures var st := NamesPrefix(buffer, keys, items, n).value;
      && keys <= st.keys
      && (Distinct(keys) ==> Distinct(st.keys))
      && forall j :: 0 <= j < n ==> (
           && NamesPrefix(buffer, keys, items, j).Success?
           && SlotNamed(buffer, items[j], st.slots[j], st.keys, PositionBefore(buffer, keys, items, j)))
  {
    if n > 0 {
      NamesPrefixNames(buffer, keys, items, n - 1);
      var prev := NamesPrefix(buffer, keys, items, n - 1).value;
      var st := NamesPrefix(buffer, keys, items, n).value;
      assert st == NameStep(buffer, prev, items[n - 1]).value;
      NameStepFacts(buffer, prev, items[n - 1]);
      forall j | 0 <= j < n
        ensures NamesPrefix(buffer, keys, items, j).Success?
        ensures SlotNamed(buffer, items[j], st.slots[j], st.keys, PositionBefore(buffer, keys, items, j))
      {
        if j < n - 1 {
          assert st.slots[j] == prev.slots[j];
          SlotNamedGrows(buffer, items[j], prev.slots[j], prev.keys, st.keys, PositionBefore(buffer, keys, items, j));
        }
      }
    }
  }

  /** The walk's position never passes the end of the buffer. */
  lemma {:induction false} PositionBound(buffer: seq<byte>, keys: seq<Key>, items: seq<TagSlot>, n: nat)
    requires n <= |items| && NamesPrefix(buffer, keys, items, n).Success?
    ensures NamesPrefix(buffer, keys, items, n).value.pos <= |buffer|
  {
    if n > 0 {
      PositionBound(buffer, keys, items, n - 1);
    }
  }

  /** The position only moves forward, and past a non-empty slot it moves strictly:
      the read consumes at least the terminator. Empty slots consume nothing. */
  lemma {:induction false} PositionsAdvance(buffer: seq<byte>, keys: seq<Key>, items: seq<TagSlot>, i: nat, j: nat)
    requires i < j <= |items| && NamesPrefix(buffer, keys, items, j).Success?
    ensures NamesPrefix(buffer, keys, items, i).Success?
    ensures var before, after := NamesPrefix(buffer, keys, items, i).value.pos, NamesPrefix(buffer, keys, items, j).value.pos;
      && before <= after
      && (!items[i].isEmpty ==> before < after)
      && (j == i + 1 && items[i].isEmpty ==> before == after)
    decreases j
  {
    if j > i + 1 {
      PositionsAdvance(buffer, keys, items, i, j - 1);
    }
  }

  /** A non-empty slot's offset is the position the walk had reached before it, cut to 32 bits. */
  lemma SlotOffset(buffer: seq<byte>, keys: seq<Key>, items: seq<TagSlot>, n: nat, j: nat)
    requires j < n <= |items| && NamesPrefix(buffer, keys, items, n).Success? && !items[j].isEmpty
    ensures NamesPrefix(buffer, keys, items, j).Success?
    ensures NamesPrefix(buffer, keys, items, n).value.slots[j].tagNameOffset
      == PositionBefore(buffer, keys, items, j) % TwoTo32
  {
    NamesPrefixNames(buffer, keys, items, n);
    var st := NamesPrefix(buffer, keys, items, n).value;
    assert SlotNamed(buffer, items[j], st.slots[j], st.keys, PositionBefore(buffer, keys, items, j));
  }

  /** For a buffer whose positions fit the unsigned offset, the offsets of successive
      non-empty slots strictly increase. */
  lemma NamesPrefixOffsetsIncrease(buffer: seq<byte>, keys: seq<Key>, items: seq<TagSlot>, n: nat)
    requires |buffer| < TwoTo32 && n <= |items| && NamesPrefix(buffer, keys, items, n).Success?
    ensures var st := NamesPrefix(buffer, keys, items, n).value;
      forall j1, j2 :: 0 <= j1 < j2 < n && !items[j1].isEmpty && !items[j2].isEmpty ==>
        st.slots[j1].tagNameOffset < st.slots[j2].tagNameOffset
  {
    forall j1, j2 | 0 <= j1 < j2 < n && !items[j1].isEmpty && !items[j2].isEmpty
      ensures NamesPrefix(buffer, keys, items, n).value.slots[j1].tagNameOffset
        < NamesPrefix(buffer, keys, items, n).value.slots[j2].tagNameOffset
    {
      OffsetsOrdered(buffer, keys, items, n, j1, j2);
    }
  }

  lemma OffsetsOrdered(buffer: seq<byte>, keys: seq<Key>, items: seq<TagSlot>, n: nat, j1: nat, j2: nat)
    requires |buffer| < TwoTo32 && j1 < j2 < n <= |items| && NamesPrefix(buffer, keys, items, n).Success?
    requires !items[j1].isEmpty && !items[j2].isEmpty
    ensures NamesPrefix(buffer, keys, items, n).value.slots[j1].tagNameOffset
      < NamesPrefix(buffer, keys, items, n).value.slots[j2].tagNameOffset
  {
    SlotOffset(buffer, keys, items, n, j1);
    SlotOffset(buffer, keys, items, n, j2);
    PositionsAdvance(buffer, keys, items, j1, j2);
    PositionBound(buffer, keys, items, j2);
    var p1, p2 := PositionBefore(buffer, keys, items, j1), PositionBefore(buffer, keys, items, j2);
    SmallOffsetsOrdered(p1, p2, |buffer|);
  }

  lemma SmallOffsetsOrdered(p1: nat, p2: nat, bound: nat)
    requires p1 < p2 <= bound < TwoTo32
    ensures p1 % TwoTo32 < p2 % TwoTo32
  {
  }

  // -------------------------------------------------------------- index read

  /** The tag-instance and dependent-tag readers of the third-generation base index: given
      the data, the index body and the address mask they give the tag slots, or an error. */
  type InstanceReader = (Endian, seq<byte>, IndexBody, uint32) -> Result<seq<TagSlot>>

  /** What the index read gets from its cache file: the group catalog, the address mask,
      the base readers, the datum fix-up, the decryptor with the engine version, and the
      tag-name buffer's place in the file. */
  datatype IndexContext = IndexContext(
    find: Catalog, addressMask: uint32, instances: InstanceReader, fixup: Fixup,
    decrypt: Decryptor, version: EngineVersion, namesOffset: int32, namesSize: int32)

  /** The index once read: its body, its group-tag table and its named tag slots. */
  datatype Index = Index(body: IndexBody, groupTags: seq<GroupTagEntry>, items: seq<TagSlot>)

  /** The group-tag table at the body's group-tag offset: a negative count fails with the
      overflow the array allocation raises, a table that runs past the data as its reads do. */
  function GroupTagsAt(c: IndexContext, e: Endian, data: seq<byte>, body: IndexBody): (r: Result<seq<GroupTagEntry>>)
    ensures body.groupTagsCount < 0 <==> r == Failure(Overflow)
    ensures r.Success? <==> (body.groupTagsCount >= 0
      && TableFits(data, OffsetOf(body.groupTagsAddress, c.addressMask), body.groupTagsCount as nat))
    ensures r.Failure? && body.groupTagsCount >= 0 ==> r.error == EndOfStream
    ensures r.Success? ==> |r.value| == body.groupTagsCount
  {
    if body.groupTagsCount < 0 then Failure(Overflow)
    else
      var p := OffsetOf(body.groupTagsAddress, c.addressMask);
      var n := body.groupTagsCount as nat;
      if TableFits(data, p, n) then Success(GroupTagTableAt(c.find, e, data, p, n)) else Failure(EndOfStream)
  }

  /** The decrypted tag-name buffer, read from the cache's own input stream `data`: the
      segment read fails as DecryptSegmentBytes says, and a segment the decryptor rejects
      fails the read. */
  function NameBufferAt(c: IndexContext, data: seq<byte>): (r: Result<seq<byte>>)
    ensures c.namesOffset < 0 ==> r == Failure(SeekBeforeBegin)
    ensures c.namesOffset >= 0 && c.namesOffset + SegmentLength(c.namesSize) > |data| ==> r == Failure(EndOfStream)
    ensures c.namesOffset >= 0 && c.namesOffset + SegmentLength(c.namesSize) <= |data| ==> (
      match c.decrypt(c.version, Tag, data[c.namesOffset..c.namesOffset + SegmentLength(c.namesSize)])
      case None => r == Failure(DecryptionFailed)
      case Some(b) => r == Success(b))
  {
    if c.namesOffset < 0 then Failure(SeekBeforeBegin)
    else if c.namesOffset + SegmentLength(c.namesSize) > |data| then Failure(EndOfStream)
    else
      match c.decrypt(c.version, Tag, data[c.namesOffset..c.namesOffset + SegmentLength(c.namesSize)])
      case None => Failure(DecryptionFailed)
      case Some(b) => Success(b)
  }

  /** The group-tag table and the slots after the fix-up: the base readers' slots, the
      table at its offset, then the fix-up, each failing as its own step does. */
  function TablesAt(c: IndexContext, e: Endian, data: seq<byte>, body: IndexBody)
    : Result<(seq<GroupTagEntry>, seq<TagSlot>)>
  {
    var slots :- c.instances(e, data, body, c.addressMask);
    var groupTags :- GroupTagsAt(c, e, data, body);
    var fixed :- FixedItems(slots, groupTags, body.tagCount, c.fixup);
    Success((groupTags, fixed))
  }

  /** The whole index read from `p` in `data`, with the name buffer from the cache's input
      `cacheData` and the reference table `keys` in the state it had before: the body, the
      tables, the name buffer and the name walk, each failing as its own step does. The
      result holds the index and the reference table after the names were interned. */
  function IndexAt(c: IndexContext, e: Endian, data: seq<byte>, p: nat, cacheData: seq<byte>, keys: seq<Key>)
    : Result<(Index, seq<Key>)>
  {
    if p + IndexBodySize > |data| then Failure(EndOfStream)
    else
      var body := IndexBodyAt(e, data, p);
      var tables :- TablesAt(c, e, data, body);
      var buffer :- NameBufferAt(c, cacheData);
      var named :- NamesPrefix(buffer, keys, tables.1, |tables.1|);
      Success((Index(body, tables.0, named.slots), named.keys))
  }

  /** What a read index promises. Every slot keeps its emptiness. Within the tag count a
      non-empty slot's group is the primary group of the group-tag entry its datum
      pointed at, and its reference names that group with its name from the buffer.
      An empty slot has the all-ones name offset and the null name. With a name buffer
      under 4 GiB the name offsets of non-empty slots strictly increase. The reference
      table only grows, and stays free of duplicates. */
  lemma {:induction false} IndexAtFacts(c: IndexContext, e: Endian, data: seq<byte>, p: nat, cacheData: seq<byte>, keys: seq<Key>)
    requires IndexAt(c, e, data, p, cacheData, keys).Success?
    ensures var (index, keys') := IndexAt(c, e, data, p, cacheData, keys).value;
      var slots := c.instances(e, data, index.body, c.addressMask).value;
      && |index.items| == |slots|
      && keys <= keys' && (Distinct(keys) ==> Distinct(keys'))
      && (forall x :: 0 <= x < |slots| ==> index.items[x].isEmpty == slots[x].isEmpty)
      && (forall x :: 0 <= x < |slots| && slots[x].isEmpty ==>
            index.items[x].tagNameOffset == UInt32Max && index.items[x].referenceName == NullName)
      && (forall x :: 0 <= x < index.body.tagCount && !slots[x].isEmpty ==> (
            && slots[x].datum.index < |index.groupTags|
            && index.items[x].groupTag == index.groupTags[slots[x].datum.index].tags.groupTag1
            && index.items[x].referenceName.Named?
            && index.items[x].referenceName.handle < |keys'|
            && keys'[index.items[x].referenceName.handle].0 == index.items[x].groupTag))
      && (|NameBufferAt(c, cacheData).value| < TwoTo32 ==>
            forall x1, x2 :: 0 <= x1 < x2 < |slots| && !slots[x1].isEmpty && !slots[x2].isEmpty ==>
              index.items[x1].tagNameOffset < index.items[x2].tagNameOffset)
  {
    var body := IndexBodyAt(e, data, p);
    var slots := c.instances(e, data, body, c.addressMask).value;
    var groupTags := GroupTagsAt(c, e, data, body).value;
    var fixed := FixedItems(slots, groupTags, body.tagCount, c.fixup).value;
    assert TablesAt(c, e, data, body).value == (groupTags, fixed);
    var buffer := NameBufferAt(c, cacheData).value;
    NamesPrefixNames(buffer, keys, fixed, |fixed|);
    var named := NamesPrefix(buffer, keys, fixed, |fixed|).value;
    assert IndexAt(c, e, data, p, cacheData, keys).value == (Index(body, groupTags, named.slots), named.keys);
    forall x | 0 <= x < |slots|
      ensures named.slots[x].isEmpty == slots[x].isEmpty
      ensures slots[x].isEmpty ==> named.slots[x].tagNameOffset == UInt32Max && named.slots[x].referenceName == NullName
      ensures x < body.tagCount && !slots[x].isEmpty ==> (
        && slots[x].datum.index < |groupTags|
        && named.slots[x].groupTag == groupTags[slots[x].datum.index].tags.groupTag1
        && named.slots[x].referenceName.Named?
        && named.slots[x].referenceName.handle < |named.keys|
        && named.keys[named.slots[x].referenceName.handle].0 == named.slots[x].groupTag)
    {
      assert SlotNamed(buffer, fixed[x], named.slots[x], named.keys, PositionBefore(buffer, keys, fixed, x));
    }
    if |buffer| < TwoTo32 {
      NamesPrefixOffsetsIncrease(buffer, keys, fixed, |fixed|);
    }
  }

  /** The tag index of a cache file: the body's counts and addresses, the offsets the
      addresses stand for, the group-tag table and the tag slots. */
  class CacheIndex {
    var body: IndexBody
    var groupTagsOffset: uint32
    var tagsOffset: uint32
    var dependentTagsOffset: uint32
    var groupTags: array?<GroupTagEntry>
    var items: array?<TagSlot>

    /** The stored index as one value. */
    function View(): Index
      reads this, groupTags, items
      requires groupTags != null && items != null
    {
      Index(body, groupTags[..], items[..])
    }

    constructor ()
      ensures groupTags == null && items == null
    {
      groupTags, items := null, null;
      body := IndexBody(0, 0, 0, 0, 0, 0);
    }

    /** Reads the index at the cursor of `s`, decrypting the name segment from the cache's
        input stream `input` (which may be `s` itself) and interning the tag names in `refs`.
        On success the fields hold IndexAt's index in new arrays, each offset is its address
        with the mask subtracted, the table is IndexAt's, and the input's cursor stands after
        the name segment; on failure the error is IndexAt's. */
    method Read(s: Reader, input: Reader, c: IndexContext, refs: ReferenceTable) returns (r: Status)
      modifies this, s, input, refs
      ensures r.Success? <==> IndexAt(c, s.endian, s.data, old(s.pos), input.data, old(refs.keys)).Success?
      ensures r.Failure? ==> r.error == IndexAt(c, s.endian, s.data, old(s.pos), input.data, old(refs.keys)).error
      ensures r.Success? ==> (
        && groupTags != null && items != null && fresh(groupTags) && fresh(items)
        && (View(), refs.keys) == IndexAt(c, s.endian, s.data, old(s.pos), input.data, old(refs.keys)).value
        && groupTagsOffset == OffsetOf(body.groupTagsAddress, c.addressMask)
        && tagsOffset == OffsetOf(body.address, c.addressMask)
        && dependentTagsOffset == OffsetOf(body.dependentTagsAddress, c.addressMask)
        && input.pos == c.namesOffset + SegmentLength(c.namesSize))
    {
      var b :- ReadIndexBody(s);
      var tables :- ReadTables(s, c, b);
      var (groups, slots) := tables;
      var buffer :- ReadNameBuffer(input, c);
      ghost var fixed := slots[..];
      var named := ResolveNames(slots, buffer, refs);
      if named.Failure? {
        NamesPrefixFailureIsEndOfStream(buffer.data, old(refs.keys), fixed, slots.Length);
        return named;
      }
      Store(b, c.addressMask, groups, slots);
      r := Done;
    }

    /** Stores a read body with its offsets under `mask`, and the two tables. */
    method Store(b: IndexBody, mask: uint32, groups: array<GroupTagEntry>, slots: array<TagSlot>)
      modifies this
      ensures groupTags == groups && items == slots
      ensures body == b && groupTagsOffset == OffsetOf(b.groupTagsAddress, mask)
      ensures tagsOffset == OffsetOf(b.address, mask) && dependentTagsOffset == OffsetOf(b.dependentTagsAddress, mask)
    {
      body := b;
      groupTagsOffset := OffsetOf(b.groupTagsAddress, mask);
      tagsOffset := OffsetOf(b.address, mask);
      dependentTagsOffset := OffsetOf(b.dependentTagsAddress, mask);
      groupTags, items := groups, slots;
    }
  }

  /** The base readers' slots, the group-tag table read at its offset, and the fix-up of
      the slots, each in a new array. */
  method ReadTables(s: Reader, c: IndexContext, b: IndexBody) returns (r: Result<(array<GroupTagEntry>, array<TagSlot>)>)
    modifies s
    ensures (r.Success? <==> TablesAt(c, s.endian, s.data, b).Success?)
    ensures r.Failure? ==> r.error == TablesAt(c, s.endian, s.data, b).error
    ensures r.Success? ==> (
      && fresh(r.value.0) && fresh(r.value.1)
      && (r.value.0[..], r.value.1[..]) == TablesAt(c, s.endian, s.data, b).value)
  {
    var list :- c.instances(s.endian, s.data, b, c.addressMask);
    var slots := new TagSlot[|list|](i requires 0 <= i < |list| => list[i]);
    if b.groupTagsCount < 0 {
      return Failure(Overflow);
    }
    var groups := new GroupTagEntry[b.groupTagsCount](_ => GroupTagEntry(GroupTagTriple(Null, Null, Null), 0));
    s.SeekTo(OffsetOf(b.groupTagsAddress, c.addressMask));
    var _ :- ReadGroupTagTable(c.find, s, groups);
    assert slots[..] == list;
    var _ :- FixupGroupTags(slots, groups, b.tagCount, c.fixup);
    r := Success((groups, slots));
  }

  /** The decrypted tag-name segment as a stream at its start. */
  method ReadNameBuffer(s: Reader, c: IndexContext) returns (r: Result<Reader>)
    modifies s
    ensures (r.Success? <==> NameBufferAt(c, s.data).Success?) && (r.Failure? ==> r.error == NameBufferAt(c, s.data).error)
    ensures r.Success? ==> (
      && fresh(r.value) && r.value.data == NameBufferAt(c, s.data).value && r.value.pos == 0
      && s.pos == c.namesOffset + SegmentLength(c.namesSize))
  {
    var segment :- DecryptSegmentBytes(s, c.decrypt, c.version, Tag, c.namesOffset, c.namesSize);
    if segment.None? {
      return Failure(DecryptionFailed);
    }
    var buffer := new Reader(segment.value, s.endian);
    r := Success(buffer);
  }
}
