# Halo Reach cache-container loader, modelled in Dafny

This project models the loader BlamLib uses for third-generation (Halo Reach) cache
containers, together with the second-generation records it builds on:

- the fixed-layout, big-endian **header** read (`CacheHeader.Read`). It has a version
  gate, the string-id and tag-name table descriptors, the dependency flags, the six
  memory partitions, and reserved runs that are skipped;
- the **tag index** read (`CacheIndex.Read`, `ReadGroupTags`):
  - stored addresses become file offsets once the address mask is subtracted;
  - the group-tag table is read and copied onto every non-empty tag slot;
  - tag names are resolved from the decrypted name segment and interned in the
    reference table;
- **engine-version detection** from the build string, and the **segment read**, whose
  length is the size aligned up to 16 before decryption;
- the cache file's **load state machine** (`Read`, `ReadResourceCache`). A cache loads
  at most once, and shared or campaign caches are refused. The file also has a
  **unique name** and a choice of **shared stream** for the known Xbox caches;
- the second-generation **group-tag triple** (read and write), and the 28-byte
  **language-pack** record (`kSizeOf`, read, write, `ReadFromCache`).

## Structure

A stream is an immutable `seq<byte>` plus a cursor (`Streams.Reader`). The library's
endian reader is not part of this model. The model assumes that a seek may go past the
end, and that a read of a fixed count fails when fewer bytes remain. A read never returns
a short buffer. The same rule covers the C-string and fixed-width string reads. A writer is a
growing `seq<byte>` (`Streams.Writer`). Exceptions become the `Errors.Error` kinds and
travel in `Result`/`Status` values.

Imperative code keeps that form:

- `CacheHeader`, `CacheIndex`, `CacheFile`, `ReferenceTable` and `LanguagePack` are
  classes with the source's fields.
- Tables are arrays filled in loops.
- Each method is proved against a value-level specification: `ParseHeader`/`HeaderAt`,
  `IndexAt`, `LoadAt`, `RecordsFrom`, `LanguagePackFieldsAt`.
- The lemmas state what the source promises about those specifications.

Code whose body is not part of this model is a parameter of the operation that calls it:

- the tag-group catalog (`TagGroupFind`);
- the tag-instance and dependent-tag readers of the base index;
- the datum fix-up;
- the AES decryption;
- the header's base-address post-processing, which gives the index offset and the
  address mask;
- the shared-type enumeration;
- `SharableReference`;
- the file system.

Modules:

| module | contents |
|---|---|
| `Errors` | error kinds, `Option`, `Result`, `Status` |
| `Bytes` | integer widths, endian decoding and encoding |
| `Streams` | reader and writer |
| `Gen2` | group-tag triple, language pack |
| `ReachHeader` | header layout and read |
| `ReachSegments` | engine version, 16-byte alignment, segment read |
| `ReachIndex` | index body, group-tag table, fix-up, name walk, interning, `CacheIndex` |
| `ReachFile` | unique name, shared streams, load state machine, `CacheFile` |

Where the code and the design description disagree, the model follows the code:

- A rejected header version is `InvalidCacheFile`, the exception the code throws.
- A decrypted segment is not truncated back to its declared size. The code hands on the
  whole aligned buffer.
- What a failed load has already stored is not modelled. The model states only that
  `isLoaded` stays false.

## Model

| member | source | states |
|---|---|---|
| ReachHeader.DependenciesAt | BlamLib/BlamLib/Blam/HaloReach/CacheFile.cs:65-67 | each of DependsOnMainMenu, DependsOnShared and DependsOnCampaign is in the set exactly when its dword is non-zero |
| ReachHeader.PartitionsAt | BlamLib/BlamLib/Blam/HaloReach/CacheFile.cs:92-109 | the partition table has exactly six entries; entry i is the (base address, size) pair at offset 8·i, in on-disk order |
| ReachHeader.TrailerAt | BlamLib/BlamLib/Blam/HaloReach/CacheFile.cs:112-136 | the trailer keeps a 48-byte interop block and a 16-byte compression guid |
| ReachHeader.LayoutOffsets | BlamLib/BlamLib/Blam/HaloReach/CacheFile.cs:27-122 | with 32-byte tag strings the widths read from offset 4 put the string-id table at 0x158, the checksum at 0x2C4, the partitions at 0x2F0, the interop block at 0x46C and the element table header at 0x4AC |
| ReachHeader.HeaderAt | BlamLib/BlamLib/Blam/HaloReach/CacheFile.cs:27-143 | every header field decoded at its absolute offset: six partitions, 48-byte interop block, 16-byte guid |
| ReachHeader.ParseHeader | BlamLib/BlamLib/Blam/HaloReach/CacheFile.cs:23-172 | success implies an accepted version and at least 0x4C4 bytes; past the version field a version other than 11 or 12 is InvalidCacheFile; needsShared is true exactly when the dword at 0x168 is non-zero; a long enough header with a good version fails, with SeekBeforeBegin, exactly when the element count at 0x4AE is -44 or less, which sends the cursor below 0 |
| ReachHeader.VersionGate | BlamLib/BlamLib/Blam/HaloReach/CacheFile.cs:28-29 | the header read is refused as an invalid cache exactly when the version is neither 11 nor 12 |
| ReachHeader.ElementTableSkip | BlamLib/BlamLib/Blam/HaloReach/CacheFile.cs:138-166 | whatever the count, the two seeks over the element table skip 320·28 bytes together, ending at 0x27C4; the last reserved run then ends at 0x4000 (kSizeOfBeta) |
| ReachHeader.ReadIdentity | BlamLib/BlamLib/Blam/HaloReach/CacheFile.cs:30-34 | reads file length, tag index address and memory buffer, skipping the unused dword; fails at the end of the data exactly when the run does not fit |
| ReachHeader.ReadBuildInfo | BlamLib/BlamLib/Blam/HaloReach/CacheFile.cs:36-39 | reads the 256-byte source path, the 32-byte build string and the cache and shared types |
| ReachHeader.ReadReserved | BlamLib/BlamLib/Blam/HaloReach/CacheFile.cs:41-47 | consumes three bools, a byte and five dwords, and fails exactly when they do not fit |
| ReachHeader.ReadStringIdTable | BlamLib/BlamLib/Blam/HaloReach/CacheFile.cs:49-55 | reads the string-id table's count, buffer size, index offset and buffer offset in that order |
| ReachHeader.ReadTimestamps | BlamLib/BlamLib/Blam/HaloReach/CacheFile.cs:62-64 | reads the needs-shared dword as a boolean, then the high and low file-time halves |
| ReachHeader.ReadDependencies | BlamLib/BlamLib/Blam/HaloReach/CacheFile.cs:65-67 | adds the flags of the non-zero dependency dwords to the flags already set and removes none |
| ReachHeader.ReadNames | BlamLib/BlamLib/Blam/HaloReach/CacheFile.cs:70-73 | reads the map name and the scenario path, skipping the two unused dwords |
| ReachHeader.ReadTagNameTable | BlamLib/BlamLib/Blam/HaloReach/CacheFile.cs:75-80 | reads the tag-name table's count, buffer offset, buffer size and index offset in that order |
| ReachHeader.ReadAddresses | BlamLib/BlamLib/Blam/HaloReach/CacheFile.cs:82-86 | reads the checksum, skips 32 constant bytes, reads the base address and the xdk version |
| ReachHeader.ReadPartition | BlamLib/BlamLib/Blam/HaloReach/CacheFile.cs:93-94 | one partition: base address, then size |
| ReachHeader.ReadPartitionInto | BlamLib/BlamLib/Blam/HaloReach/CacheFile.cs:93-109 | fills one slot of the partition table and changes no other slot |
| ReachHeader.ReadPartitions | BlamLib/BlamLib/Blam/HaloReach/CacheFile.cs:88-110 | the six-entry table equals PartitionsAt at the cursor, in on-disk order |
| ReachHeader.ReadTrailer | BlamLib/BlamLib/Blam/HaloReach/CacheFile.cs:112-143 | reads the interop block and guid as TrailerAt says; fails at the end of the data, or before the start when the element count sends the cursor below 0 |
| ReachHeader.ReadPrologue | BlamLib/BlamLib/Blam/HaloReach/CacheFile.cs:30-55 | the runs from 0x8 to 0x168 are the identity, build info and string-id table at their offsets |
| ReachHeader.ReadDescriptors | BlamLib/BlamLib/Blam/HaloReach/CacheFile.cs:57-86 | the runs from 0x168 to 0x2F0 are the timestamps, flags, names, tag-name table and addresses at their offsets |
| ReachHeader.ReadRuns | BlamLib/BlamLib/Blam/HaloReach/CacheFile.cs:30-166 | every run after the version equals HeaderAt; the error is EndOfStream when the data is shorter than 0x4C4 and SeekBeforeBegin otherwise |
| ReachHeader.CacheHeader.Read | BlamLib/BlamLib/Blam/HaloReach/CacheFile.cs:23-172 | succeeds exactly when ParseHeader does, with its error otherwise; on success the fields are HeaderAt's, the partitions are a new array, the flags grow by the dependency flags, and the cursor stands at 0x4000 |
| ReachSegments.EngineVersionOf | BlamLib/BlamLib/Blam/HaloReach/CacheFile.cs:366-384 | "omaha_beta" and "omaha_delta" from index 20 are the beta, "omaha_relea" the Xbox release; a shorter build is ArgumentOutOfRange and any other suffix Unreachable with that suffix, both directions |
| ReachSegments.EngineVersionBySuffix | BlamLib/BlamLib/Blam/HaloReach/CacheFile.cs:368-383 | only the suffix decides the version |
| ReachSegments.KnownBuildLength | BlamLib/BlamLib/Blam/HaloReach/CacheFile.cs:368-379 | a recognised build from a 32-byte field is 30 or 31 characters long, 31 for the release |
| ReachSegments.AlignUp16 | BlamLib/BlamLib/Blam/HaloReach/CacheFile.cs:297 | a multiple of 16, at least the size and below size + 16, except that a size within 15 of 2^32 wraps to 0 |
| ReachSegments.AlignUp16Least | BlamLib/BlamLib/Blam/HaloReach/CacheFile.cs:297 | the aligned length is the least multiple of 16 that holds the size |
| ReachSegments.AlignUp16Idempotent | BlamLib/BlamLib/Blam/HaloReach/CacheFile.cs:297 | aligning an aligned length changes nothing |
| ReachSegments.DecryptSegmentBytes | BlamLib/BlamLib/Blam/HaloReach/CacheFile.cs:294-304 | seeks to the offset and reads the size's unsigned bits aligned to 16; the decryptor's answer over exactly those bytes is returned; a negative offset and a short file fail |
| ReachIndex.OffsetOf | BlamLib/BlamLib/Blam/HaloReach/CacheFile.cs:188-194 | an offset is its address minus the mask, wrapping modulo 2^32 when the mask is larger |
| ReachIndex.OffsetAddressRoundTrip | BlamLib/BlamLib/Blam/HaloReach/CacheFile.cs:188-194 | adding the mask back to an offset gives the stored address |
| ReachIndex.ReadIndexBody | BlamLib/BlamLib/Blam/HaloReach/CacheFile.cs:186-203 | reads the three (count, address) pairs, skips 12 bytes, reads the checksum and the signature; fails exactly when the 44 bytes do not fit |
| ReachIndex.GroupTagTableAt | BlamLib/BlamLib/Blam/HaloReach/CacheFile.cs:252-258 | n entries, entry j being the 16-byte entry at p + 16·j |
| ReachIndex.ReadGroupTagEntry | BlamLib/BlamLib/Blam/HaloReach/CacheFile.cs:266-271 | one entry is a group-tag triple and then its name id |
| ReachIndex.ReadGroupTagTable | BlamLib/BlamLib/Blam/HaloReach/CacheFile.cs:254-258 | fills the array with the entries read one after another, succeeding exactly when the table fits |
| ReachIndex.GroupTagsAt | BlamLib/BlamLib/Blam/HaloReach/CacheFile.cs:252-258 | the table at the masked group-tag offset; a negative count fails with the allocation's Overflow; a table running past the data is EndOfStream; the length is the count |
| ReachIndex.FixedItems | BlamLib/BlamLib/Blam/HaloReach/CacheFile.cs:211-222 | every non-empty slot below tagCount gets the primary group of the entry its datum points at and that group's code; empty slots and slots past tagCount are untouched; fails with IndexOutOfRange exactly when an index leaves its table |
| ReachIndex.FixupGroupTags | BlamLib/BlamLib/Blam/HaloReach/CacheFile.cs:211-222 | the in-place loop leaves the array equal to FixedItems, and fails exactly when FixedItems does |
| ReachIndex.Intern | BlamLib/BlamLib/Blam/HaloReach/CacheFile.cs:246 | insert-if-absent: a present key keeps its handle and the table is unchanged; an absent one is appended with the next handle |
| ReachIndex.InternDistinct | BlamLib/BlamLib/Blam/HaloReach/CacheFile.cs:246 | a table without duplicates keeps none, and a key's handle is its only position |
| ReachIndex.InternIdempotent | BlamLib/BlamLib/Blam/HaloReach/CacheFile.cs:246 | interning the same key twice gives the same table and handle as once |
| ReachIndex.ReferenceTable.AddOptimized | BlamLib/BlamLib/Blam/HaloReach/CacheFile.cs:246 | the handle and the new table are Intern's |
| ReachIndex.TagNameOf | BlamLib/BlamLib/Blam/HaloReach/CacheFile.cs:237 | an empty name becomes "NONE" and any other is kept, so the result is never empty |
| ReachIndex.NameStep | BlamLib/BlamLib/Blam/HaloReach/CacheFile.cs:228-247 | one slot fails exactly when it is non-empty and no NUL follows the position; an empty slot reads nothing and interns nothing; a non-empty one moves the position forward |
| ReachIndex.NameStepFacts | BlamLib/BlamLib/Blam/HaloReach/CacheFile.cs:228-247 | one step appends exactly one slot, named from its starting position, and the table only grows without duplicates |
| ReachIndex.NamesPrefix | BlamLib/BlamLib/Blam/HaloReach/CacheFile.cs:228-247 | the walk over n slots gives n slots |
| ReachIndex.NamesPrefixFailureSticks | BlamLib/BlamLib/Blam/HaloReach/CacheFile.cs:236 | once the walk fails it stays failed, with EndOfStream |
| ReachIndex.NamesPrefixFailureIsEndOfStream | BlamLib/BlamLib/Blam/HaloReach/CacheFile.cs:236 | the walk's only error is the C-string read's EndOfStream |
| ReachIndex.NameSlot | BlamLib/BlamLib/Blam/HaloReach/CacheFile.cs:230-246 | one pass of the loop does NameStep's work in place on slot x, the buffer cursor and the table; other slots are untouched |
| ReachIndex.ResolveNames | BlamLib/BlamLib/Blam/HaloReach/CacheFile.cs:224-249 | the loop over every slot leaves the slots and the table equal to the walk's, and fails exactly when the walk does |
| ReachIndex.NamesPrefixNames | BlamLib/BlamLib/Blam/HaloReach/CacheFile.cs:228-247 | every slot is named from the position the walk had reached: an empty slot gets 0xFFFFFFFF and the null name; a non-empty one gets that position and a handle to (group, name or "NONE"); the table grows without duplicates |
| ReachIndex.PositionBound | BlamLib/BlamLib/Blam/HaloReach/CacheFile.cs:235-236 | the walk's position never passes the end of the buffer |
| ReachIndex.PositionsAdvance | BlamLib/BlamLib/Blam/HaloReach/CacheFile.cs:235-243 | the position never goes back: it moves strictly past a non-empty slot and not at all past an empty one |
| ReachIndex.SlotOffset | BlamLib/BlamLib/Blam/HaloReach/CacheFile.cs:235 | a non-empty slot's offset is the buffer position before its string, cut to 32 bits |
| ReachIndex.NamesPrefixOffsetsIncrease | BlamLib/BlamLib/Blam/HaloReach/CacheFile.cs:228-247 | for a buffer under 4 GiB the offsets of successive non-empty slots strictly increase |
| ReachIndex.NameBufferAt | BlamLib/BlamLib/Blam/HaloReach/CacheFile.cs:225 | the tag-name segment is read as DecryptSegmentBytes says; a segment the decryptor rejects is DecryptionFailed |
| ReachIndex.IndexAtFacts | BlamLib/BlamLib/Blam/HaloReach/CacheFile.cs:182-250 | a read index keeps each slot's emptiness; a non-empty slot below tagCount has its entry's primary group, and its reference names that group; empty slots get 0xFFFFFFFF and the null name; with a buffer under 4 GiB the name offsets strictly increase; the table grows without duplicates |
| ReachIndex.CacheIndex.Read | BlamLib/BlamLib/Blam/HaloReach/CacheFile.cs:182-250 | succeeds exactly when IndexAt does, with its error otherwise; on success the fields and the reference table are IndexAt's, each offset is its address minus the mask, and the input stream stands after the name segment |
| ReachIndex.ReadTables | BlamLib/BlamLib/Blam/HaloReach/CacheFile.cs:205-222 | the base readers' slots, the group-tag table at its offset and the fixed-up slots, in new arrays, as TablesAt says |
| ReachIndex.ReadNameBuffer | BlamLib/BlamLib/Blam/HaloReach/CacheFile.cs:225 | the decrypted tag-name segment as a new stream at its start, failing as NameBufferAt does |
| ReachFile.HexDigits | BlamLib/BlamLib/Blam/HaloReach/CacheFile.cs:316 | n upper-case hexadecimal digits |
| ReachFile.ParseHexDigits | BlamLib/BlamLib/Blam/HaloReach/CacheFile.cs:316 | n digits read back give the value they format |
| ReachFile.Hex8RoundTrip | BlamLib/BlamLib/Blam/HaloReach/CacheFile.cs:316 | the "X8" format of a dword reads back as that dword |
| ReachFile.UniqueName | BlamLib/BlamLib/Blam/HaloReach/CacheFile.cs:313-317 | the map name, "_", then 16 hex digits |
| ReachFile.UniqueNameParts | BlamLib/BlamLib/Blam/HaloReach/CacheFile.cs:313-317 | the name and both file-time halves (as their raw bits) are recovered from a unique name |
| ReachFile.CacheFile.GetUniqueName | BlamLib/BlamLib/Blam/HaloReach/CacheFile.cs:313-317 | the loaded header's map name, then "_", then the header's file-time halves as 8 hex digits each, all recoverable |
| ReachFile.UniqueNameInjective | BlamLib/BlamLib/Blam/HaloReach/CacheFile.cs:313-317 | equal unique names mean equal map names and file times |
| ReachFile.SharableReferenceXbox | BlamLib/BlamLib/Blam/HaloReach/CacheFile.cs:333-341 | the first of main menu, shared, campaign that the path may share with, each case as an if-and-only-if; none when it names none |
| ReachFile.LoadAtSplit | BlamLib/BlamLib/Blam/HaloReach/CacheFile.cs:396-402 | a load fails with the header's error, or is the load past the decoded header |
| ReachFile.SharedCacheRefused | BlamLib/BlamLib/Blam/HaloReach/CacheFile.cs:404-407 | a shared or campaign cache never loads |
| ReachFile.LoadedVersion | BlamLib/BlamLib/Blam/HaloReach/CacheFile.cs:396-412 | a completed load is not shared, has a recognised build, and records the version that build's suffix names |
| ReachFile.CacheFile.constructor | BlamLib/BlamLib/Blam/HaloReach/CacheFile.cs:344-355 | a known shared cache lends its stream, any other map opens its own big-endian stream; nothing is loaded; header and index are empty |
| ReachFile.CacheFile.Read | BlamLib/BlamLib/Blam/HaloReach/CacheFile.cs:396-412 | once loaded it does nothing; otherwise it succeeds exactly when LoadAt does, with its error otherwise; it is loaded exactly on success, and then the header, version, index and reference table are LoadAt's; the shared-map link is never changed |
| ReachFile.CacheFile.LoadRest | BlamLib/BlamLib/Blam/HaloReach/CacheFile.cs:386-411 | past the header: the version, the refusal of shared caches, then the index at the header's index offset with a new reference table, as LoadFrom says |
| ReachFile.CacheFile.ReadResourceCache | BlamLib/BlamLib/Blam/HaloReach/CacheFile.cs:357-364 | once loaded it does nothing; otherwise it reads only the header from the input stream and is loaded exactly when that succeeds; the index, engine version, reference table and shared-map link are left as they were |
| Gen2.ReadGroupTags | BlamLib/BlamLib/Blam/Cache/CacheFileGen2nd.cs:167-180 | consumes exactly 12 bytes into the decoded triple, or fails at the end of the data |
| Gen2.NullLevelIffSentinel | BlamLib/BlamLib/Blam/Cache/CacheFileGen2nd.cs:169-179 | each level is the null group exactly when its dword is 0xFFFFFFFF (for a catalog that never answers a real code with the null group) |
| Gen2.EncodeGroupTags | BlamLib/BlamLib/Blam/Cache/CacheFileGen2nd.cs:184-189 | twelve bytes holding GroupTag1, GroupTag2, GroupTag3 in that order |
| Gen2.WriteGroupTags | BlamLib/BlamLib/Blam/Cache/CacheFileGen2nd.cs:184-189 | appends exactly EncodeGroupTags of the triple |
| Gen2.DecodeEncodeGroupTags | BlamLib/BlamLib/Blam/Cache/CacheFileGen2nd.cs:167-189 | writing a canonical triple and reading it back gives the triple |
| Gen2.EncodeDecodeGroupTags | BlamLib/BlamLib/Blam/Cache/CacheFileGen2nd.cs:167-189 | reading twelve bytes that the catalog resolves and writing them back gives the same bytes |
| Gen2.EncodeLanguagePack | BlamLib/BlamLib/Blam/Cache/CacheFileGen2nd.cs:236-244 | a written record is kSizeOf = 28 bytes, with zeros in its first 8 and last 4 |
| Gen2.LanguagePackRoundTrip | BlamLib/BlamLib/Blam/Cache/CacheFileGen2nd.cs:226-244 | a written record, after any earlier bytes, reads back as the same four fields |
| Gen2.LanguagePack.Read | BlamLib/BlamLib/Blam/Cache/CacheFileGen2nd.cs:226-234 | skips 8 bytes, reads count, size and the two offsets, then skips 4, consuming exactly 28 bytes; fails only when the first 24 bytes (8 skipped, 16 read) do not fit |
| Gen2.LanguagePack.Write | BlamLib/BlamLib/Blam/Cache/CacheFileGen2nd.cs:236-244 | appends exactly EncodeLanguagePack of the four fields |
| Gen2.RecordsFrom | BlamLib/BlamLib/Blam/Cache/CacheFileGen2nd.cs:264-265 | n records of the given width, or none when the data ends first |
| Gen2.ReadRecords | BlamLib/BlamLib/Blam/Cache/CacheFileGen2nd.cs:264-265 | the loop fills the array with RecordsFrom at the cursor, and fails exactly when they do not fit |
| Gen2.LanguagePack.ReadStringReferencesAsWritten | BlamLib/BlamLib/Blam/Cache/CacheFileGen2nd.cs:262-265 | as written: seeks the resolving cache's stream, then reads Count records from the primary stream's cursor; when the two streams are the same the records are those at the pointer, so the defect shows exactly when the caches differ |
| Gen2.LanguagePack.ReadStringReferences | BlamLib/BlamLib/Blam/Cache/CacheFileGen2nd.cs:257-266 | as intended: Count records from the resolving cache at the pointer's offset, in a new array of exactly Count entries |
| Gen2.AsWrittenReadsOtherRecords | BlamLib/BlamLib/Blam/Cache/CacheFileGen2nd.cs:262-265 | when the primary stream's bytes differ from those at the pointer, the as-written read returns other records |
| Gen2.AsWrittenExample | BlamLib/BlamLib/Blam/Cache/CacheFileGen2nd.cs:262-265 | a concrete pair of streams on which the two reads differ |
| Gen2.LanguagePack.ReadFromCache | BlamLib/BlamLib/Blam/Cache/CacheFileGen2nd.cs:248-282 | does nothing when Count ≤ 0, not even to the two streams; otherwise it succeeds exactly when the resolved records and string data fit; the references hold exactly Count records and the data buffer holds the Size bytes at the pointer; with no string data the references are null; never references without a data buffer. The references come from the corrected read (`ReadStringReferences`), so when the pointer resolves to another cache they differ from the records lines 264-265 read as written |

## Left out

- `Blam.CacheFile.ValidateHeader`, which checks the file against the two header sizes, is not part of this model. Its body is not available. The two sizes are constants and are used in `ElementTableSkip`.
- `cacheInterop.Read`, `PostprocessForCacheRead`, `ReadPostprocessForInterop` and `ReadPostprocessForBaseAddresses` are not part of this model, because their bodies are not available.
  - The interop block is kept as its 48 raw bytes.
  - The post-processing becomes the `locate` rule that gives the index offset and the address mask.
- The AES decryption (`GameDefinition.SecurityAesDecrypt`) is a parameter, a function returning an optional buffer, so the keys and the cipher are not modelled.
- `Util.Align` is not part of this model. `AlignUp16` states the rounding it is used for, in 32-bit unsigned arithmetic.
- `ReadDependents` and `ReadTagInstances` are one collaborator that gives the tag slots, because their bodies are not available.
- `CacheItem.Fixup` and `TagGroupFind` are parameters, because their bodies are not available.
- The string-id name of a group-tag entry is taken as one 32-bit value. Its reader's body is not available.
- `StringIdManagerInitializeAndRead`, `InitializeTagIndexManager`, `GetStringIdsBuffer` and the string-id manager are left out. They belong to the string-id subsystem.
- `InitializeReferenceManager` is modelled as a new, empty reference table.
- The numeric codes of `Cache.SharedType` are not available, so the enumeration's naming of a code is a parameter.
- `SharableReference` and `ShareCacheStreams` become a rule over (path, known cache) and a function giving each known cache's bytes. Process-wide sharing of the stream objects is not modelled.
- `SharableReferencePc` always answers false, so the constructor does not model it.
- `OutputStream` and `CacheIsReadonly` are left out: nothing in the core writes to a cache.
- `Program.Halo2.FromLocation` becomes an optional resolved stream plus an offset for each resource pointer.
- Checksum verification, the disabled `#if false` block, `ToString`, and the resource-definition factory are left out.
- ReachHeader.CacheHeader.Read: the fields it has already assigned when a read fails are not stated.
- ReachHeader.CacheHeader.Read: the fields are grouped per header region rather than kept as the source's thirty separate fields. Regions are the identity, build info, string-id table, timestamps, names, tag-name table, addresses and trailer.
- ReachIndex.CacheIndex.Read: the position where the cursor of `s` ends is not stated, and neither is the partial state after a failure.
- ReachFile.CacheFile.Read: after a failure, only `isLoaded` being false is stated. What the header, version and index already hold is not.
- ReachFile.CacheFile.LoadRest: after a failure, only `isLoaded` being false is stated. What the header, version and index already hold is not.
- Gen2.LanguagePack.ReadFromCache: after a failure, only that the four fields are unchanged is stated. The arrays already replaced are not.
- Short reads follow the assumption under "Structure". The library's endian reader is not part of this model, so it is not checked whether a short read fails or returns fewer bytes. These results depend on it:
  - `DecryptSegmentBytes` fails on a short file;
  - `ReadFromCache` gives EndOfStream on short string data;
  - the header read fails when the 16-byte guid is cut short;
  - every other `EndOfStream`.
- `DecryptCacheSegmentStream` is not part of this model. It is assumed to refuse a segment the decryptor rejects, so `NameBufferAt` fails with DecryptionFailed even when every slot is empty. The source might fail only later, when a non-empty slot reads from the missing buffer.
- `CacheItem.IsEmpty` is not part of this model. It is taken as a flag stored in the slot, which the fix-up does not change. The name walk therefore tests the emptiness the slot had before the fix-up. If the source's property reads the group tag or the datum that the fix-up rewrites, a slot whose entry's primary group is the null group would be empty in the source but named in the model.
- The decoding of `ReadAsciiString` and `ReadCString` is not part of this model. Each byte is taken as the character with that code (Latin-1). An ASCII decoder that turns every byte of 0x80 or above into '?' would merge names, and so interning keys, that the model keeps apart.
- `TagGroup.Null` and `TagGroup.Write` are not part of this model.
  - The null group's code is taken as 0xFFFFFFFF, the sentinel the reader tests.
  - A group is taken to write its code as one 32-bit value (`EncodeGroupTags`).
- Stream sizes are unbounded. Where the code works in 32 bits, the model writes that out:
  - the unsigned name offset (`PositionUnsigned`) is cut modulo 2^32, and `NamesPrefixOffsetsIncrease` needs a buffer under 2^32 bytes;
  - the offsets and sizes the header stores are `int32` and `uint32` fields.

## Findings

| source | as written | input that shows it | evidently intended | confidence | as-written member | corrected member |
|---|---|---|---|---|---|---|
| BlamLib/BlamLib/Blam/Cache/CacheFileGen2nd.cs:262-265 | seeks `rsrc_cache.InputStream` to the references' offset, then reads each string reference from `cf.InputStream`, the primary cache's stream | a companion cache holding records 1 2 3 4 at the pointer's offset, and a primary stream whose cursor stands on four zero bytes: the records read are 0 0 0 0 | read the records from `rsrc_cache.InputStream`, which the line before positioned | not executed | Gen2.LanguagePack.ReadStringReferencesAsWritten | Gen2.LanguagePack.ReadStringReferences |
