/** Engine-version detection and encrypted segment reads of the Halo Reach
    container (BlamLib/BlamLib/Blam/HaloReach/CacheFile.cs,
    `DetermineEngineVersion` and `DecryptCacheSegmentBytes`). The AES step
    itself is a collaborator: a function from the version, the section kind
    and the encrypted bytes to a decrypted buffer, or to none. */
module ReachSegments {
  import opened Bytes
  import opened Errors
  import opened Streams

  /** The two Halo Reach engine builds the loader tells apart. */
  datatype EngineVersion = ReachBeta | ReachXbox

  /** The section kinds this loader decrypts: the string-id buffer and the tag-name buffer. */
  datatype SectionType = Debug | Tag

  /** The security layer's decryption: the keys depend on the version and the section. */
  type Decryptor = (EngineVersion, SectionType, seq<byte>) -> Option<seq<byte>>

  /** Where the build string's distinguishing suffix starts. */
  const SuffixStart: nat := 20

  /** The suffixes the loader knows, and the version each stands for. */
  const KnownSuffixes: map<string, EngineVersion> :=
    map["omaha_beta" := ReachBeta, "omaha_delta" := ReachBeta, "omaha_relea" := ReachXbox]

  /** The version named by the build string's suffix. A build shorter than the suffix
      start is refused as the substring call refuses it; a suffix the loader does not
      know is refused with that suffix. */
  function EngineVersionOf(build: string): (r: Result<EngineVersion>)
    ensures |build| < SuffixStart <==> r == Failure(ArgumentOutOfRange)
    ensures |build| >= SuffixStart && build[SuffixStart..] in KnownSuffixes <==> r.Success?
    ensures r.Success? ==> r.value == KnownSuffixes[build[SuffixStart..]]
    ensures |build| >= SuffixStart && build[SuffixStart..] !in KnownSuffixes ==>
      r == Failure(Unreachable(build[SuffixStart..]))
  {
    if |build| < SuffixStart then Failure(ArgumentOutOfRange)
    else
      var suffix := build[SuffixStart..];
      if suffix == "omaha_beta" || suffix == "omaha_delta" then Success(ReachBeta)
      else if suffix == "omaha_relea" then Success(ReachXbox)
      else Failure(Unreachable(suffix))
  }

  /** Only the suffix decides: two builds with the same suffix get the same answer,
      whatever their first twenty characters. */
  lemma EngineVersionBySuffix(a: string, b: string)
    requires |a| >= SuffixStart && |b| >= SuffixStart && a[SuffixStart..] == b[SuffixStart..]
    ensures EngineVersionOf(a) == EngineVersionOf(b)
  {
  }

  /** A build string comes from a 32-byte field, so a recognised one is 30 or 31
      characters long. (That the release suffix is a cut-off "omaha_release" is an
      inference from this length; the loader does not say so.) */
  lemma KnownBuildLength(build: string)
    requires |build| <= TagStringLength && EngineVersionOf(build).Success?
    ensures |build| == SuffixStart + 10 || |build| == SuffixStart + 11
    ensures EngineVersionOf(build) == Success(ReachXbox) ==> |build| == 31
  {
    var suffix := build[SuffixStart..];
    assert suffix in KnownSuffixes;
    assert suffix == "omaha_beta" || suffix == "omaha_delta" || suffix == "omaha_relea";
  }

  const TwoTo32: int := 0x1_0000_0000

  /** Rounds up to a multiple of 16 in 32-bit unsigned arithmetic, so a value within 15 of
      the top wraps to 0. */
  function AlignUp16(v: uint32): (r: uint32)
    ensures r % 16 == 0
    ensures v <= 0xFFFF_FFF0 ==> v <= r < v + 16
    ensures v > 0xFFFF_FFF0 ==> r == 0
  {
    ((v + 15) / 16 * 16) % TwoTo32
  }

  /** Without wrap-around the aligned length is the least multiple of 16 that holds `v`. */
  lemma AlignUp16Least(v: uint32, m: int)
    requires v <= 0xFFFF_FFF0 && m % 16 == 0 && v <= m
    ensures AlignUp16(v) <= m
  {
  }

  /** Aligning an aligned length changes nothing. */
  lemma {:induction false} AlignUp16Idempotent(v: uint32)
    ensures AlignUp16(AlignUp16(v)) == AlignUp16(v)
  {
    var r := AlignUp16(v);
    assert r % 16 == 0;
    if r <= 0xFFFF_FFF0 {
      assert (r + 15) / 16 == r / 16;
    }
  }

  /** The number of encrypted bytes read for a segment of `size` bytes: the size's raw
      bits (the unsigned cast) aligned up to 16. */
  function SegmentLength(size: int32): uint32 {
    AlignUp16(Bits32(size))
  }

  /** Reads the segment at `offset` with its length aligned up to 16 and hands the bytes to
      the decryptor; its answer, a buffer or none, is returned unchanged. The seek fails on
      a negative offset and the read at the end of the data. */
  method DecryptSegmentBytes(s: Reader, decrypt: Decryptor, version: EngineVersion,
                             section: SectionType, offset: int32, size: int32)
    returns (r: Result<Option<seq<byte>>>)
    modifies s
    ensures offset < 0 ==> r == Failure(SeekBeforeBegin)
    ensures offset >= 0 && offset + SegmentLength(size) > |s.data| ==> r == Failure(EndOfStream)
    ensures offset >= 0 && offset + SegmentLength(size) <= |s.data| ==>
      r == Success(decrypt(version, section, s.data[offset..offset + SegmentLength(size)]))
      && s.pos == offset + SegmentLength(size)
  {
    var _ :- s.Seek(offset, Begin);
    var bufferSize := AlignUp16(Bits32(size));
    var encrypted :- s.ReadBytes(bufferSize);
    var decrypted := decrypt(version, section, encrypted);
    r := Success(decrypted);
  }
}
