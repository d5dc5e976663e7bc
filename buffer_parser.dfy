/**
 * Turning a GStreamer buffer and its caps into a media segment for the player:
 * the audio and video specific fields, the codec data, and the protection
 * (encryption) metadata with its subsamples.
 */
module BufferParser {
  import opened Common

  // ---------------------------------------------------------------------------
  // Inputs: caps structures, structure values, protection metadata
  // ---------------------------------------------------------------------------

  /** A fraction as gst_structure_get_fraction reads it. */
  datatype Fraction = Fraction(numerator: int, denominator: int)

  /** A structure field's value, as far as the parser looks at it: a buffer
      (mapped is None when the buffer cannot be mapped for reading), a string
      (chars is None for a null string; otherwise the bytes in memory, the
      string ending at the first zero byte or at the end), or anything else. */
  datatype FieldValue =
    | BufferValue(mapped: Option<seq<byte>>)
    | StringValue(chars: Option<seq<byte>>)
    | OtherValue

  /** The first structure of the sample's caps. A None field is one that is absent or
      does not have the type the parser asks for. */
  datatype Structure = Structure(
    name: Option<string>,
    rate: Option<int>,
    channels: Option<int>,
    width: Option<int>,
    height: Option<int>,
    framerate: Option<Fraction>,
    codecData: Option<FieldValue>)

  /** The "info" structure of a buffer's GstProtectionMeta: its subsample count and blob. */
  datatype ProtectionInfo = ProtectionInfo(subsampleCount: Option<uint32>, subsamples: Option<FieldValue>)

  /** One subsample: bytes of clear data followed by bytes of encrypted data. */
  datatype SubSample = SubSample(clearBytes: int, encryptedBytes: int)

  /** The BufferProtectionMetadata that ProcessProtectionMetadata fills in for a buffer. */
  datatype ProtectionMetadata = ProtectionMetadata(
    encrypted: bool,
    mediaKeySessionId: int,
    kid: seq<byte>,
    iv: seq<byte>,
    initWithLast15: uint32,
    cipherMode: nat,
    encryptionPatternSet: bool,
    cryptBlocks: uint32,
    skipBlocks: uint32,
    subsamples: seq<SubSample>)

  // ---------------------------------------------------------------------------
  // Encryption format and the full-sample subsample
  // ---------------------------------------------------------------------------

  datatype EncryptionFormat = Clear | Cenc | Webm

  function EncryptionFormatOf(mediaType: string): (f: EncryptionFormat)
    ensures f == Cenc <==> mediaType == "application/x-cenc"
    ensures f == Webm <==> mediaType == "application/x-webm-enc"
    ensures f == Clear <==> mediaType != "application/x-cenc" && mediaType != "application/x-webm-enc"
  {
    if mediaType == "application/x-cenc" then Cenc
    else if mediaType == "application/x-webm-enc" then Webm
    else Clear
  }

  const U32Modulus: int := 0x1_0000_0000

  /** An encrypted CENC or WebM sample that comes without subsamples is encrypted in full
      (section 9.2 of ISO/IEC 23001-7, and section 4.5 of the WebM encryption specification):
      it is described by one subsample of no clear bytes and the whole map size, cast to uint32_t. */
  function WithFullSampleSubsample(format: EncryptionFormat, md: ProtectionMetadata, mapSize: nat): (m: ProtectionMetadata)
    ensures m.subsamples != md.subsamples <==> format != Clear && md.encrypted && md.subsamples == []
    ensures m.subsamples != md.subsamples ==> m.subsamples == [SubSample(0, mapSize % U32Modulus)]
    ensures m.(subsamples := md.subsamples) == md
  {
    if (format == Webm || format == Cenc) && md.encrypted && |md.subsamples| == 0 then
      md.(subsamples := [SubSample(0, mapSize % U32Modulus)])
    else
      assert !(format != Clear && md.encrypted && md.subsamples == []);
      md
  }

  function TotalBytes(subs: seq<SubSample>): int
  {
    if subs == [] then 0 else subs[0].clearBytes + subs[0].encryptedBytes + TotalBytes(subs[1..])
  }

  /** After the synthesis, an encrypted CENC or WebM sample always has subsamples, and when it
      had none they cover the whole mapped buffer (of fewer than 2^32 bytes) as encrypted data. */
  lemma FullSampleCoversBuffer(format: EncryptionFormat, md: ProtectionMetadata, mapSize: nat)
    requires format != Clear && md.encrypted
    ensures WithFullSampleSubsample(format, md, mapSize).subsamples != []
    ensures md.subsamples == [] && mapSize < U32Modulus ==>
              TotalBytes(WithFullSampleSubsample(format, md, mapSize).subsamples) == mapSize
  {
    var subs := WithFullSampleSubsample(format, md, mapSize).subsamples;
    if md.subsamples == [] {
      assert subs == [SubSample(0, mapSize % U32Modulus)];
      assert TotalBytes(subs) == mapSize % U32Modulus + TotalBytes(subs[1..]);
    }
  }

  // ---------------------------------------------------------------------------
  // Codec data
  // ---------------------------------------------------------------------------

  datatype CodecDataType = BufferType | StringType

  datatype CodecData = CodecData(data: seq<byte>, kind: CodecDataType)

  /** The bytes std::strlen counts: those before the first zero byte. */
  function CStringBytes(raw: seq<byte>): (s: seq<byte>)
    ensures |s| <= |raw| && s == raw[..|s|]
    ensures forall i :: 0 <= i < |s| ==> s[i] != 0
    ensures |s| < |raw| ==> raw[|s|] == 0
    decreases |raw|
  {
    if raw == [] || raw[0] == 0 then [] else [raw[0]] + CStringBytes(raw[1..])
  }

  /** A string without a zero byte is copied whole. */
  lemma {:induction false} CStringWithoutZero(raw: seq<byte>)
    requires forall i :: 0 <= i < |raw| ==> raw[i] != 0
    ensures CStringBytes(raw) == raw
    decreases |raw|
  {
    if raw != [] {
      CStringWithoutZero(raw[1..]);
    }
  }

  /** The codec data a caps structure's "codec_data" value yields, if any. */
  function CodecDataOf(value: Option<FieldValue>): (r: Option<CodecData>)
    ensures value.None? ==> r.None?
    ensures value.Some? && value.value.BufferValue? ==>
              r == (if value.value.mapped.Some? then Some(CodecData(value.value.mapped.value, BufferType)) else None)
    ensures value.Some? && value.value.StringValue? ==>
              r == (if value.value.chars.Some? then Some(CodecData(CStringBytes(value.value.chars.value), StringType)) else None)
    ensures value == Some(OtherValue) ==> r.None?
  {
    match value
    case None => None
    case Some(BufferValue(mapped)) =>
      // a buffer that cannot be mapped gives no codec data, and no string is tried
      if mapped.Some? then Some(CodecData(mapped.value, BufferType)) else None
    case Some(StringValue(chars)) =>
      if chars.Some? then Some(CodecData(CStringBytes(chars.value), StringType)) else None
    case Some(OtherValue) => None
  }

  // ---------------------------------------------------------------------------
  // Subsample records of the video protection meta
  // ---------------------------------------------------------------------------

  /** The size of one record: a big-endian uint16 of clear bytes, a big-endian uint32 of encrypted bytes. */
  const RecordSize: nat := 6

  function SubSampleAt(b: seq<byte>, o: nat): (s: SubSample)
    requires o + RecordSize <= |b|
    ensures 0 <= s.clearBytes < 0x1_0000 && 0 <= s.encryptedBytes < U32Modulus
  {
    SubSample(b[o] as int * 0x100 + b[o + 1] as int,
              b[o + 2] as int * 0x100_0000 + b[o + 3] as int * 0x1_0000 + b[o + 4] as int * 0x100 + b[o + 5] as int)
  }

  /** The subsample blob is read only when the count is positive, the blob is a buffer
      that maps, and its size divided by the record size (rounding down) is the count. */
  predicate SubsamplesAccepted(count: uint32, blob: Option<FieldValue>)
  {
    count > 0 && blob.Some? && blob.value.BufferValue? && blob.value.mapped.Some?
    && |blob.value.mapped.value| / RecordSize == count
  }

  /** The records as they are meant to be read: record i at offset 6 * i. */
  function DecodeSubsamples(b: seq<byte>, count: nat): (subs: seq<SubSample>)
    requires count * RecordSize <= |b|
    ensures |subs| == count
    ensures forall i :: 0 <= i < count ==> subs[i] == SubSampleAt(b, i * RecordSize)
  {
    seq(count, i requires 0 <= i < count => SubSampleAt(b, i * RecordSize))
  }

  /** The inverse: the big-endian records of subsamples that fit their fields. */
  function EncodeSubsamples(subs: seq<SubSample>): (b: seq<byte>)
    requires forall i :: 0 <= i < |subs| ==> 0 <= subs[i].clearBytes < 0x1_0000 && 0 <= subs[i].encryptedBytes < U32Modulus
    ensures |b| == |subs| * RecordSize
  {
    if subs == [] then [] else EncodeOne(subs[0]) + EncodeSubsamples(subs[1..])
  }

  function EncodeOne(s: SubSample): (b: seq<byte>)
    requires 0 <= s.clearBytes < 0x1_0000 && 0 <= s.encryptedBytes < U32Modulus
    ensures |b| == RecordSize
  {
    var c, e := s.clearBytes, s.encryptedBytes;
    [(c / 0x100) as byte, (c % 0x100) as byte,
     (e / 0x100_0000) as byte, (e / 0x1_0000 % 0x100) as byte, (e / 0x100 % 0x100) as byte, (e % 0x100) as byte]
  }

  lemma EncodeOneRoundTrip(s: SubSample)
    requires 0 <= s.clearBytes < 0x1_0000 && 0 <= s.encryptedBytes < U32Modulus
    ensures SubSampleAt(EncodeOne(s), 0) == s
  {
    var e := s.encryptedBytes;
    var q := e / 0x100;
    var r := q / 0x100;
    assert e == q * 0x100 + e % 0x100;
    assert q == r * 0x100 + q % 0x100;
    assert r == (r / 0x100) * 0x100 + r % 0x100;
    assert e / 0x1_0000 == r;
    assert e / 0x100_0000 == r / 0x100;
  }

  lemma {:induction false} EncodeSubsamplesAt(subs: seq<SubSample>, i: nat)
    requires forall k :: 0 <= k < |subs| ==> 0 <= subs[k].clearBytes < 0x1_0000 && 0 <= subs[k].encryptedBytes < U32Modulus
    requires i < |subs|
    ensures SubSampleAt(EncodeSubsamples(subs), i * RecordSize) == subs[i]
    decreases |subs|
  {
    var b := EncodeSubsamples(subs);
    var head := EncodeOne(subs[0]);
    assert b == head + EncodeSubsamples(subs[1..]);
    if i == 0 {
      EncodeOneRoundTrip(subs[0]);
      assert b[..RecordSize] == head;
    } else {
      EncodeSubsamplesAt(subs[1..], i - 1);
      var o := (i - 1) * RecordSize;
      assert i * RecordSize == RecordSize + o;
      assert b[RecordSize..] == EncodeSubsamples(subs[1..]);
    }
  }

  /** Reading the records back at their proper offsets gives the subsamples written. */
  lemma DecodeEncodeRoundTrip(subs: seq<SubSample>)
    requires forall i :: 0 <= i < |subs| ==> 0 <= subs[i].clearBytes < 0x1_0000 && 0 <= subs[i].encryptedBytes < U32Modulus
    ensures DecodeSubsamples(EncodeSubsamples(subs), |subs|) == subs
  {
    var d := DecodeSubsamples(EncodeSubsamples(subs), |subs|);
    assert |d| == |subs|;
    forall i | 0 <= i < |subs|
      ensures d[i] == subs[i]
    {
      EncodeSubsamplesAt(subs, i);
    }
    assert d == subs;
  }

  // ---------------------------------------------------------------------------
  // The media segment
  // ---------------------------------------------------------------------------

  /** The part of a segment that depends on the stream type. */
  datatype MediaKind =
    | Audio(sampleRate: int, numberOfChannels: int)
    | Video(width: int, height: int, frameRate: Fraction, secureToken: seq<byte>)

  /** The frame-rate parts of a video segment whose caps give none (firebolt::rialto::kUndefinedSize). */
  const UndefinedSize: int := 0

  /** The encryption part of a segment, read as one value. */
  datatype EncryptionView = EncryptionView(
    encrypted: bool,
    mediaKeySessionId: int,
    keyId: seq<byte>,
    initVector: seq<byte>,
    initWithLast15: uint32,
    cipherMode: nat,
    encryptionPattern: Option<(uint32, uint32)>,
    subsamples: seq<SubSample>)

  /** The encryption part of a new segment. */
  const NoProtection: EncryptionView := EncryptionView(false, 0, [], [], 0, 0, None, [])

  /** What a segment's encryption part becomes once the protection metadata is applied:
      nothing changes for a clear buffer; for an encrypted one every field is copied,
      the pattern only when the metadata has one, and the subsamples are appended in order. */
  function ApplyProtection(v: EncryptionView, md: ProtectionMetadata): (w: EncryptionView)
    ensures !md.encrypted ==> w == v
    ensures md.encrypted ==>
              && w.encrypted && w.mediaKeySessionId == md.mediaKeySessionId
              && w.keyId == md.kid && w.initVector == md.iv && w.initWithLast15 == md.initWithLast15
              && w.cipherMode == md.cipherMode
    ensures md.encrypted ==> w.encryptionPattern == (if md.encryptionPatternSet then Some((md.cryptBlocks, md.skipBlocks)) else v.encryptionPattern)
    ensures md.encrypted ==>
              && |w.subsamples| == |v.subsamples| + |md.subsamples|
              && w.subsamples[..|v.subsamples|] == v.subsamples && w.subsamples[|v.subsamples|..] == md.subsamples
  {
    if md.encrypted then
      EncryptionView(true, md.mediaKeySessionId, md.kid, md.iv, md.initWithLast15, md.cipherMode,
                     if md.encryptionPatternSet then Some((md.cryptBlocks, md.skipBlocks)) else v.encryptionPattern,
                     v.subsamples + md.subsamples)
    else
      v
  }

  /** IMediaPipeline::MediaSegment and its audio and video forms. The initial values of the
      fields the parser does not set are an assumption of this model: not encrypted, empty. */
  class MediaSegment {
    var streamId: int
    var timeStamp: int
    var duration: int
    var kind: MediaKind
    var data: seq<byte>
    var encrypted: bool
    var mediaKeySessionId: int
    var keyId: seq<byte>
    var initVector: seq<byte>
    var initWithLast15: uint32
    var cipherMode: nat
    var encryptionPattern: Option<(uint32, uint32)>
    var subsamples: seq<SubSample>
    var codecData: Option<CodecData>

    constructor (streamId: int, timeStamp: int, duration: int, kind: MediaKind)
      ensures this.streamId == streamId && this.timeStamp == timeStamp && this.duration == duration
      ensures this.kind == kind && data == [] && codecData == None
      ensures Protection() == NoProtection
    {
      this.streamId := streamId;
      this.timeStamp := timeStamp;
      this.duration := duration;
      this.kind := kind;
      data := [];
      encrypted := false;
      mediaKeySessionId := 0;
      keyId := [];
      initVector := [];
      initWithLast15 := 0;
      cipherMode := 0;
      encryptionPattern := None;
      subsamples := [];
      codecData := None;
    }

    function Protection(): EncryptionView
      reads this
    {
      EncryptionView(encrypted, mediaKeySessionId, keyId, initVector, initWithLast15, cipherMode,
                     encryptionPattern, subsamples)
    }

    /** The fields outside the encryption part. */
    function Media(): (int, int, int, MediaKind, seq<byte>, Option<CodecData>)
      reads this
    {
      (streamId, timeStamp, duration, kind, data, codecData)
    }

    method AddSubSample(clearBytes: int, encryptedBytes: int)
      modifies this`subsamples
      ensures subsamples == old(subsamples) + [SubSample(clearBytes, encryptedBytes)]
    {
      subsamples := subsamples + [SubSample(clearBytes, encryptedBytes)];
    }
  }

  // ---------------------------------------------------------------------------
  // BufferParser
  // ---------------------------------------------------------------------------

  /** The loop of addProtectionMetadataToSegment that adds the subsamples one by one, in order. */
  method AddSubSamples(segment: MediaSegment, subs: seq<SubSample>)
    modifies segment`subsamples
    ensures segment.subsamples == old(segment.subsamples) + subs
  {
    var subSampleCount := |subs|;
    for subSampleIdx := 0 to subSampleCount
      invariant segment.subsamples == old(segment.subsamples) + subs[..subSampleIdx]
    {
      segment.AddSubSample(subs[subSampleIdx].clearBytes, subs[subSampleIdx].encryptedBytes);
      assert subs[..subSampleIdx + 1] == subs[..subSampleIdx] + [subs[subSampleIdx]];
    }
    assert subs[..subSampleCount] == subs;
  }

  /** addProtectionMetadataToSegment, with ProcessProtectionMetadata's result given as metadata. */
  method AddProtectionMetadataToSegment(segment: MediaSegment, metadata: ProtectionMetadata, mapSize: nat, mediaType: string)
    modifies segment`encrypted, segment`mediaKeySessionId, segment`keyId, segment`initVector
    modifies segment`initWithLast15, segment`cipherMode, segment`encryptionPattern, segment`subsamples
    ensures segment.Protection()
            == ApplyProtection(old(segment.Protection()), WithFullSampleSubsample(EncryptionFormatOf(mediaType), metadata, mapSize))
    ensures segment.Media() == old(segment.Media())
  {
    var encryptionFormat := EncryptionFormatOf(mediaType);
    var md := metadata;
    if encryptionFormat == Webm || encryptionFormat == Cenc {
      if md.encrypted && |md.subsamples| == 0 {
        md := md.(subsamples := md.subsamples + [SubSample(0, mapSize % U32Modulus)]);
      }
    }
    assert md == WithFullSampleSubsample(encryptionFormat, metadata, mapSize);
    if md.encrypted {
      segment.encrypted := true;
      segment.mediaKeySessionId := md.mediaKeySessionId;
      segment.keyId := md.kid;
      segment.initVector := md.iv;
      segment.initWithLast15 := md.initWithLast15;
      segment.cipherMode := md.cipherMode;
      if md.encryptionPatternSet {
        segment.encryptionPattern := Some((md.cryptBlocks, md.skipBlocks));
      }
      AddSubSamples(segment, md.subsamples);
    }
  }

  /** addCodecDataToSegment: the segment's codec data is set when the structure yields some. */
  method AddCodecDataToSegment(segment: MediaSegment, structure: Structure)
    modifies segment`codecData
    ensures segment.codecData == if CodecDataOf(structure.codecData).Some? then CodecDataOf(structure.codecData) else old(segment.codecData)
  {
    match structure.codecData {
      case None =>
      case Some(value) =>
        match value {
          case BufferValue(mapped) =>
            if mapped.Some? {
              segment.codecData := Some(CodecData(mapped.value, BufferType));
            }
          case StringValue(chars) =>
            if chars.Some? {
              segment.codecData := Some(CodecData(CStringBytes(chars.value), StringType));
            }
          case OtherValue =>
        }
    }
  }

  /** AudioBufferParser::parseSpecificPartOfBuffer. */
  method ParseAudioSpecificPart(streamId: int, structure: Structure, timeStamp: int, duration: int)
    returns (segment: MediaSegment)
    ensures fresh(segment)
    ensures segment.Media() == (streamId, timeStamp, duration,
                                Audio(GetOr(structure.rate, 0), GetOr(structure.channels, 0)), [], None)
    ensures segment.Protection() == NoProtection
  {
    var sampleRate := 0;
    var numberOfChannels := 0;
    if structure.rate.Some? {
      sampleRate := structure.rate.value;
    }
    if structure.channels.Some? {
      numberOfChannels := structure.channels.value;
    }
    segment := new MediaSegment(streamId, timeStamp, duration, Audio(sampleRate, numberOfChannels));
  }

  function SubsampleCount(meta: Option<ProtectionInfo>): uint32
  {
    if meta.Some? then GetOr(meta.value.subsampleCount, 0) else 0
  }

  function SubsampleBlob(meta: Option<ProtectionInfo>): Option<FieldValue>
  {
    if meta.Some? then meta.value.subsamples else None
  }

  /** The subsamples the video parser adds, as the loop is written: nothing unless the blob
      is accepted, and then count subsamples, each read from the first record. */
  function VideoSubsamplesAsWritten(count: uint32, blob: Option<FieldValue>): seq<SubSample>
  {
    if SubsamplesAccepted(count, blob) then seq(count, _ requires SubsamplesAccepted(count, blob) => SubSampleAt(blob.value.mapped.value, 0))
    else []
  }

  /** As written, an accepted blob yields count subsamples that all equal its first record,
      whatever the later records hold; a rejected blob yields none. */
  lemma AsWrittenReadsFirstRecordOnly(count: uint32, blob: Option<FieldValue>)
    ensures var subs := VideoSubsamplesAsWritten(count, blob);
            && (SubsamplesAccepted(count, blob) ==>
                  |subs| == count && forall i :: 0 <= i < count ==> subs[i] == SubSampleAt(blob.value.mapped.value, 0))
            && (!SubsamplesAccepted(count, blob) ==> subs == [])
  {
  }

  /** The subsample loop of the video parser, as written: the read offset starts at 0 and is
      never advanced. */
  method AddVideoSubsamples(segment: MediaSegment, subSampleCount: uint32, blob: Option<FieldValue>)
    modifies segment`subsamples
    ensures segment.subsamples == old(segment.subsamples) + VideoSubsamplesAsWritten(subSampleCount, blob)
  {
    if subSampleCount != 0 && blob.Some? && blob.value.BufferValue? && blob.value.mapped.Some?
       && |blob.value.mapped.value| / RecordSize == subSampleCount {
      var subSamples := blob.value.mapped.value;
      var subSampleOffset := 0;
      for subSampleIdx := 0 to subSampleCount
        invariant segment.subsamples == old(segment.subsamples)
                  + seq(subSampleIdx, _ => SubSampleAt(subSamples, 0))
      {
        var bytesOfClearData := subSamples[subSampleOffset] as int * 0x100 + subSamples[subSampleOffset + 1] as int;
        var bytesOfEncryptedData := subSamples[subSampleOffset + 2] as int * 0x100_0000
                                    + subSamples[subSampleOffset + 3] as int * 0x1_0000
                                    + subSamples[subSampleOffset + 4] as int * 0x100
                                    + subSamples[subSampleOffset + 5] as int;
        segment.AddSubSample(bytesOfClearData, bytesOfEncryptedData);
        assert seq(subSampleIdx + 1, _ => SubSampleAt(subSamples, 0))
               == seq(subSampleIdx, _ => SubSampleAt(subSamples, 0)) + [SubSampleAt(subSamples, 0)];
      }
      assert seq(subSampleCount, _ => SubSampleAt(subSamples, 0)) == VideoSubsamplesAsWritten(subSampleCount, blob);
    }
  }

  /** With the offset never advanced, two records that differ still decode to two equal
      subsamples: (1, 2) twice, where the records hold (1, 2) and (3, 4). */
  lemma SubsampleOffsetNotAdvanced()
    ensures var blob: seq<byte> := [0, 1, 0, 0, 0, 2, 0, 3, 0, 0, 0, 4];
            && VideoSubsamplesAsWritten(2, Some(BufferValue(Some(blob)))) == [SubSample(1, 2), SubSample(1, 2)]
            && DecodeSubsamples(blob, 2) == [SubSample(1, 2), SubSample(3, 4)]
  {
    var blob: seq<byte> := [0, 1, 0, 0, 0, 2, 0, 3, 0, 0, 0, 4];
    assert SubSampleAt(blob, 0) == SubSample(1, 2);
    assert SubSampleAt(blob, 6) == SubSample(3, 4);
    assert SubsamplesAccepted(2, Some(BufferValue(Some(blob))));
    assert VideoSubsamplesAsWritten(2, Some(BufferValue(Some(blob)))) == [SubSample(1, 2), SubSample(1, 2)];
  }

  /** The video fields: width and height default to 0, the frame rate to UndefinedSize / UndefinedSize,
      and the secure token is only there when the buffer has a protection meta. */
  function VideoKind(structure: Structure, meta: Option<ProtectionInfo>, svpToken: seq<byte>): MediaKind
  {
    Video(GetOr(structure.width, 0), GetOr(structure.height, 0),
          GetOr(structure.framerate, Fraction(UndefinedSize, UndefinedSize)),
          if meta.Some? then svpToken else [])
  }

  /** VideoBufferParser::parseSpecificPartOfBuffer. meta is the buffer's protection meta, if
      any; svpToken stands for the secure token bytes built from it. metaRemoved says whether
      the meta is removed from the buffer afterwards. */
  method ParseVideoSpecificPart(streamId: int, structure: Structure, timeStamp: int, duration: int,
                                meta: Option<ProtectionInfo>, svpToken: seq<byte>)
    returns (segment: MediaSegment, metaRemoved: bool)
    ensures fresh(segment)
    ensures segment.Media() == (streamId, timeStamp, duration, VideoKind(structure, meta, svpToken), [], None)
    ensures metaRemoved == (SubsampleCount(meta) != 0)
    ensures segment.Protection() == NoProtection.(subsamples := VideoSubsamplesAsWritten(SubsampleCount(meta), SubsampleBlob(meta)))
  {
    var subSampleCount: uint32 := 0;
    var secureToken: seq<byte> := [];
    if meta.Some? {
      secureToken := svpToken;
      if meta.value.subsampleCount.Some? {
        subSampleCount := meta.value.subsampleCount.value;
      }
    }
    var width := 0;
    var height := 0;
    var frameRate := Fraction(UndefinedSize, UndefinedSize);
    if structure.width.Some? {
      width := structure.width.value;
    }
    if structure.height.Some? {
      height := structure.height.value;
    }
    if structure.framerate.Some? {
      frameRate := structure.framerate.value;
    }
    segment := new MediaSegment(streamId, timeStamp, duration, Video(width, height, frameRate, secureToken));
    metaRemoved := false;
    if subSampleCount != 0 {
      AddVideoSubsamples(segment, subSampleCount, SubsampleBlob(meta));
      metaRemoved := true;
    }
  }

  /** The two parsers. */
  datatype StreamKind = AudioStream | VideoStream

  /** GST_BUFFER_PTS and GST_BUFFER_DURATION are unsigned 64-bit; the parser casts them to int64_t. */
  function AsInt64(u: nat): (i: int)
    requires u < 0x1_0000_0000_0000_0000
    ensures -0x8000_0000_0000_0000 <= i < 0x8000_0000_0000_0000
    ensures i % 0x1_0000_0000_0000_0000 == u
  {
    if u < 0x8000_0000_0000_0000 then u else u - 0x1_0000_0000_0000_0000
  }

  /** GST_CLOCK_TIME_NONE, the all-ones time, becomes -1 in the segment. */
  lemma ClockTimeNoneIsMinusOne()
    ensures AsInt64(0xFFFF_FFFF_FFFF_FFFF) == -1
  {
  }

  /** parseBuffer: the stream-specific part, then the data, then the codec data, then the
      protection metadata. The caps structure's name is read into a std::string, so it must
      not be null. */
  method ParseBuffer(stream: StreamKind, streamId: int, structure: Structure, pts: nat, dur: nat,
                     mapData: seq<byte>, meta: Option<ProtectionInfo>, svpToken: seq<byte>,
                     metadata: ProtectionMetadata)
    returns (segment: MediaSegment, metaRemoved: bool)
    requires structure.name.Some?
    requires pts < 0x1_0000_0000_0000_0000 && dur < 0x1_0000_0000_0000_0000
    ensures fresh(segment)
    ensures segment.timeStamp == AsInt64(pts) && segment.duration == AsInt64(dur) && segment.streamId == streamId
    ensures segment.data == mapData
    ensures segment.codecData == CodecDataOf(structure.codecData)
    ensures stream == AudioStream ==>
              segment.kind == Audio(GetOr(structure.rate, 0), GetOr(structure.channels, 0)) && !metaRemoved
    ensures stream == VideoStream ==>
              segment.kind == VideoKind(structure, meta, svpToken) && metaRemoved == (SubsampleCount(meta) != 0)
    ensures var specific := if stream == VideoStream then VideoSubsamplesAsWritten(SubsampleCount(meta), SubsampleBlob(meta)) else [];
            segment.Protection()
            == ApplyProtection(NoProtection.(subsamples := specific),
                               WithFullSampleSubsample(EncryptionFormatOf(structure.name.value), metadata, |mapData|))
  {
    var timeStamp := AsInt64(pts);
    var duration := AsInt64(dur);
    if stream == AudioStream {
      segment := ParseAudioSpecificPart(streamId, structure, timeStamp, duration);
      metaRemoved := false;
    } else {
      segment, metaRemoved := ParseVideoSpecificPart(streamId, structure, timeStamp, duration, meta, svpToken);
    }
    segment.data := mapData;
    AddCodecDataToSegment(segment, structure);
    AddProtectionMetadataToSegment(segment, metadata, |mapData|, structure.name.value);
  }
}
