/** The canonical 44-byte RIFF/WAVE header of a 2-channel, 16-bit PCM stream,
    built from a sample rate and a frame count, and its field-by-field
    little-endian layout. */
module WavHeader {
  import opened LittleEndian
  import opened Options

  /** A four-character chunk identifier, as raw bytes. */
  type Tag = s: seq<byte> | |s| == 4 witness [0, 0, 0, 0]

  /** The header record: one field per member of wavfile_header_t, in file order. */
  datatype Header = Header(
    chunkId: Tag,
    chunkSize: int32,
    format: Tag,
    subchunk1Id: Tag,
    subchunk1Size: int32,
    audioFormat: int16,
    numChannels: int16,
    sampleRate: int32,
    byteRate: int32,
    blockAlign: int16,
    bitsPerSample: int16,
    subchunk2Id: Tag,
    subchunk2Size: int32)

  const HEADER_SIZE := 44

  /** Standard values for CD-quality audio. */
  const SUBCHUNK1SIZE := 16
  const AUDIO_FORMAT := 1 // PCM
  const NUM_CHANNELS := 2
  const SAMPLE_RATE := 44100
  const BITS_PER_SAMPLE := 16
  /** Both are derived from the SAMPLE_RATE constant, not from a caller's rate. */
  const BYTE_RATE := SAMPLE_RATE * NUM_CHANNELS * BITS_PER_SAMPLE / 8
  const BLOCK_ALIGN := NUM_CHANNELS * BITS_PER_SAMPLE / 8

  const RIFF: Tag := [0x52, 0x49, 0x46, 0x46] // "RIFF"
  const WAVE: Tag := [0x57, 0x41, 0x56, 0x45] // "WAVE"
  const FMT: Tag := [0x66, 0x6d, 0x74, 0x20]  // "fmt "
  const DATA: Tag := [0x64, 0x61, 0x74, 0x61] // "data"

  /** C's `/` on int truncates toward zero (only positive divisors occur here). */
  function CDiv(a: int, b: int): int
    requires b > 0
  {
    if a >= 0 then a / b else -((-a) / b)
  }

  /** The size computation multiplies FrameCount by NUM_CHANNELS and then by
      BITS_PER_SAMPLE in 32-bit signed arithmetic before dividing by 8; the
      intermediate product must not overflow. */
  predicate SizeFits(frameCount: int32) {
    -0x8000_0000 <= frameCount as int * NUM_CHANNELS * BITS_PER_SAMPLE < 0x8000_0000
  }

  /** The header write_PCM16_stereo_header fills in. */
  function MakeHeader(sampleRate: int32, frameCount: int32): (h: Header)
    requires SizeFits(frameCount)
    ensures h.subchunk2Size as int == frameCount as int * 4
    ensures h.chunkSize as int == 36 + h.subchunk2Size as int
    ensures h.chunkId == RIFF && h.format == WAVE
    ensures h.subchunk1Id == FMT && h.subchunk2Id == DATA
    ensures h.subchunk1Size == 16 && h.audioFormat == 1
    ensures h.numChannels == 2 && h.bitsPerSample == 16
    ensures h.sampleRate == sampleRate
    ensures h.byteRate == 176400 && h.blockAlign == 4
  {
    var subchunk2Size := CDiv(frameCount as int * NUM_CHANNELS * BITS_PER_SAMPLE, 8);
    var chunkSize := 4 + (8 + SUBCHUNK1SIZE) + (8 + subchunk2Size);
    Header(
      RIFF, chunkSize as int32, WAVE,
      FMT, SUBCHUNK1SIZE as int32, AUDIO_FORMAT as int16, NUM_CHANNELS as int16,
      sampleRate, BYTE_RATE as int32, BLOCK_ALIGN as int16, BITS_PER_SAMPLE as int16,
      DATA, subchunk2Size as int32)
  }

  /** The 44 header bytes, serialised field by field in declaration order:
      the RIFF chunk descriptor, the "fmt " subchunk, the "data" subchunk header. */
  function EncodeHeader(h: Header): (bs: seq<byte>)
    ensures |bs| == HEADER_SIZE
    ensures bs[0..4] == h.chunkId && bs[8..12] == h.format
    ensures bs[12..16] == h.subchunk1Id && bs[36..40] == h.subchunk2Id
  {
    RiffBytes(h) + FmtBytes(h) + DataBytes(h)
  }

  function RiffBytes(h: Header): (bs: seq<byte>)
    ensures |bs| == 12
  {
    h.chunkId + EncodeInt32(h.chunkSize) + h.format
  }

  function FmtBytes(h: Header): (bs: seq<byte>)
    ensures |bs| == 24
  {
    h.subchunk1Id + EncodeInt32(h.subchunk1Size)
    + EncodeInt16(h.audioFormat) + EncodeInt16(h.numChannels)
    + EncodeInt32(h.sampleRate) + EncodeInt32(h.byteRate)
    + EncodeInt16(h.blockAlign) + EncodeInt16(h.bitsPerSample)
  }

  function DataBytes(h: Header): (bs: seq<byte>)
    ensures |bs| == 8
  {
    h.subchunk2Id + EncodeInt32(h.subchunk2Size)
  }

  /** Reads the fields back from exactly 44 bytes, as a WAV reader would. */
  function DecodeHeader(bs: seq<byte>): (r: Option<Header>)
    ensures r.Some? <==> |bs| == HEADER_SIZE
  {
    if |bs| != HEADER_SIZE then None
    else Some(Header(
      bs[0..4], DecodeInt32(bs[4..8]), bs[8..12],
      bs[12..16], DecodeInt32(bs[16..20]),
      DecodeInt16(bs[20..22]), DecodeInt16(bs[22..24]),
      DecodeInt32(bs[24..28]), DecodeInt32(bs[28..32]),
      DecodeInt16(bs[32..34]), DecodeInt16(bs[34..36]),
      bs[36..40], DecodeInt32(bs[40..44])))
  }

  /** Where each numeric field sits in the encoded header. */
  lemma EncodeHeaderFields(h: Header)
    ensures var bs := EncodeHeader(h);
      bs[4..8] == EncodeInt32(h.chunkSize) &&
      bs[16..20] == EncodeInt32(h.subchunk1Size) &&
      bs[20..22] == EncodeInt16(h.audioFormat) &&
      bs[22..24] == EncodeInt16(h.numChannels) &&
      bs[24..28] == EncodeInt32(h.sampleRate) &&
      bs[28..32] == EncodeInt32(h.byteRate) &&
      bs[32..34] == EncodeInt16(h.blockAlign) &&
      bs[34..36] == EncodeInt16(h.bitsPerSample) &&
      bs[40..44] == EncodeInt32(h.subchunk2Size)
  {
  }

  /** Decoding an encoded header recovers every field that was written. */
  lemma DecodeEncodeHeader(h: Header)
    ensures DecodeHeader(EncodeHeader(h)) == Some(h)
  {
    EncodeHeaderFields(h);
    DecodeEncodeInt32(h.chunkSize);
    DecodeEncodeInt32(h.subchunk1Size);
    DecodeEncodeInt16(h.audioFormat);
    DecodeEncodeInt16(h.numChannels);
    DecodeEncodeInt32(h.sampleRate);
    DecodeEncodeInt32(h.byteRate);
    DecodeEncodeInt16(h.blockAlign);
    DecodeEncodeInt16(h.bitsPerSample);
    DecodeEncodeInt32(h.subchunk2Size);
  }

  /** Every 44-byte string is the encoding of the header it decodes to: the
      layout has no padding and no unused bits. */
  lemma EncodeDecodeHeader(bs: seq<byte>)
    requires |bs| == HEADER_SIZE
    ensures DecodeHeader(bs).Some? && EncodeHeader(DecodeHeader(bs).value) == bs
  {
    var h := DecodeHeader(bs).value;
    RiffOfDecode(bs);
    FmtOfDecode(bs);
    DataOfDecode(bs);
    assert bs == bs[0..12] + bs[12..36] + bs[36..44];
  }

  lemma RiffOfDecode(bs: seq<byte>)
    requires |bs| == HEADER_SIZE
    ensures RiffBytes(DecodeHeader(bs).value) == bs[0..12]
  {
    EncodeDecodeInt32(bs[4..8]);
    assert bs[0..12] == bs[0..4] + bs[4..8] + bs[8..12];
  }

  lemma FmtOfDecode(bs: seq<byte>)
    requires |bs| == HEADER_SIZE
    ensures FmtBytes(DecodeHeader(bs).value) == bs[12..36]
  {
    EncodeDecodeInt32(bs[16..20]);
    EncodeDecodeInt16(bs[20..22]);
    EncodeDecodeInt16(bs[22..24]);
    EncodeDecodeInt32(bs[24..28]);
    EncodeDecodeInt32(bs[28..32]);
    EncodeDecodeInt16(bs[32..34]);
    EncodeDecodeInt16(bs[34..36]);
    assert bs[12..36] == bs[12..16] + bs[16..20] + bs[20..22] + bs[22..24]
      + bs[24..28] + bs[28..32] + bs[32..34] + bs[34..36];
  }

  lemma DataOfDecode(bs: seq<byte>)
    requires |bs| == HEADER_SIZE
    ensures DataBytes(DecodeHeader(bs).value) == bs[36..44]
  {
    EncodeDecodeInt32(bs[40..44]);
    assert bs[36..44] == bs[36..40] + bs[40..44];
  }

  /** A reader decoding the header written for (sampleRate, frameCount) sees a
      2-channel 16-bit PCM stream whose size fields agree with the frame count. */
  lemma MadeHeaderDecodes(sampleRate: int32, frameCount: int32)
    requires SizeFits(frameCount)
    ensures var r := DecodeHeader(EncodeHeader(MakeHeader(sampleRate, frameCount)));
      r.Some? && r.value.sampleRate == sampleRate &&
      r.value.subchunk2Size as int == 4 * frameCount as int &&
      r.value.chunkSize as int == 36 + 4 * frameCount as int &&
      r.value.numChannels == 2 && r.value.bitsPerSample == 16 &&
      r.value.byteRate == 176400 && r.value.blockAlign == 4
  {
    DecodeEncodeHeader(MakeHeader(sampleRate, frameCount));
  }

  /** ByteRate and BlockAlign follow the SAMPLE_RATE constant: two headers built
      for the same frame count differ only in the SampleRate field. */
  lemma RatesIgnoreSampleRate(rate1: int32, rate2: int32, frameCount: int32)
    requires SizeFits(frameCount)
    ensures MakeHeader(rate1, frameCount).(sampleRate := rate2) == MakeHeader(rate2, frameCount)
  {
  }

  /** The header of the one-second, 44100 Hz file: a ChunkSize of 176436 stored
      as the bytes 34 B1 02 00, and a data size of 176400. */
  lemma OneSecondHeaderBytes()
    ensures var bs := EncodeHeader(MakeHeader(44100, 44100));
      bs[0..4] == RIFF && bs[4..8] == [0x34, 0xB1, 0x02, 0x00] && bs[8..12] == WAVE &&
      bs[40..44] == [0x10, 0xB1, 0x02, 0x00]
  {
    var h := MakeHeader(44100, 44100);
    EncodeHeaderFields(h);
    assert h.chunkSize == 176436 && h.subchunk2Size == 176400;
    SizeBytes();
  }

  lemma SizeBytes()
    ensures EncodeInt32(176436) == [0x34, 0xB1, 0x02, 0x00]
    ensures EncodeInt32(176400) == [0x10, 0xB1, 0x02, 0x00]
  {
    LowByte(0x00, 0, 0);
    LowByte(0x02, 0, 1);
    assert UnsignedLE(2, 2) == [0x02, 0x00];
    LowByte(0xB1, 2, 2);
    assert UnsignedLE(689, 3) == [0xB1, 0x02, 0x00];
    LowByte(0x34, 689, 3);
    LowByte(0x10, 689, 3);
    assert UnsignedLE(176436, 4) == [0x34, 0xB1, 0x02, 0x00];
    assert UnsignedLE(176400, 4) == [0x10, 0xB1, 0x02, 0x00];
  }

  /** One step of the little-endian encoding: the low byte, then the rest. */
  lemma LowByte(b: byte, rest: nat, k: nat)
    ensures UnsignedLE(b as int + 256 * rest, k + 1) == [b] + UnsignedLE(rest, k)
  {
    var u := b as int + 256 * rest;
    assert u % 256 == b as int && u / 256 == rest;
  }
}
