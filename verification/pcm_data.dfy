/** Stereo PCM frames and their layout in the data chunk: each frame is the left
    sample then the right sample, each a little-endian 16-bit integer. */
module PcmData {
  import opened LittleEndian

  /** One sample instant across both channels (PCM16_stereo_t). */
  datatype Frame = Frame(left: int16, right: int16)

  const FRAME_SIZE := 4

  function FrameBytes(f: Frame): (bs: seq<byte>)
    ensures |bs| == FRAME_SIZE
  {
    EncodeInt16(f.left) + EncodeInt16(f.right)
  }

  /** The bytes of a run of frames, in buffer order with no gaps. */
  function FramesBytes(fs: seq<Frame>): (bs: seq<byte>)
    ensures |bs| == FRAME_SIZE * |fs|
  {
    if fs == [] then [] else FrameBytes(fs[0]) + FramesBytes(fs[1..])
  }

  function DecodeFrame(bs: seq<byte>): Frame
    requires |bs| == FRAME_SIZE
  {
    Frame(DecodeInt16(bs[0..2]), DecodeInt16(bs[2..4]))
  }

  /** Reads a data chunk back as frames; a trailing partial frame is ignored. */
  function DecodeFrames(bs: seq<byte>): (fs: seq<Frame>)
    ensures |fs| == |bs| / FRAME_SIZE
  {
    if |bs| < FRAME_SIZE then [] else [DecodeFrame(bs[..FRAME_SIZE])] + DecodeFrames(bs[FRAME_SIZE..])
  }

  /** Frame k occupies bytes 4k..4k+4: left sample in the first two, right in the last two. */
  lemma {:induction false} FramesBytesAt(fs: seq<Frame>, k: nat)
    requires k < |fs|
    ensures FramesBytes(fs)[FRAME_SIZE * k..FRAME_SIZE * k + 2] == EncodeInt16(fs[k].left)
    ensures FramesBytes(fs)[FRAME_SIZE * k + 2..FRAME_SIZE * k + 4] == EncodeInt16(fs[k].right)
  {
    if k > 0 {
      FramesBytesAt(fs[1..], k - 1);
      assert FramesBytes(fs) == FrameBytes(fs[0]) + FramesBytes(fs[1..]);
    }
  }

  /** Writing only the first m frames produces the first 4m bytes of the full data. */
  lemma {:induction false} FramesBytesPrefix(fs: seq<Frame>, m: nat)
    requires m <= |fs|
    ensures FramesBytes(fs[..m]) == FramesBytes(fs)[..FRAME_SIZE * m]
  {
    if m > 0 {
      FramesBytesPrefix(fs[1..], m - 1);
      assert fs[..m][1..] == fs[1..][..m - 1];
    }
  }

  lemma {:induction false} DecodeFramesBytes(fs: seq<Frame>)
    ensures DecodeFrames(FramesBytes(fs)) == fs
  {
    if fs != [] {
      var bs := FramesBytes(fs);
      DecodeFramesBytes(fs[1..]);
      assert bs[..FRAME_SIZE] == FrameBytes(fs[0]);
      assert bs[FRAME_SIZE..] == FramesBytes(fs[1..]);
      DecodeFrameBytes(fs[0]);
    }
  }

  lemma DecodeFrameBytes(f: Frame)
    ensures DecodeFrame(FrameBytes(f)) == f
  {
    var bs := FrameBytes(f);
    assert bs[0..2] == EncodeInt16(f.left) && bs[2..4] == EncodeInt16(f.right);
    DecodeEncodeInt16(f.left);
    DecodeEncodeInt16(f.right);
  }

  lemma {:induction false} FramesBytesOfDecode(bs: seq<byte>)
    requires |bs| % FRAME_SIZE == 0
    ensures FramesBytes(DecodeFrames(bs)) == bs
  {
    if |bs| >= FRAME_SIZE {
      var head := bs[..FRAME_SIZE];
      FramesBytesOfDecode(bs[FRAME_SIZE..]);
      EncodeDecodeInt16(head[0..2]);
      EncodeDecodeInt16(head[2..4]);
      assert head == head[0..2] + head[2..4];
      assert bs == head + bs[FRAME_SIZE..];
    }
  }
}
