/** The bump synthesiser: fills a run of frames of the sample buffer, in place,
    with one exponentially decaying sinusoid, after checking the Nyquist limit. */
module BumpSynth {
  import opened LittleEndian
  import opened PcmData

  /** What generate_bump receives besides the frame count and the destination.
      The double-precision arguments are modelled as reals. */
  datatype Bump = Bump(
    frequency: real,
    ampLeft: real,
    ampRight: real,
    decayRate: real,
    sampleRate: int32)

  /** The floating-point part of the synthesiser: frame i of a bump, that is
      sin(phase_i) * exp(-i / decayRate) scaled by each channel's amplitude and
      converted to int16. The model takes it as a parameter and assumes nothing
      about it beyond being a function of the bump and the frame index. */
  type Kernel = (Bump, nat) -> Frame

  /** The guard: a frequency at or above half the sample rate is refused.
      Doubling a double and widening an int32 to double are both exact, so the
      comparison over reals is the comparison the C code makes. */
  predicate ViolatesNyquist(b: Bump) {
    b.frequency * 2.0 >= b.sampleRate as real
  }

  /** How many frames a call with this FrameCount writes: the loop runs while
      i < FrameCount, so a non-positive count writes nothing. */
  function WrittenCount(frameCount: int32): (n: nat)
    ensures frameCount <= 0 ==> n == 0
    ensures frameCount > 0 ==> n == frameCount as nat
  {
    if frameCount < 0 then 0 else frameCount as nat
  }

  /** The buffer s after frames offset .. offset+count-1 are overwritten by the
      first count frames of bump b, every other frame left as it was. */
  function Filled(s: seq<Frame>, offset: nat, count: nat, kernel: Kernel, b: Bump): (r: seq<Frame>)
    ensures |r| == |s|
  {
    seq(|s|, j requires 0 <= j < |s| =>
      if offset <= j < offset + count then kernel(b, j - offset) else s[j])
  }

  /** generate_bump, with the destination given as a buffer and a frame offset.
      Returns -1 and leaves the buffer untouched when the frequency violates the
      Nyquist limit; otherwise returns 0 having written exactly the frames
      offset .. offset+FrameCount-1. */
  method GenerateBump(kernel: Kernel, b: Bump, frameCount: int32, buffer: array<Frame>, offset: nat)
      returns (ret: int)
    requires !ViolatesNyquist(b) ==> offset + WrittenCount(frameCount) <= buffer.Length
    modifies buffer
    ensures ViolatesNyquist(b) ==> ret == -1 && buffer[..] == old(buffer[..])
    ensures !ViolatesNyquist(b) ==>
      ret == 0 && buffer[..] == Filled(old(buffer[..]), offset, WrittenCount(frameCount), kernel, b)
  {
    ret := 0;
    if ViolatesNyquist(b) {
      ret := -1;
      return;
    }
    var i: int := 0;
    while i < frameCount as int
      invariant 0 <= i <= WrittenCount(frameCount)
      invariant forall j :: 0 <= j < buffer.Length ==>
        buffer[j] == if offset <= j < offset + i then kernel(b, j - offset) else old(buffer[j])
    {
      buffer[offset + i] := kernel(b, i);
      i := i + 1;
    }
    assert buffer[..] == Filled(old(buffer[..]), offset, WrittenCount(frameCount), kernel, b);
  }
}
