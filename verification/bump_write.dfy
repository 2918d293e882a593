/** The program: the file-writing helpers and main, which fills the sample
    buffer with ten consecutive bumps, then writes the WAV header and the frame
    data to ./bump.wav. */
module BumpWrite {
  import opened LittleEndian
  import opened Options
  import opened WavHeader
  import opened PcmData
  import opened BumpSynth

  /** main's local settings: bump frequency, the two channel amplitudes, the
      decay rate and the total frame count (duration times SAMPLE_RATE). */
  datatype Config = Config(
    frequency: real,
    ampLeft: real,
    ampRight: real,
    decayRate: real,
    frameCount: int32)

  const SHRT_MAX := 32767
  const BUMPS := 10

  /** The values main uses: 64.5 Hz, full-scale amplitude on both channels,
      a decay constant of 680 frames, one second at SAMPLE_RATE. */
  const BUMP_CONFIG := Config(64.5, SHRT_MAX as real, SHRT_MAX as real, 680.0, 44100)

  /** A frame count main can run with: non-negative, and small enough for the
      header's size computation. */
  predicate ValidConfig(cfg: Config) {
    cfg.frameCount >= 0 && SizeFits(cfg.frameCount)
  }

  /** What the program cannot see and the model takes as given: whether fopen
      and malloc succeed, what the freshly allocated buffer holds (malloc does
      not initialise it), and how many items each of the two fwrite calls gets
      written before the stream gives up. */
  datatype Env = Env(
    fileOpens: bool,
    bufferAllocates: bool,
    garbage: nat -> Frame,
    headerItems: nat,
    dataItems: nat)

  function Min(a: nat, b: nat): nat {
    if a <= b then a else b
  }

  lemma MulMonotone(a: nat, b: nat, n: nat)
    requires a <= b
    ensures a * n <= b * n
  {
  }

  /** fwrite of count items of size bytes each, on a stream that accepts at most
      `accepted` items: the number of items written, and the bytes the file
      grows by (the written items, in order). */
  function FWrite(data: seq<byte>, size: nat, count: nat, accepted: nat): (r: (nat, seq<byte>))
    requires |data| == size * count
    ensures r.0 <= count && r.0 <= accepted && (r.0 == count || r.0 == accepted)
    ensures |r.1| == size * r.0 && r.1 == data[..size * r.0]
  {
    var n := Min(count, accepted);
    MulMonotone(n, count, size);
    (n, data[..size * n])
  }

  /** write_PCM16_stereo_header: writes the 44-byte header as one item and
      returns 0, or -1 when that one item was not written; the file grows by the
      header bytes exactly when the call succeeds. */
  function WriteHeader(sampleRate: int32, frameCount: int32, accepted: nat): (r: (int, seq<byte>))
    requires SizeFits(frameCount)
    ensures r.0 == 0 <==> accepted >= 1
    ensures r.0 != 0 ==> r.0 == -1 && r.1 == []
    ensures r.0 == 0 ==> r.1 == EncodeHeader(MakeHeader(sampleRate, frameCount))
  {
    var (count, bytes) := FWrite(EncodeHeader(MakeHeader(sampleRate, frameCount)), HEADER_SIZE, 1, accepted);
    (if 1 != count then -1 else 0, bytes)
  }

  /** write_PCM16wav_data: writes the buffer as FrameCount items of 4 bytes and
      returns how many frames were written; the file grows by exactly the bytes
      of those leading frames. */
  function WriteData(buffer: seq<Frame>, frameCount: int32, accepted: nat): (r: (nat, seq<byte>))
    requires frameCount >= 0 && |buffer| == frameCount as int
    ensures r.0 == Min(frameCount as nat, accepted)
    ensures r.1 == FramesBytes(buffer[..r.0])
  {
    var written := FWrite(FramesBytes(buffer), FRAME_SIZE, frameCount as nat, accepted);
    FramesBytesPrefix(buffer, written.0);
    written
  }

  /** The frames each of the ten calls writes: cfg.frameCount / 10. */
  function SegmentLength(cfg: Config): (n: int32)
    requires cfg.frameCount >= 0
    ensures 0 <= n as int && BUMPS * n as int <= cfg.frameCount as int
    ensures cfg.frameCount as int - BUMPS * n as int < BUMPS
  {
    cfg.frameCount / BUMPS as int32
  }

  /** The amplitudes of call k: silence, both channels in phase, each polarity
      combination, each channel alone with both signs, and silence again. */
  function SegmentBump(cfg: Config, k: nat): (b: Bump)
    ensures b.frequency == cfg.frequency && b.decayRate == cfg.decayRate
    ensures b.sampleRate as int == SAMPLE_RATE
    ensures ViolatesNyquist(b) <==> ConfigViolatesNyquist(cfg)
  {
    var (l, r) :=
      match k
      case 0 => (0.0, 0.0)
      case 1 => (cfg.ampLeft, cfg.ampRight)
      case 2 => (-cfg.ampLeft, cfg.ampRight)
      case 3 => (cfg.ampLeft, -cfg.ampRight)
      case 4 => (-cfg.ampLeft, -cfg.ampRight)
      case 5 => (cfg.ampLeft, 0.0)
      case 6 => (-cfg.ampLeft, 0.0)
      case 7 => (0.0, cfg.ampRight)
      case 8 => (0.0, -cfg.ampRight)
      case _ => (0.0, 0.0);
    Bump(cfg.frequency, l, r, cfg.decayRate, SAMPLE_RATE as int32)
  }

  /** The Nyquist verdict is the same for all ten calls: only the frequency and
      the sample rate enter it, and neither varies between calls. */
  predicate ConfigViolatesNyquist(cfg: Config) {
    cfg.frequency * 2.0 >= SAMPLE_RATE as real
  }

  /** The buffer as malloc hands it over: frameCount unspecified frames. */
  function Initial(env: Env, frameCount: nat): (s: seq<Frame>)
    ensures |s| == frameCount
  {
    seq(frameCount, i requires 0 <= i < frameCount => env.garbage(i))
  }

  /** The buffer after the first k calls of main, starting from init. Call k
      writes at offset k * n, n being the segment length, and leaves the buffer
      alone if the frequency is refused. */
  function AfterCalls(cfg: Config, kernel: Kernel, init: seq<Frame>, k: nat): (s: seq<Frame>)
    requires cfg.frameCount >= 0
    ensures |s| == |init|
  {
    if k == 0 then init
    else
      var prev := AfterCalls(cfg, kernel, init, k - 1);
      var b := SegmentBump(cfg, k - 1);
      if ViolatesNyquist(b) then prev
      else Filled(prev, (k - 1) * SegmentLength(cfg) as nat, SegmentLength(cfg) as nat, kernel, b)
  }

  /** The buffer once all ten calls are done. */
  function Song(cfg: Config, kernel: Kernel, env: Env): (s: seq<Frame>)
    requires cfg.frameCount >= 0
    ensures |s| == cfg.frameCount as int
  {
    AfterCalls(cfg, kernel, Initial(env, cfg.frameCount as nat), BUMPS)
  }

  /** main returns 0 exactly when the file opens, the buffer is allocated, the
      frequency passes the Nyquist check, the header is written and every frame
      is written. */
  predicate Succeeds(cfg: Config, env: Env) {
    env.fileOpens && env.bufferAllocates && !ConfigViolatesNyquist(cfg) &&
    env.headerItems >= 1 && env.dataItems >= cfg.frameCount as int
  }

  /** The bytes the header and data writes leave in the file: nothing if the
      header item was not written, otherwise the header followed by the bytes of
      the frames that fwrite managed to write. */
  function WavBytes(frameCount: int32, frames: seq<Frame>, headerItems: nat, dataItems: nat): seq<byte>
    requires frameCount >= 0 && SizeFits(frameCount) && |frames| == frameCount as int
  {
    if headerItems == 0 then []
    else
      EncodeHeader(MakeHeader(SAMPLE_RATE as int32, frameCount))
      + FramesBytes(frames[..Min(frameCount as nat, dataItems)])
  }

  /** What ./bump.wav holds when main returns, given that fopen succeeded:
      nothing if allocation or synthesis failed, otherwise what the two writes
      put there. */
  function FileBytes(cfg: Config, kernel: Kernel, env: Env): seq<byte>
    requires ValidConfig(cfg)
  {
    if !env.bufferAllocates || ConfigViolatesNyquist(cfg) then []
    else WavBytes(cfg.frameCount, Song(cfg, kernel, env), env.headerItems, env.dataItems)
  }

  /** One call of main's ten: the buffer goes from AfterCalls(k) to AfterCalls(k+1). */
  method Segment(cfg: Config, kernel: Kernel, buffer: array<Frame>, offset: nat, k: nat,
                 ghost init: seq<Frame>) returns (ret: int)
    requires ValidConfig(cfg) && k < BUMPS && |init| == buffer.Length == cfg.frameCount as int
    requires offset == k * SegmentLength(cfg) as int
    requires buffer[..] == AfterCalls(cfg, kernel, init, k)
    modifies buffer
    ensures buffer[..] == AfterCalls(cfg, kernel, init, k + 1)
    ensures ret == (if ConfigViolatesNyquist(cfg) then -1 else 0)
  {
    var n := SegmentLength(cfg);
    assert offset + n as int <= (k + 1) * n as int <= BUMPS * n as int;
    ret := GenerateBump(kernel, SegmentBump(cfg, k), n, buffer, offset);
  }

  /** main's ten calls of the synthesiser, the cursor advancing by the segment
      length after each. Only the last call's return value survives: every call
      overwrites the previous one. */
  method FillBuffer(cfg: Config, kernel: Kernel, buffer: array<Frame>, ghost init: seq<Frame>)
      returns (ret: int)
    requires ValidConfig(cfg) && |init| == buffer.Length == cfg.frameCount as int
    requires buffer[..] == init
    modifies buffer
    ensures buffer[..] == AfterCalls(cfg, kernel, init, BUMPS)
    ensures ret == (if ConfigViolatesNyquist(cfg) then -1 else 0)
  {
    var n := SegmentLength(cfg) as nat;
    var offset: nat := 0;
    ret := Segment(cfg, kernel, buffer, offset, 0, init);
    offset := offset + n;
    ret := Segment(cfg, kernel, buffer, offset, 1, init);
    offset := offset + n;
    ret := Segment(cfg, kernel, buffer, offset, 2, init);
    offset := offset + n;
    ret := Segment(cfg, kernel, buffer, offset, 3, init);
    offset := offset + n;
    ret := Segment(cfg, kernel, buffer, offset, 4, init);
    offset := offset + n;
    ret := Segment(cfg, kernel, buffer, offset, 5, init);
    offset := offset + n;
    ret := Segment(cfg, kernel, buffer, offset, 6, init);
    offset := offset + n;
    ret := Segment(cfg, kernel, buffer, offset, 7, init);
    offset := offset + n;
    ret := Segment(cfg, kernel, buffer, offset, 8, init);
    offset := offset + n;
    ret := Segment(cfg, kernel, buffer, offset, 9, init);
  }

  /** The tail of main: write the header, then the frame data, failing with -1
      on the first write that falls short. */
  method WriteWav(frameCount: int32, frames: seq<Frame>, headerItems: nat, dataItems: nat)
      returns (ret: int, out: seq<byte>)
    requires frameCount >= 0 && SizeFits(frameCount) && |frames| == frameCount as int
    ensures ret == 0 <==> headerItems >= 1 && dataItems >= frameCount as int
    ensures ret != 0 ==> ret == -1
    ensures out == WavBytes(frameCount, frames, headerItems, dataItems)
  {
    var header := WriteHeader(SAMPLE_RATE as int32, frameCount, headerItems);
    ret, out := header.0, header.1;
    if ret < 0 {
      assert headerItems == 0 && out == [];
      return -1, out;
    }
    assert headerItems >= 1;
    var data := WriteData(frames, frameCount, dataItems);
    out := out + data.1;
    assert out == WavBytes(frameCount, frames, headerItems, dataItems);
    if data.0 < frameCount as nat {
      return -1, out;
    }
  }

  /** main, with its configuration and its environment as parameters. The
      return value is that of the last synthesiser call, then of the two
      writes; the file is None when fopen failed. */
  method Run(cfg: Config, kernel: Kernel, env: Env) returns (ret: int, file: Option<seq<byte>>)
    requires ValidConfig(cfg)
    ensures ret == 0 <==> Succeeds(cfg, env)
    ensures ret != 0 ==> ret == -1
    ensures !env.fileOpens ==> file == None
    ensures env.fileOpens ==> file == Some(FileBytes(cfg, kernel, env))
  {
    if !env.fileOpens {
      return -1, None;
    }
    if !env.bufferAllocates {
      return -1, Some([]);
    }
    var garbage := env.garbage;
    var buffer := new Frame[cfg.frameCount as int](i => garbage(i));
    assert forall i :: 0 <= i < buffer.Length ==> buffer[i] == garbage(i);
    assert buffer[..] == Initial(env, cfg.frameCount as nat);

    ret := FillBuffer(cfg, kernel, buffer, buffer[..]);
    if ret < 0 {
      return -1, Some([]);
    }
    var out;
    ret, out := WriteWav(cfg.frameCount, buffer[..], env.headerItems, env.dataItems);
    file := Some(out);
  }

  /** The program's entry point: main with its fixed settings. */
  method ProgramMain(kernel: Kernel, env: Env) returns (ret: int, file: Option<seq<byte>>)
    ensures ret == 0 <==>
      env.fileOpens && env.bufferAllocates && env.headerItems >= 1 && env.dataItems >= 44100
    ensures ret != 0 ==> ret == -1
    ensures file.Some? <==> env.fileOpens
    ensures ret == 0 ==>
      (|file.value| == 176444 && file.value[0..4] == RIFF &&
       file.value[4..8] == [0x34, 0xB1, 0x02, 0x00] && file.value[8..12] == WAVE)
  {
    ret, file := Run(BUMP_CONFIG, kernel, env);
    if ret == 0 {
      OneSecondFile(kernel, env);
    }
  }

  /** A standalone fact about the cursor ranges [s*n, (s+1)*n) that main's
      ten calls write: they are pairwise disjoint, since an index s*n + i with
      i < n determines both s and i. SegmentFrame uses the same reasoning on
      the buffer itself. */
  lemma SegmentsDisjoint(n: nat, s1: nat, i1: nat, s2: nat, i2: nat)
    requires i1 < n && i2 < n && s1 * n + i1 == s2 * n + i2
    ensures s1 == s2 && i1 == i2
  {
    if s1 < s2 {
      MulMonotone(s1 + 1, s2, n);
    } else if s2 < s1 {
      MulMonotone(s2 + 1, s1, n);
    }
  }

  /** After k calls, frame i of segment s < k holds frame i of bump s; if the
      frequency is refused, nothing was written. */
  lemma {:induction false} SegmentFrame(cfg: Config, kernel: Kernel, init: seq<Frame>, k: nat, s: nat, i: nat)
    requires cfg.frameCount >= 0 && k <= BUMPS && |init| == cfg.frameCount as int
    requires s < k && i < SegmentLength(cfg) as int
    ensures var n := SegmentLength(cfg) as int;
      s * n + i < |init| &&
      AfterCalls(cfg, kernel, init, k)[s * n + i] ==
        if ConfigViolatesNyquist(cfg) then init[s * n + i] else kernel(SegmentBump(cfg, s), i)
  {
    var n := SegmentLength(cfg) as int;
    var j := s * n + i;
    MulMonotone(s + 1, BUMPS, n);
    assert (s + 1) * n == s * n + n;
    var prev := AfterCalls(cfg, kernel, init, k - 1);
    var b := SegmentBump(cfg, k - 1);
    if s < k - 1 {
      SegmentFrame(cfg, kernel, init, k - 1, s, i);
      MulMonotone(s + 1, k - 1, n);
      assert j < (k - 1) * n;
    } else {
      UntouchedFrame(cfg, kernel, init, k - 1, j);
      assert j - (k - 1) * n == i;
    }
  }

  /** After k calls, every frame at or beyond k*n is as it was. */
  lemma {:induction false} UntouchedFrame(cfg: Config, kernel: Kernel, init: seq<Frame>, k: nat, j: nat)
    requires cfg.frameCount >= 0 && |init| == cfg.frameCount as int
    requires k * SegmentLength(cfg) as int <= j < |init|
    ensures AfterCalls(cfg, kernel, init, k)[j] == init[j]
  {
    if k > 0 {
      MulMonotone(k - 1, k, SegmentLength(cfg) as int);
      UntouchedFrame(cfg, kernel, init, k - 1, j);
    }
  }

  /** The frames past 10 * (frameCount / 10) are never written: they keep
      whatever malloc left in them, and there are frameCount % 10 of them. */
  lemma SongTail(cfg: Config, kernel: Kernel, env: Env, j: nat)
    requires cfg.frameCount >= 0 && BUMPS * SegmentLength(cfg) as int <= j < cfg.frameCount as int
    ensures Song(cfg, kernel, env)[j] == env.garbage(j)
    ensures cfg.frameCount as int - BUMPS * SegmentLength(cfg) as int == cfg.frameCount as int % BUMPS
  {
    UntouchedFrame(cfg, kernel, Initial(env, cfg.frameCount as nat), BUMPS, j);
  }

  /** The synthesiser scales by the amplitude, so a zero amplitude gives a
      silent channel: sin and exp are finite, and 0.0 times a finite double
      truncates to 0. */
  ghost predicate MutesOnZeroAmplitude(kernel: Kernel) {
    forall b: Bump, i: nat ::
      (b.ampLeft == 0.0 ==> kernel(b, i).left == 0) &&
      (b.ampRight == 0.0 ==> kernel(b, i).right == 0)
  }

  /** The first and last segments are silent in both channels, and each
      single-channel segment is silent in the other channel. */
  lemma SilentSegments(cfg: Config, kernel: Kernel, env: Env, s: nat, i: nat)
    requires cfg.frameCount >= 0 && !ConfigViolatesNyquist(cfg) && MutesOnZeroAmplitude(kernel)
    requires s < BUMPS && i < SegmentLength(cfg) as int
    ensures var n := SegmentLength(cfg) as int;
      s * n + i < cfg.frameCount as int &&
      (s == 0 || s == 9 ==> Song(cfg, kernel, env)[s * n + i] == Frame(0, 0)) &&
      (s == 5 || s == 6 ==> Song(cfg, kernel, env)[s * n + i].right == 0) &&
      (s == 7 || s == 8 ==> Song(cfg, kernel, env)[s * n + i].left == 0)
  {
    SegmentFrame(cfg, kernel, Initial(env, cfg.frameCount as nat), BUMPS, s, i);
    var b := SegmentBump(cfg, s);
    assert s == 0 || s == 9 ==> b.ampLeft == 0.0 && b.ampRight == 0.0;
  }

  /** With the program's settings the ten segments of 4410 frames tile the
      44100-frame buffer exactly: no frame is left as malloc returned it, so
      the buffer does not depend on the allocation's initial contents. */
  lemma OneSecondSongTiles(kernel: Kernel, env1: Env, env2: Env)
    ensures Song(BUMP_CONFIG, kernel, env1) == Song(BUMP_CONFIG, kernel, env2)
  {
    var cfg := BUMP_CONFIG;
    assert SegmentLength(cfg) == 4410;
    var song1, song2 := Song(cfg, kernel, env1), Song(cfg, kernel, env2);
    forall j | 0 <= j < 44100
      ensures song1[j] == song2[j]
    {
      var s, i := j / 4410, j % 4410;
      assert j == s * 4410 + i;
      SegmentFrame(cfg, kernel, Initial(env1, 44100), BUMPS, s, i);
      SegmentFrame(cfg, kernel, Initial(env2, 44100), BUMPS, s, i);
    }
  }

  /** When main succeeds, a reader finds the header for SAMPLE_RATE and the
      frame count, followed by every frame of the buffer, in order, and nothing
      else: 44 + 4 * frameCount bytes. */
  lemma SuccessfulFile(cfg: Config, kernel: Kernel, env: Env)
    requires ValidConfig(cfg) && Succeeds(cfg, env)
    ensures var bytes := FileBytes(cfg, kernel, env);
      |bytes| == HEADER_SIZE + FRAME_SIZE * cfg.frameCount as int &&
      DecodeHeader(bytes[..HEADER_SIZE]) == Some(MakeHeader(SAMPLE_RATE as int32, cfg.frameCount)) &&
      DecodeFrames(bytes[HEADER_SIZE..]) == Song(cfg, kernel, env)
  {
    var song := Song(cfg, kernel, env);
    var h := MakeHeader(SAMPLE_RATE as int32, cfg.frameCount);
    assert song[..cfg.frameCount as int] == song;
    var bytes := FileBytes(cfg, kernel, env);
    assert bytes == EncodeHeader(h) + FramesBytes(song);
    assert bytes[..HEADER_SIZE] == EncodeHeader(h);
    assert bytes[HEADER_SIZE..] == FramesBytes(song);
    DecodeEncodeHeader(h);
    DecodeFramesBytes(song);
  }

  /** With the program's settings a successful run leaves a 176444-byte file
      that starts "RIFF", 176436 (little-endian), "WAVE". */
  lemma OneSecondFile(kernel: Kernel, env: Env)
    requires Succeeds(BUMP_CONFIG, env)
    ensures ValidConfig(BUMP_CONFIG)
    ensures var bytes := FileBytes(BUMP_CONFIG, kernel, env);
      |bytes| == 176444 && bytes[0..4] == RIFF &&
      bytes[4..8] == [0x34, 0xB1, 0x02, 0x00] && bytes[8..12] == WAVE
  {
    var song := Song(BUMP_CONFIG, kernel, env);
    assert song[..44100] == song;
    var bytes := FileBytes(BUMP_CONFIG, kernel, env);
    var hb := EncodeHeader(MakeHeader(44100, 44100));
    assert bytes == hb + FramesBytes(song);
    assert bytes[0..12] == hb[0..12];
    OneSecondHeaderBytes();
  }
}
