# bumpwrite in Dafny

`bumpwrite` writes `./bump.wav`. The file is a one-second, 44100 Hz, 2-channel, 16-bit PCM test signal for amplifier testing. The program fills an in-memory buffer of stereo frames with ten consecutive decaying-sinusoid "bumps", one per polarity combination: silence, (+,+), (−,+), (+,−), (−,−), (+,0), (−,0), (0,+), (0,−), silence. It then writes the canonical 44-byte RIFF/WAVE header and the frames behind it.

This project models that program:

- `LittleEndian` (`little_endian.dfy`) defines the `int16` and `int32` types and their two's-complement little-endian byte encoding. It proves that encoding and decoding are inverse in both directions.
- `WavHeader` (`wav_header.dfy`) is `write_PCM16_stereo_header`:
  - `MakeHeader` computes the fields from `(SampleRate, FrameCount)`. The size fields are derived from the frame count. `ByteRate` and `BlockAlign` come from the `SAMPLE_RATE` macro.
  - `EncodeHeader` serialises the fields one by one, in the struct's order, as little-endian bytes.
  - `DecodeHeader` is the reader's inverse.
- `PcmData` (`pcm_data.dfy`) is the frame layout of `write_PCM16wav_data`: left sample, then right sample, 2 bytes each, in buffer order. It also has the inverse decoder.
- `BumpSynth` (`bump_synth.dfy`) is `generate_bump`. It is a method over an `array<Frame>` with the source's loop. The Nyquist guard is modelled exactly. The floating-point sample values are a parameter, `Kernel`.
- `BumpWrite` (`bump_write.dfy`) is `main`:
  - it makes ten synthesiser calls, and a `FrameOffset` cursor advances by `FrameCount/10` after each;
  - `fopen`, `malloc` and the two `fwrite` calls are outcomes taken from an `Env` value;
  - the file is the byte sequence that the writes append.

  `Run` takes main's local settings as a `Config`. `BUMP_CONFIG` holds the program's values (64.5 Hz, amplitude 32767, decay 680, 44100 frames), and `ProgramMain` runs with them.

Points where the program's behaviour is easy to misread:
- `main` does not stop after a failing synthesiser call. It makes all ten calls, each overwriting `ret`, and only the tenth result reaches the check at bumpwrite.c:296. All ten calls share the frequency and the sample rate, so their Nyquist verdicts agree: `SegmentBump` states this, and `FillBuffer` returns that verdict.
- Converting an out-of-range double with `(int16_t)` is undefined behaviour in C; the model does not say what happens.
- The size computation `FrameCount * NUM_CHANNELS * BITS_PER_SAMPLE / 8` multiplies in 32-bit signed arithmetic before it divides. `MakeHeader` therefore requires `FrameCount * 32` to fit in `int32_t` (`SizeFits`), although the stored `FrameCount * 4` would fit for larger counts. C's truncating division is written out as `CDiv`.

## Model

| member | source | states |
|---|---|---|
| `LittleEndian.DecodeEncodeInt16` | bumpwrite.c:30-35 | decoding the 2 little-endian bytes of any int16 field gives the value back |
| `LittleEndian.EncodeDecodeInt16` | bumpwrite.c:30-35 | every 2-byte string is the encoding of the int16 it decodes to |
| `LittleEndian.DecodeEncodeInt32` | bumpwrite.c:25-38 | decoding the 4 little-endian bytes of any int32 field (negative ones included) gives the value back |
| `LittleEndian.EncodeDecodeInt32` | bumpwrite.c:25-38 | every 4-byte string is the encoding of the int32 it decodes to |
| `LittleEndian.ValueOfUnsignedLE` | bumpwrite.c:22-39 | the k-byte little-endian encoding of u < 256^k denotes u |
| `LittleEndian.UnsignedLEOfValue` | bumpwrite.c:22-39 | re-encoding the value of a byte string gives the same string |
| `WavHeader.MakeHeader` | bumpwrite.c:53-97 | Subchunk2Size = 4·FrameCount; ChunkSize = 36 + Subchunk2Size; tags RIFF/WAVE/fmt /data; Subchunk1Size 16, AudioFormat 1, NumChannels 2, BitsPerSample 16; SampleRate is the argument; ByteRate 176400 and BlockAlign 4 |
| `WavHeader.EncodeHeader` | bumpwrite.c:22-39 | the header is exactly 44 bytes with "RIFF" at 0..3, "WAVE" at 8..11, "fmt " at 12..15 and "data" at 36..39 |
| `WavHeader.DecodeHeader` | bumpwrite.c:22-39 | a header is read from exactly 44 bytes and from no other length |
| `WavHeader.EncodeHeaderFields` | bumpwrite.c:22-39 | each numeric field sits at its offset in struct order (4, 16, 20, 22, 24, 28, 32, 34, 40), little-endian |
| `WavHeader.DecodeEncodeHeader` | bumpwrite.c:68-97 | decoding the encoded header recovers every field written |
| `WavHeader.EncodeDecodeHeader` | bumpwrite.c:22-39 | every 44-byte string re-encodes to itself: the layout has no padding |
| `WavHeader.MadeHeaderDecodes` | bumpwrite.c:65-97 | a reader of the written header sees the sample rate, 2 channels, 16 bits, ByteRate 176400, BlockAlign 4, data size 4·FrameCount and chunk size 36 + 4·FrameCount |
| `WavHeader.RatesIgnoreSampleRate` | bumpwrite.c:85-91 | headers for two different SampleRate arguments differ only in the SampleRate field, because ByteRate and BlockAlign follow the macro |
| `WavHeader.OneSecondHeaderBytes` | bumpwrite.c:65-97 | for 44100 Hz and 44100 frames the header starts "RIFF", 34 B1 02 00 (176436), "WAVE" and ends with data size 10 B1 02 00 (176400) |
| `PcmData.FrameBytes` | bumpwrite.c:109-113 | a frame is 4 bytes |
| `PcmData.FramesBytes` | bumpwrite.c:122-133 | n frames are exactly 4·n bytes |
| `PcmData.DecodeFrames` | bumpwrite.c:109-113 | a data chunk of b bytes reads back as b/4 frames |
| `PcmData.FramesBytesAt` | bumpwrite.c:109-113 | frame k occupies bytes 4k..4k+3, the left sample first and then the right, each little-endian |
| `PcmData.FramesBytesPrefix` | bumpwrite.c:128-130 | writing the first m frames yields the first 4·m bytes of the full data |
| `PcmData.DecodeFramesBytes` | bumpwrite.c:122-133 | reading the written data back recovers every frame in buffer order |
| `PcmData.FramesBytesOfDecode` | bumpwrite.c:109-113 | every byte string of whole frames is the layout of the frames it decodes to |
| `BumpSynth.GenerateBump` | bumpwrite.c:188-218 | if 2·frequency ≥ SampleRate it returns -1 and the buffer is unchanged; otherwise it returns 0, frame off+i becomes frame i of the bump for every i < FrameCount, and every other frame is unchanged |
| `BumpWrite.WriteHeader` | bumpwrite.c:99-105 | returns 0 exactly when the one header item is written, and the file then grows by the 44 encoded header bytes; otherwise it returns -1 and the file does not grow |
| `BumpWrite.WriteData` | bumpwrite.c:122-133 | returns min(FrameCount, items accepted), and the file grows by the bytes of exactly those leading frames |
| `BumpWrite.SegmentLength` | bumpwrite.c:259-288 | each call writes FrameCount/10 frames; the ten together cover all but FrameCount − 10·(FrameCount/10) < 10 frames |
| `BumpWrite.SegmentBump` | bumpwrite.c:260-288 | every call uses the configured frequency, decay rate and SAMPLE_RATE, so each call's Nyquist verdict is the configuration's |
| `BumpWrite.Segment` | bumpwrite.c:260-262 | call k takes the buffer from its state after k calls to its state after k+1 and returns that call's guard verdict |
| `BumpWrite.FillBuffer` | bumpwrite.c:258-288 | the ten calls, with the cursor advancing by FrameCount/10, leave the buffer as the ten segments describe; the surviving return value is -1 exactly when the frequency violates the Nyquist limit |
| `BumpWrite.WriteWav` | bumpwrite.c:303-323 | returns 0 exactly when the header item and all FrameCount frames are written, and -1 otherwise; the file holds nothing, or the header followed by the written frames |
| `BumpWrite.Run` | bumpwrite.c:222-332 | main returns 0 exactly when fopen, malloc, the Nyquist check, the header write and the full data write all succeed, and -1 otherwise; without fopen there is no file, otherwise the file holds the bytes FileBytes describes |
| `BumpWrite.ProgramMain` | bumpwrite.c:227-233 | with the program's settings main succeeds exactly when the environment lets it, and then the file is 176444 bytes long and starts "RIFF", 176436, "WAVE" |
| `BumpWrite.SegmentsDisjoint` | bumpwrite.c:258-288 | the ten ranges [k·n, (k+1)·n) are pairwise disjoint |
| `BumpWrite.SegmentFrame` | bumpwrite.c:258-288 | after k calls, frame s·n+i (s < k, i < n) holds frame i of bump s, or its initial value if the frequency was refused |
| `BumpWrite.UntouchedFrame` | bumpwrite.c:258-288 | after k calls, every frame at or beyond k·n still holds its initial value |
| `BumpWrite.SongTail` | bumpwrite.c:233-288 | the FrameCount mod 10 frames past the tenth segment are never written and keep what malloc left there |
| `BumpWrite.SilentSegments` | bumpwrite.c:260-288 | for a synthesiser that gives 0 at amplitude 0.0, segments 1 and 10 are silent in both channels, segments 6 and 7 in the right channel, and segments 8 and 9 in the left |
| `BumpWrite.OneSecondSongTiles` | bumpwrite.c:227-288 | with 44100 frames the ten segments of 4410 frames tile the buffer, so its final contents do not depend on what malloc returned |
| `BumpWrite.SuccessfulFile` | bumpwrite.c:303-323 | after a successful run the file is 44 + 4·FrameCount bytes: a header that decodes to the one written, then data that decodes to the whole buffer in order |
| `BumpWrite.OneSecondFile` | bumpwrite.c:304-323 | with the program's settings a successful run leaves 176444 bytes starting "RIFF", 34 B1 02 00, "WAVE" |

## Left out

- The sample values. `sin(phase) * exp(-i / decay_rate)`, the phase accumulator and the conversion to `int16_t` (bumpwrite.c:205-213) are floating-point computations. They are behind the `Kernel` parameter, and the model states nothing about the waveform, its envelope or its decay.
- `BumpWrite.SilentSegments` assumes, as its precondition `MutesOnZeroAmplitude`, that a zero amplitude gives a zero sample. Nothing in the model proves this about the floating-point code.
- The result of converting an out-of-range double to `int16_t`. This is undefined behaviour in C, so no wrap-around is modelled.
- NaN and infinite frequencies. The frequency is modelled as a real, so the Nyquist guard cannot meet a NaN.
- `generate_dual_sawtooth` (bumpwrite.c:136-185). It is floating-point code, and it is never called because its only call is commented out.
- File and memory primitives. Only the outcomes of `fopen`, `malloc` and the two `fwrite` calls are inputs in `Env`; the file is the byte sequence those writes append. `fclose` is assumed to flush everything the writes accepted: `main` ignores its result (bumpwrite.c:329), so a failed flush that shortens the file while `main` returns 0 is not modelled. `free`, `perror` and `fprintf` have no effect on the file and are not modelled, nor are the error messages.
- `BumpWrite.WriteData` assumes a short `fwrite` stops at an item boundary. A partially written last frame is not modelled. The same holds for the single header item in `BumpWrite.WriteHeader`.
- The in-memory layout of `wavfile_header_t`: host byte order and struct padding. The model fixes an explicit little-endian, field-by-field layout of 44 bytes.
- The conversion `duration * SAMPLE_RATE` from double to `int32_t`. `Config.frameCount` is the resulting integer, and it is required to be non-negative.
