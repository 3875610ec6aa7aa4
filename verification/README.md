# SSTV encoder, modelled in Dafny

This project models the encoder in `main.c`, which turns two images into
one slow-scan television transmission. The first image is a 320 x 256 colour
"cover". The second is a 16 x 16 grayscale "flag", overlaid on cover rows
44 to 59. The result is a mono 16-bit PCM WAV file at 96 kHz.

The transmission is a sequence of audio symbols: silences, fixed tones and
linear frequency sweeps. It runs, in order:

- a silence;
- the VOX leader;
- the VIS mode header;
- the image data;
- the EOF trailer;
- a second silence.

The image data covers each of the 256 cover rows, and within each row each of
the colour channels R, G and B. Each (row, channel) pair becomes one segment,
made of:

- a 1200 Hz horizontal sync;
- a 1500 Hz porch;
- 319 sweeps, one between each pair of neighbouring pixels;
- a second porch;
- in the flag rows, one flag row: a 2300 Hz pad, one tone per flag pixel and
  a second pad.

The synthesizer renders the symbols one after the other with one running
oscillator phase. The saver writes a 44-byte RIFF/WAVE header followed by
the samples.

The modules follow the program's parts:

- `Protocol` (protocol.dfy): the fixed constants.
- `Symbols` (symbols.dfy): the audio symbols and their sample counts.
- `Synth` (synth.dfy): `generate_wav`.
- `Headers` (headers.dfy): the VOX, VIS and EOF generators.
- `FlagRow` (flagrow.dfy): `convert_flag_row_to_symbols`.
- `Frame` (frame.dfy): `generate_image_data_symbols`.
- `WavFile` (wavfile.dfy): the bytes that `save_wav_file` writes.
- `Encoder` (encoder.dfy): `main`.

The C code fills arrays of symbol pointers step by step, so the model keeps
arrays and loops. Each method is proved against a function on sequences that
specifies it, for example `FramePrefix`, `RenderFrom`, `Synthesize` and
`WavFileBytes`. The properties of the transmission are then proved as lemmas
about those functions. In summary:

- The sizing loop reserves exactly the 248160 symbols a frame has.
- The guarded copy never overflows.
- Every cover read of a fitting image stays inside its buffer.
- The headers have their documented shapes and timings.
- In exact arithmetic, the whole transmission renders without clipping to
  11125824 samples (see "Left out" for the count that binary64 doubles give).
- The WAV header's fields read back to the sizes of the file.

A cover with two channels (gray plus alpha) is sent as gray for R and as
alpha for G and B. This follows from the channel clamp in `main.c` and is
stated by `Frame.ChannelIndexCases`.

Two details of the layout are fixed by `main.c` itself:

- The VIS header's short tones are the tone at index 1 and the last tone
  (`main.c:197`); every other VIS tone lasts 30 ms.
- The flag row of cover row y starts at byte `(y - 44) * width` of the
  one-channel flag buffer (`main.c:349`).

## Model

| member | source | states |
|---|---|---|
| Symbols.Trunc | main.c:88 | The `(long long)` and `(int)` casts of a duration times the rate truncate toward zero: the result is within 1 of the value, on the side of zero. |
| Symbols.SampleCount | main.c:116 | A symbol gets the nominal count `duration * rate` truncated: for a non-negative product, the largest whole number not above it; for a negative product, a count of at most 0; at rate 0, no samples. |
| Symbols.SampleCountNonNegative | main.c:116 | At a non-negative rate, symbols of non-negative duration have non-negative sample counts. |
| Synth.FmodTwoPi | main.c:136 | `fmod(x, 2π)` keeps the sign of x and lies strictly inside (-2π, 2π). |
| Synth.ToInt16 | main.c:138 | The `(int16_t)` cast of an in-range value is truncation toward zero. |
| Synth.ScaledSampleIsExact | main.c:138 | An amplitude and a sine value in [-1, 1] give a sample within ±32767, so the cast is exact truncation and never wraps. |
| Synth.SweepPhase | main.c:147-155 | After at least one step, the phase accumulated sample by sample in a sweep lies in (-2π, 2π). |
| Synth.RenderSymbol | main.c:127-166 | A symbol renders to exactly n samples. Silence is all zeros and keeps the running phase, as does any symbol given 0 samples. A tone or sweep that writes samples leaves the phase in (-2π, 2π). |
| Synth.Slot | main.c:116-124 | A clipped count never runs past the buffer end. The loop stops exactly when the buffer is full, the symbol wants more and it is not the last symbol. A non-negative count that fits is kept unchanged, a count that does not fit is cut to the space left, and a negative count becomes zero. |
| Synth.RenderFrom | main.c:114-168 | The rendered output from any symbol on never exceeds the space left in the buffer. |
| Synth.TotalSamples | main.c:85-90 | The sum of the per-symbol counts is 0 at rate 0, the case `generate_wav` refuses. |
| Synth.TotalSamplesNonNegative | main.c:85-90 | With no negative per-symbol count, the summed count is non-negative. |
| Synth.RenderFromWritesEverything | main.c:114-168 | When the buffer is sized to the sum and no count is negative, every symbol gets its full count: the output length is the sum. |
| Synth.Synthesize | main.c:84-172 | A buffer is produced if and only if the summed count is in (0, INT32_MAX]; then the rate is non-zero and the output holds at most that many samples. |
| Synth.SynthesizeLength | main.c:84-172 | A sum in (0, INT32_MAX] with no negative count yields a buffer holding exactly that many samples. |
| Synth.SumSampleCounts | main.c:85-90 | The summing loop computes the sum of the truncated per-symbol counts. |
| Synth.ClipCount | main.c:116-124 | The clipping code stops exactly when `Slot` says so, and otherwise yields `Slot`'s count: the space left when the symbol does not fit, zero for a negative count. |
| Synth.WriteSilence | main.c:128-132 | Zeros exactly the n samples at the cursor and changes nothing else. |
| Synth.WriteTone | main.c:133-144 | Writes the tone's n samples at the cursor, changes nothing else, and returns the phase after them. |
| Synth.WriteSweep | main.c:145-160 | Writes the sweep's n samples at the cursor, with the phase integrated step by step by the loop; changes nothing else and returns the final phase. |
| Synth.WriteSymbol | main.c:127-166 | The written prefix grows by exactly the symbol's samples, and the new phase is the symbol's. |
| Synth.WriteNext | main.c:114-167 | One loop pass either stops with nothing left to render, or advances while keeping "written prefix + rest of the render" unchanged. |
| Synth.FillBuffer | main.c:111-170 | The written prefix is the render of the whole sequence, and the returned length is within the buffer. |
| Synth.GenerateWav | main.c:84-172 | There is no buffer (and length 0) exactly when the sum is 0, above INT32_MAX or negative. Otherwise the buffer has the sum's length and its first `length` samples are the rendered signal. |
| Headers.VoxSignal | main.c:175-186 | One full-amplitude, zero-phase tone of 0.1 s per entry of the VOX frequency table, in table order. |
| Headers.GenerateVox | main.c:175-186 | The array is the VOX leader, tone by tone. |
| Headers.VoxShape | main.c:175-186 | Eight full-amplitude 0.1 s tones: 1500 Hz at odd indices, 1900 Hz then 2300 Hz at even ones; 0.8 s and 76800 samples. |
| Headers.VisSignal | main.c:188-203 | One full-amplitude, zero-phase tone per entry of the VIS frequency table, in table order, short at index 1 and at the last index and long elsewhere. |
| Headers.GenerateVis | main.c:188-203 | The array is the VIS header, tone by tone. |
| Headers.VisShape | main.c:188-203 | Fifteen full-amplitude tones. A tone lasts 10 ms if and only if it is at index 1 or 14; the others last 30 ms. |
| Headers.VisTiming | main.c:188-203 | The VIS header lasts 0.41 s and renders to 39360 samples. |
| Headers.EofSignal | main.c:205-216 | One full-amplitude, zero-phase tone of 0.1 s per entry of the EOF frequency table, in table order. |
| Headers.GenerateEof | main.c:205-216 | The array is the EOF trailer, tone by tone. |
| Headers.EofShape | main.c:205-216 | The trailer equals the first four tones of the leader; 0.4 s and 38400 samples. |
| FlagRow.FlagPixelFreq | main.c:244 | A flag pixel maps into [1550 Hz, 2250 Hz], black to the lower and white to the upper end. |
| FlagRow.FlagPixelFreqBounds | main.c:244 | Flag pixel 0 maps to 1550 Hz and 255 to 2250 Hz, every value lies in between, the map is strictly increasing in both directions, and the difference of two frequencies is the difference of the pixel values times 700/255 Hz. |
| FlagRow.FlagRowSymbols | main.c:224-250 | No symbols if and only if the pixel count is not positive; otherwise n + 2 symbols. |
| FlagRow.ConvertFlagRowToSymbols | main.c:218-259 | Returns no array and a count of 0 if and only if n ≤ 0. Otherwise a fresh array of `count` symbols equal to the flag row's symbols. |
| FlagRow.FlagRowShape | main.c:235-250 | 2300 Hz pads of 15 % of the slot at both ends, and one tone of 70 %/n of the slot per pixel at that pixel's frequency; the durations add up to the slot. |
| Frame.CoverPixelFreq | main.c:338-339 | A cover component maps into [1500 Hz, 2300 Hz], 0 to the lower and 255 to the upper end. |
| Frame.CoverPixelFreqBounds | main.c:338-339 | Cover value 0 maps to 1500 Hz and 255 to 2300 Hz, every value lies in between, the map is strictly increasing in both directions, and it is linear: the difference of two frequencies is the difference of the values times 800/255 Hz. |
| Frame.ChannelIndex | main.c:329-333 | The clamped channel is always one the image has. |
| Frame.ChannelIndexCases | main.c:329-333 | Three or more channels: R, G and B are read. One channel: it is read three times. Two channels: gray for R, the second (alpha) channel for G and B. |
| Frame.CoverOffset | main.c:326-336 | The byte read for pixel (x, y) and a scan channel is one of the `channels` bytes of that pixel in a row-major buffer. |
| Frame.CoverReadsInBounds | main.c:326-336 | For a cover that holds the fixed scan, every offset read lies inside its buffer. |
| Frame.FlagRowOf | main.c:348-349 | The flag row pointer has at least the 16 bytes the flag row reads. |
| Frame.SegmentLayout | main.c:319-369 | A segment is the 9 ms 1200 Hz sync, a half-pixel 1500 Hz porch, the 319 sweeps, the second porch, and in a flag row the flag segment. |
| Frame.SweepsJoin | main.c:335-340 | Each sweep ends at the frequency where the next begins. |
| Frame.Segment | main.c:319-369 | A segment has 322 symbols, or 340 in a flag row. |
| Frame.SegmentDuration | main.c:315-369 | A segment lasts the sync plus one scanline, plus the 46.4 ms flag slot in a flag row. |
| Frame.SegmentSamples | main.c:315-369 | In exact arithmetic, at 96 kHz a segment renders to 13983 samples, plus 4440 in a flag row, against nominal lengths of 14279.04 and 4454.4 sample periods. |
| Frame.CountMaxSymbols | main.c:294-305 | The sizing loop computes 248160. |
| Frame.FramePrefixLength | main.c:294-305 | After y rows and c channels, the frame has the sizing loop's count at that point. |
| Frame.ImageSymbols | main.c:317-371 | A whole frame has exactly the 248160 symbols the sizing loop of lines 294-305 reserves. |
| Frame.FramePrefixWithinBound | main.c:356-364 | Every segment ends within the reserved capacity, so the index guard of the flag copy never fires. |
| Frame.FramePrefixSamples | main.c:317-371 | In exact arithmetic, after y rows and c channels, the frame renders to 41949 samples per row, plus 13320 per flag row, plus the samples of the c segments. |
| Frame.FramePrefixNonNegative | main.c:317-371 | No symbol of a frame has a negative duration. |
| Frame.ImageSymbolsSamples | main.c:317-371 | In exact arithmetic, a frame renders to 10952064 samples. |
| Frame.ReadSweep | main.c:326-341 | The pixel loop body yields the sweep between the two clamped-channel values of neighbouring pixels. |
| Frame.AppendSweeps | main.c:325-342 | The pixel loop appends the 319 sweeps of the row and channel. |
| Frame.AppendFlagRow | main.c:347-369 | The flag branch appends the flag row's 18 symbols. |
| Frame.AppendSegment | main.c:319-369 | One (row, channel) pass appends exactly that segment. |
| Frame.AppendRow | main.c:318-370 | The channel loop appends the three segments of a row. |
| Frame.GenerateImageDataSymbols | main.c:262-386 | Returns no array and a count of 0 exactly when an image is missing or too small for the fixed scan. Otherwise an array of 248160 symbols holding the whole frame in scan order. |
| Frame.ShortCoverOverreads | main.c:274-277 | A 320 x 255 three-channel cover is accepted with a warning, yet the scan's first read of row 255 is past its buffer. |
| Frame.ShortFlagOverreads | main.c:289-292 | A 16 x 15 flag is accepted with a warning, yet its last flag row is read past its buffer. |
| Frame.FullSizeImagesFit | main.c:268-292 | A loaded cover of at least 320 x 256 and a flag of at least 16 x 16 are read only within their buffers. |
| WavFile.Le16 | main.c:444-449 | A 16-bit header field is written as exactly two bytes. |
| WavFile.Le32 | main.c:441-450 | A 32-bit header field is written as exactly four bytes. |
| WavFile.Le16RoundTrip | main.c:444-449 | The two bytes of a 16-bit field read back as the value modulo 2^16. |
| WavFile.ReadLe16RoundTrip | main.c:444-449 | Every two bytes are the encoding of the value they read as. |
| WavFile.Le32RoundTrip | main.c:441-450 | The four bytes of a 32-bit field read back as the value modulo 2^32. |
| WavFile.ReadLe32RoundTrip | main.c:441-450 | Every four bytes are the encoding of the value they read as. |
| WavFile.WavHeader | main.c:429-450 | The header is 44 bytes. |
| WavFile.WavHeaderFields | main.c:429-450 | The header reads back field by field: "RIFF", 36 + 2·length, "WAVE", "fmt ", 16, PCM 1, 1 channel, the rate, byte rate 2·rate, block 2, 16 bits, "data", 2·length. |
| WavFile.SampleBytes | main.c:451 | The samples are written as exactly two bytes each. |
| WavFile.SampleBytesRoundTrip | main.c:451 | Every sample reads back from its two little-endian bytes. |
| WavFile.WavFileBytes | main.c:419-452 | No file if and only if there is no data or the length is 0; otherwise 44 + 2·length bytes. |
| WavFile.WavFileSizes | main.c:430-439 | Below 2^31 - 18 samples, the RIFF size field is the file size minus 8 and the data size field is the file size minus 44. |
| Encoder.Transmission | main.c:529-535 | The signal is the image symbols framed by 29 more: it starts and ends with a silence, and the image symbols follow a head of 24. |
| Encoder.CopyRun | main.c:531-534 | One copy loop appends the run's first `count` symbols. |
| Encoder.AssembleSignal | main.c:516-536 | The assembled array is the silence, VOX, VIS, image, EOF and silence, in that order and nothing else. |
| Encoder.RenderAndSave | main.c:538-548 | The saved file is the rendered signal as a WAV file, or nothing when rendering gives no samples. |
| Encoder.Encode | main.c:464-561 | Exit status 1 with no file exactly when the image symbols cannot be built. Otherwise status 0 with the WAV file of the rendered transmission. |
| Encoder.TransmissionSize | main.c:467-536 | A transmission has 248189 symbols and, in exact arithmetic, 11125824 samples, none of negative duration. |
| Encoder.TransmissionRendersCompletely | main.c:538-543 | For usable images nothing is clipped: in exact arithmetic, 11125824 samples, and a file of 44 + 2·11125824 bytes. |

## Left out

- Allocation failures (`malloc` returning NULL, and the `create_*_symbol`
  constructors failing) are left out. The constructors are the datatype
  constructors, which cannot fail.
- Null entries in a symbol array are not modelled: no caller of
  `generate_wav` passes one.
- Freeing memory is left out, as are console messages (the dimension
  warnings included).
- Image decoding is not part of this model. `stbi_load` is represented by
  its result: an `Image` value, or None when loading failed.
- Opening and writing the output file are not part of this model. The file
  is modelled as its byte content, with little-endian fields as on the hosts
  the program targets.
- Doubles are modelled as exact reals, so the sample counts proved here are
  those of exact arithmetic. In binary64, `0.009 * 96000` evaluates to
  863.9999999999999, so the C code truncates the horizontal sync to 863
  samples, not 864. Every other duration of the transmission truncates to the
  same count either way (41.922, 20.961, 668.16, 194.88, 9600, 2880 and 960
  sample periods).
- Frame.SegmentSamples: counts 864 sync samples; with binary64 doubles a
  segment renders to 13982 samples, not 13983 (the flag row's 4440 is
  unchanged).
- Frame.FramePrefixSamples: counts 41949 samples per cover row; with binary64
  doubles it is 41946, one fewer per segment.
- Frame.ImageSymbolsSamples: counts 10952064 samples for the frame; with
  binary64 doubles it is 10951296, 768 fewer.
- Encoder.TransmissionSize: counts 11125824 samples; with binary64 doubles
  the transmission has 11125056, 768 fewer.
- Encoder.TransmissionRendersCompletely: the 11125824 samples and the file of
  44 + 2·11125824 bytes are exact-arithmetic counts; with binary64 doubles
  the program writes 11125056 samples and 44 + 2·11125056 bytes.
- `sin` is a parameter of the model and is not defined: no property here
  depends on its values.
- Synth.ToInt16: C leaves the conversion of an out-of-range double to
  `int16_t` undefined; the model wraps modulo 2^16. `Synth.ScaledSampleIsExact`
  shows the renderer stays in range whenever the amplitude and the sine
  values are in [-1, 1].
- Synth.Synthesize: a sum in [INT32_MIN, -1] passes both checks in C, keeps
  its negative value through the `(int)` conversion and then asks `malloc`
  for a size that wraps to nearly 2^64 bytes. The model treats that as the
  allocation failure it becomes: no buffer. Sums below INT32_MIN are not
  modelled: the `(int)` conversion of such a sum is implementation-defined
  (a compiler that keeps the low 32 bits may turn it into a small positive
  size and render), while the model returns no buffer for every negative
  sum. The program never produces a negative sum, since all its durations
  are non-negative.
- Synth.GenerateWav: returns no buffer for every negative sum, with the
  same limit as Synth.Synthesize for sums below INT32_MIN.
- Synth.RenderSymbol: the `int` per-symbol count and the `int` cursor are
  unbounded integers here. Counts beyond `int` range, which C converts with
  undefined behaviour, are not modelled.
- The `default` branch of the symbol switch is not modelled, because the
  datatype has exactly the three kinds.
- `actual_cover_channels_to_use` is not modelled, because `main.c` computes
  it and never uses it.
- Frame.GenerateImageDataSymbols: it returns no array for images too small
  for the fixed scan, where the C code reads outside the image buffer; see
  Findings.
- Several methods state their results with `old` or `fresh`: the methods
  that write into arrays, and the flag row converter. Their properties are
  also carried by the lemmas about the functions they are proved against.

## Findings

| source | as written | input that shows it | evidently intended | confidence | as-written member | corrected member |
|---|---|---|---|---|---|---|
| main.c:274-277 | A cover whose size differs from 320 x 256 only draws a warning. The scan still reads 256 rows of 320 pixels, using the loaded width as the row stride. | A 320 x 255 RGB cover: the first read of row 255 is at offset 244800, which equals the buffer size. | Refuse, or stop reading, a cover smaller than the fixed scan. | not executed | Frame.ShortCoverOverreads | Frame.GenerateImageDataSymbols |
| main.c:289-292 | A flag whose size differs from 16 x 16 only draws a warning. The flag rows are still read 16 bytes each at stride `width`, for 16 rows. | A 16 x 15 flag: the row for cover row 59 starts at offset 240, which equals the buffer size. | Refuse, or stop reading, a flag smaller than 16 x 16. | not executed | Frame.ShortFlagOverreads | Frame.GenerateImageDataSymbols |
