/** `generate_image_data_symbols`: the cover image scanned row by row and, in
    each row, colour channel by colour channel (R, G, B). Every (row, channel)
    pair becomes one segment: a horizontal sync tone, a porch tone, 319
    frequency sweeps between neighbouring pixels, a second porch tone and, in
    the rows where the flag is overlaid, one row of the flag image. */
module Frame {
  import opened Protocol
  import opened Symbols
  import opened FlagRow
  import opened Synth

  /** A decoded image as the loader delivers it: row-major pixels of
      `channels` bytes each. The flag is loaded with one channel forced, so
      its pixels are one byte each whatever its `channels` says. */
  datatype Image = Image(width: int, height: int, channels: int, pixels: seq<uint8>)

  /** What a successful load of a `width` x `height` image with `channels`
      channels per pixel yields. */
  predicate Loaded(img: Image, bytesPerPixel: int)
  {
    img.width > 0 && img.height > 0 && 1 <= bytesPerPixel <= 4 &&
    |img.pixels| == img.width * img.height * bytesPerPixel
  }

  /** The number of (row, channel) segments in a frame. */
  const SegmentCount: int := CoverHeight * 3

  /** The capacity computed by the sizing loop, which is also the exact
      number of symbols of a frame: 256 * 3 segments of 322 symbols plus 18
      flag symbols in each of the 16 * 3 segments of the flag rows. */
  const MaxSymbolsNeeded: int := CoverHeight * 3 * (CoverWidth + 2) + FlagHeight * 3 * (FlagWidth + 2)

  /** The duration of one cover pixel: a scanline shared by 320 pixels. */
  const PixelTime: real := ScanlineDuration / CoverWidth as real

  /** Rows FlagPosY .. FlagPosY + FlagHeight - 1 carry a flag segment. */
  predicate InFlagBand(y: int)
  {
    FlagPosY <= y < FlagPosY + FlagHeight
  }

  /** The tone frequency of a cover pixel component: 1500 Hz for 0 up to
      2300 Hz for 255, linear in the value. */
  function CoverPixelFreq(p: uint8): (f: real)
    ensures PixelFreqMin <= f <= PixelFreqMax
    ensures p == 0 ==> f == PixelFreqMin
    ensures p == 255 ==> f == PixelFreqMax
  {
    PixelFreqMin + PixelFreqRange * p as real / 255.0
  }

  lemma CoverPixelFreqBounds(p: uint8, q: uint8)
    ensures CoverPixelFreq(0) == 1500.0 && CoverPixelFreq(255) == 2300.0
    ensures 1500.0 <= CoverPixelFreq(p) <= 2300.0
    ensures p < q <==> CoverPixelFreq(p) < CoverPixelFreq(q)
    ensures CoverPixelFreq(q) - CoverPixelFreq(p) == (q as real - p as real) * PixelFreqRange / 255.0
  {
  }

  /** The component of a pixel read for scan channel c: c itself, or the
      last channel the image has when it has fewer, and never below 0. */
  function ChannelIndex(c: int, channels: int): (r: int)
    ensures 0 <= c && 1 <= channels ==> 0 <= r < channels
  {
    var clamped := if c >= channels then channels - 1 else c;
    if clamped < 0 then 0 else clamped
  }

  /** The three scans of an RGB(A) image read R, G and B; a grayscale image
      sends its one channel three times; a gray-plus-alpha image sends gray
      for R and its alpha channel for G and B. */
  lemma ChannelIndexCases(c: int, channels: int)
    requires 0 <= c < 3
    ensures channels >= 3 ==> ChannelIndex(c, channels) == c
    ensures channels == 1 ==> ChannelIndex(c, channels) == 0
    ensures channels == 2 ==> ChannelIndex(c, channels) == (if c == 0 then 0 else 1)
  {
  }

  /** The offset the scan reads for pixel (x, y), scan channel c, with no
      check against the size of the pixel buffer. */
  function CoverOffset(width: int, channels: int, y: int, x: int, c: int): (offset: int)
    ensures 0 <= c && 1 <= channels ==>
      (y * width + x) * channels <= offset < (y * width + x) * channels + channels
  {
    (y * width + x) * channels + ChannelIndex(c, channels)
  }

  /** A cover whose buffer holds every byte the fixed 320 x 256 scan reads. */
  predicate CoverFits(cover: Image)
  {
    cover.width >= 0 && cover.channels >= 1 &&
    |cover.pixels| >= (255 * cover.width + CoverWidth) * cover.channels
  }

  /** A flag whose buffer holds the 16 bytes read from each of its 16 rows. */
  predicate FlagFits(flag: Image)
  {
    flag.width >= 0 && |flag.pixels| >= (FlagHeight - 1) * flag.width + FlagWidth
  }

  /** Both images were loaded and both hold everything the scan reads. */
  predicate Usable(cover: Option<Image>, flag: Option<Image>)
  {
    cover.Some? && flag.Some? && CoverFits(cover.value) && FlagFits(flag.value)
  }

  /** Every offset the scan of a fitting cover reads is inside its buffer. */
  lemma CoverReadsInBounds(cover: Image, y: int, x: int, c: int)
    requires CoverFits(cover) && 0 <= y < CoverHeight && 0 <= x < CoverWidth && 0 <= c < 3
    ensures 0 <= CoverOffset(cover.width, cover.channels, y, x, c) < |cover.pixels|
  {
    var w, ch := cover.width, cover.channels;
    var pixel := y * w + x;
    assert 0 <= y * w <= 255 * w by { MulMonotone(y, 255, w); }
    assert 0 <= pixel * ch <= (255 * w + 319) * ch by { MulMonotone(pixel, 255 * w + 319, ch); }
    assert (255 * w + 320) * ch == (255 * w + 319) * ch + ch;
  }

  lemma MulMonotone(a: int, b: int, k: int)
    requires 0 <= a <= b && 0 <= k
    ensures 0 <= a * k <= b * k
  {
  }

  /** The byte the scan reads for pixel (x, y), channel c. */
  function CoverValue(cover: Image, y: int, x: int, c: int): uint8
    requires CoverFits(cover) && 0 <= y < CoverHeight && 0 <= x < CoverWidth && 0 <= c < 3
  {
    CoverReadsInBounds(cover, y, x, c);
    cover.pixels[CoverOffset(cover.width, cover.channels, y, x, c)]
  }

  /** The horizontal sync tone that opens each segment. */
  const HSync: AudioSymbol := Tone(HSyncDuration, HSyncFreq, 1.0, 0.0)

  /** The porch tone on both sides of the pixel sweeps: half a pixel long. */
  const Porch: AudioSymbol := Tone(PixelTime / 2.0, PorchFreq, 1.0, 0.0)

  /** The sweep from pixel x to pixel x + 1 of row y in channel c. */
  function CoverSweep(cover: Image, y: int, x: int, c: int): AudioSymbol
    requires CoverFits(cover) && 0 <= y < CoverHeight && 0 <= x < CoverWidth - 1 && 0 <= c < 3
  {
    LinearSweep(PixelTime, CoverPixelFreq(CoverValue(cover, y, x, c)),
                CoverPixelFreq(CoverValue(cover, y, x + 1, c)), 1.0, 0.0)
  }

  function Sweeps(cover: Image, y: int, c: int): (r: seq<AudioSymbol>)
    requires CoverFits(cover) && 0 <= y < CoverHeight && 0 <= c < 3
    ensures |r| == CoverWidth - 1
  {
    seq(CoverWidth - 1, x requires 0 <= x < CoverWidth - 1 => CoverSweep(cover, y, x, c))
  }

  /** The flag bytes from the start of the flag row shown in cover row y. */
  function FlagRowOf(flag: Image, y: int): (row: seq<uint8>)
    requires FlagFits(flag) && InFlagBand(y)
    ensures |row| >= FlagWidth
  {
    var start := (y - FlagPosY) * flag.width;
    assert 0 <= start <= (FlagHeight - 1) * flag.width by { MulMonotone(y - FlagPosY, FlagHeight - 1, flag.width); }
    flag.pixels[start..]
  }

  /** The flag segment of cover row y: the row's 16 flag pixels in the fixed
      flag slot. */
  function FlagSegment(flag: Image, y: int): (r: seq<AudioSymbol>)
    requires FlagFits(flag) && InFlagBand(y)
    ensures |r| == FlagWidth + 2
  {
    FlagRowSymbols(FlagRowOf(flag, y), FlagWidth, FlagSegmentDuration).value
  }

  /** The number of symbols in a segment of row y. */
  function SegmentLength(y: int): nat
  {
    if InFlagBand(y) then CoverWidth + 2 + FlagWidth + 2 else CoverWidth + 2
  }

  /** The segment of row y, channel c. */
  function Segment(cover: Image, flag: Image, y: int, c: int): (r: seq<AudioSymbol>)
    requires CoverFits(cover) && FlagFits(flag) && 0 <= y < CoverHeight && 0 <= c < 3
    ensures |r| == SegmentLength(y)
  {
    [HSync, Porch] + Sweeps(cover, y, c) + [Porch] + (if InFlagBand(y) then FlagSegment(flag, y) else [])
  }

  /** The first k segments of the frame, in scan order: segment j is row
      j / 3, channel j % 3. */
  function FramePrefix(cover: Image, flag: Image, k: int): seq<AudioSymbol>
    requires CoverFits(cover) && FlagFits(flag) && 0 <= k <= SegmentCount
  {
    if k == 0 then []
    else FramePrefix(cover, flag, k - 1) + Segment(cover, flag, SegmentRow(k - 1), SegmentChannel(k - 1))
  }

  /** The row of segment j. */
  function SegmentRow(j: nat): (y: nat)
    ensures 3 * y <= j < 3 * y + 3
  {
    j / 3
  }

  /** The channel of segment j. */
  function SegmentChannel(j: nat): (c: nat)
    ensures c == j - 3 * SegmentRow(j) && c < 3
  {
    j % 3
  }

  /** All the image symbols of a frame. */
  function ImageSymbols(cover: Image, flag: Image): (r: seq<AudioSymbol>)
    requires CoverFits(cover) && FlagFits(flag)
    ensures |r| == MaxSymbolsNeeded
  {
    FramePrefixLength(cover, flag, CoverHeight, 0);
    FramePrefix(cover, flag, SegmentCount)
  }

  /** The number of flag rows among cover rows 0 .. y - 1. */
  function FlagRowsBefore(y: int): int
  {
    if y <= FlagPosY then 0 else if y >= FlagPosY + FlagHeight then FlagHeight else y - FlagPosY
  }

  /** The number of symbols in the first 3y + c segments: 966 per full row,
      54 more per full flag row, and c segments of row y. */
  function PrefixLength(y: int, c: int): int
  {
    966 * y + 54 * FlagRowsBefore(y) + (if InFlagBand(y) then 340 * c else 322 * c)
  }

  lemma {:induction false} FramePrefixLength(cover: Image, flag: Image, y: int, c: int)
    requires CoverFits(cover) && FlagFits(flag) && 0 <= y && 0 <= c < 3 && 3 * y + c <= SegmentCount
    ensures |FramePrefix(cover, flag, 3 * y + c)| == PrefixLength(y, c)
    decreases 3 * y + c
  {
    var k := 3 * y + c;
    if c > 0 {
      FramePrefixLength(cover, flag, y, c - 1);
      assert SegmentRow(k - 1) == y;
    } else if y > 0 {
      FramePrefixLength(cover, flag, y - 1, 2);
      assert SegmentRow(k - 1) == y - 1;
      assert FlagRowsBefore(y) == FlagRowsBefore(y - 1) + (if InFlagBand(y - 1) then 1 else 0);
    }
  }

  /** Prefix lengths grow with k and stay within the reserved capacity. */
  lemma FramePrefixWithinBound(cover: Image, flag: Image, k: int)
    requires CoverFits(cover) && FlagFits(flag) && 0 <= k < SegmentCount
    ensures |FramePrefix(cover, flag, k)| + SegmentLength(SegmentRow(k)) <= MaxSymbolsNeeded
  {
    FramePrefixGrows(cover, flag, k);
    assert |ImageSymbols(cover, flag)| == MaxSymbolsNeeded;
    FramePrefixMonotone(cover, flag, k + 1, SegmentCount);
  }

  /** The prefix of k + 1 segments extends that of k by segment k, of row y
      and channel c. */
  lemma FramePrefixStep(cover: Image, flag: Image, k: int, y: int, c: int)
    requires CoverFits(cover) && FlagFits(flag) && 0 <= y && 0 <= c < 3 && k == 3 * y + c < SegmentCount
    ensures SegmentRow(k) == y
    ensures FramePrefix(cover, flag, k + 1) == FramePrefix(cover, flag, k) + Segment(cover, flag, y, c)
  {
    assert SegmentRow(k) == y && SegmentChannel(k) == c;
  }

  /** Segment k adds its length to the prefix. */
  lemma FramePrefixGrows(cover: Image, flag: Image, k: int)
    requires CoverFits(cover) && FlagFits(flag) && 0 <= k < SegmentCount
    ensures |FramePrefix(cover, flag, k + 1)| == |FramePrefix(cover, flag, k)| + SegmentLength(SegmentRow(k))
  {
    var seg := Segment(cover, flag, SegmentRow(k), SegmentChannel(k));
    assert FramePrefix(cover, flag, k + 1) == FramePrefix(cover, flag, k) + seg;
  }

  lemma {:induction false} FramePrefixMonotone(cover: Image, flag: Image, k: int, m: int)
    requires CoverFits(cover) && FlagFits(flag) && 0 <= k <= m <= SegmentCount
    ensures |FramePrefix(cover, flag, k)| <= |FramePrefix(cover, flag, m)|
    decreases m - k
  {
    if k < m {
      FramePrefixMonotone(cover, flag, k, m - 1);
    }
  }

  /** The sizing loop of `generate_image_data_symbols`: per row and channel
      the sync, the two porches and 319 sweeps, plus 18 flag symbols in the
      flag rows. */
  method CountMaxSymbols() returns (max: int)
    ensures max == MaxSymbolsNeeded
  {
    max := 0;
    for y := 0 to CoverHeight
      invariant max == PrefixLength(y, 0)
    {
      for c := 0 to 3
        invariant max == PrefixLength(y, c)
      {
        max := max + 1;
        max := max + 1;
        max := max + (CoverWidth - 1);
        max := max + 1;
        if y >= FlagPosY && y < FlagPosY + FlagHeight {
          max := max + (FlagWidth + 2);
        }
      }
    }
  }

  /** The layout of a segment: sync at 1200 Hz for 9 ms, a 1500 Hz porch of
      half a pixel, the 319 sweeps, the second porch and, in a flag row, the
      flag segment. */
  lemma SegmentLayout(cover: Image, flag: Image, y: int, c: int)
    requires CoverFits(cover) && FlagFits(flag) && 0 <= y < CoverHeight && 0 <= c < 3
    ensures var s := Segment(cover, flag, y, c);
      s[0] == Tone(0.009, 1200.0, 1.0, 0.0) &&
      s[1] == s[CoverWidth + 1] == Tone(PixelTime / 2.0, 1500.0, 1.0, 0.0) &&
      s[2..CoverWidth + 1] == Sweeps(cover, y, c) &&
      (InFlagBand(y) ==> s[CoverWidth + 2..] == FlagSegment(flag, y))
  {
    var s := Segment(cover, flag, y, c);
    assert s[2..CoverWidth + 1] == Sweeps(cover, y, c);
  }

  /** The sweeps of a scanline join up: each ends at the frequency where the
      next one starts, so the frequency follows the pixel values without
      jumps. */
  lemma SweepsJoin(cover: Image, y: int, c: int, x: int)
    requires CoverFits(cover) && 0 <= y < CoverHeight && 0 <= c < 3 && 0 <= x < CoverWidth - 2
    ensures CoverSweep(cover, y, x, c).freqEnd == CoverSweep(cover, y, x + 1, c).freqStart
    ensures Sweeps(cover, y, c)[x].freqEnd == Sweeps(cover, y, c)[x + 1].freqStart
  {
  }

  /** The timing of a segment: the sync plus exactly one scanline (two half
      pixel porches and 319 pixel sweeps), plus the flag slot in a flag row. */
  lemma SegmentDuration(cover: Image, flag: Image, y: int, c: int)
    requires CoverFits(cover) && FlagFits(flag) && 0 <= y < CoverHeight && 0 <= c < 3
    ensures TotalDuration(Segment(cover, flag, y, c)) ==
            HSyncDuration + ScanlineDuration + (if InFlagBand(y) then FlagSegmentDuration else 0.0)
  {
    var line := [HSync, Porch] + Sweeps(cover, y, c) + [Porch];
    LineDuration(cover, y, c);
    if InFlagBand(y) {
      TotalDurationAppend(line, FlagSegment(flag, y));
      FlagRowShape(FlagRowOf(flag, y), FlagWidth, FlagSegmentDuration);
    } else {
      assert Segment(cover, flag, y, c) == line;
    }
  }

  lemma LineDuration(cover: Image, y: int, c: int)
    requires CoverFits(cover) && 0 <= y < CoverHeight && 0 <= c < 3
    ensures TotalDuration([HSync, Porch] + Sweeps(cover, y, c) + [Porch]) == HSyncDuration + ScanlineDuration
  {
    var sw := Sweeps(cover, y, c);
    UniformDuration(sw, PixelTime);
    TotalDurationAppend([HSync, Porch], sw);
    TotalDurationAppend([HSync, Porch] + sw, [Porch]);
    assert TotalDuration([HSync, Porch]) == HSyncDuration + PixelTime / 2.0;
    assert TotalDuration([Porch]) == PixelTime / 2.0;
  }

  /** With durations as exact reals, at 96 kHz the truncated sample counts
      make every segment shorter than its nominal duration: 864 sync
      samples, 20 per porch and 41 per sweep give 13983 samples for a
      scanline segment that lasts 14279.04 sample periods, and a flag slot
      of 4454.4 sample periods gets 4440. */
  lemma SegmentSamples(cover: Image, flag: Image, y: int, c: int)
    requires CoverFits(cover) && FlagFits(flag) && 0 <= y < CoverHeight && 0 <= c < 3
    ensures TotalSamples(Segment(cover, flag, y, c), SampleRate) == 13983 + (if InFlagBand(y) then 4440 else 0)
    ensures (HSyncDuration + ScanlineDuration) * SampleRate as real == 14279.04
    ensures FlagSegmentDuration * SampleRate as real == 4454.4
  {
    var line := [HSync, Porch] + Sweeps(cover, y, c) + [Porch];
    LineSamples(cover, y, c);
    if InFlagBand(y) {
      TotalSamplesAppend(line, FlagSegment(flag, y), SampleRate);
      FlagSegmentSamples(flag, y);
    } else {
      assert Segment(cover, flag, y, c) == line;
    }
  }

  lemma LineSamples(cover: Image, y: int, c: int)
    requires CoverFits(cover) && 0 <= y < CoverHeight && 0 <= c < 3
    ensures TotalSamples([HSync, Porch] + Sweeps(cover, y, c) + [Porch], SampleRate) == 13983
  {
    var sw := Sweeps(cover, y, c);
    assert forall x :: 0 <= x < |sw| ==> SampleCount(sw[x], SampleRate) == 41;
    UniformSampleCount(sw, SampleRate, 41);
    TotalSamplesAppend([HSync, Porch], sw, SampleRate);
    TotalSamplesAppend([HSync, Porch] + sw, [Porch], SampleRate);
    assert SampleCount(HSync, SampleRate) == 864;
    assert SampleCount(Porch, SampleRate) == 20;
  }

  lemma FlagSegmentSamples(flag: Image, y: int)
    requires FlagFits(flag) && InFlagBand(y)
    ensures TotalSamples(FlagSegment(flag, y), SampleRate) == 4440
  {
    var f := FlagSegment(flag, y);
    var pixels := f[1..FlagWidth + 1];
    assert f == [f[0]] + pixels + [f[FlagWidth + 1]];
    FlagRowShape(FlagRowOf(flag, y), FlagWidth, FlagSegmentDuration);
    assert forall x :: 0 <= x < |pixels| ==> SampleCount(pixels[x], SampleRate) == 194;
    UniformSampleCount(pixels, SampleRate, 194);
    TotalSamplesAppend([f[0]] + pixels, [f[FlagWidth + 1]], SampleRate);
    TotalSamplesAppend([f[0]], pixels, SampleRate);
    assert SampleCount(f[0], SampleRate) == 668;
  }

  /** No symbol of a segment has a negative duration. */
  lemma SegmentNonNegative(cover: Image, flag: Image, y: int, c: int)
    requires CoverFits(cover) && FlagFits(flag) && 0 <= y < CoverHeight && 0 <= c < 3
    ensures NonNegativeDurations(Segment(cover, flag, y, c))
  {
    var sw := Sweeps(cover, y, c);
    assert NonNegativeDurations(sw);
    var line := [HSync, Porch] + sw + [Porch];
    assert NonNegativeDurations(line);
    if InFlagBand(y) {
      var f := FlagSegment(flag, y);
      FlagRowShape(FlagRowOf(flag, y), FlagWidth, FlagSegmentDuration);
      assert NonNegativeDurations(f);
      assert Segment(cover, flag, y, c) == line + f;
    } else {
      assert Segment(cover, flag, y, c) == line;
    }
  }

  /** The samples of the first 3y + c segments at 96 kHz, durations as exact reals: 41949 per full row,
      13320 more per full flag row, and c segments of row y. */
  function PrefixSamples(y: int, c: int): int
  {
    41949 * y + 13320 * FlagRowsBefore(y) + (if InFlagBand(y) then 18423 * c else 13983 * c)
  }

  lemma {:induction false} FramePrefixSamples(cover: Image, flag: Image, k: int, y: int, c: int)
    requires CoverFits(cover) && FlagFits(flag) && 0 <= y && 0 <= c < 3 && k == 3 * y + c <= SegmentCount
    ensures TotalSamples(FramePrefix(cover, flag, k), SampleRate) == PrefixSamples(y, c)
    decreases k
  {
    if k == 0 {
      assert FramePrefix(cover, flag, k) == [];
    } else {
      var py, pc := if c > 0 then y else y - 1, if c > 0 then c - 1 else 2;
      FramePrefixSamples(cover, flag, k - 1, py, pc);
      SegmentSamplesStep(cover, flag, k, py, pc);
      PrefixSamplesStep(py, pc, y, c);
    }
  }

  /** The closed form grows by the samples of segment (y, c) to the next one. */
  lemma PrefixSamplesStep(y: int, c: int, y2: int, c2: int)
    requires 0 <= y && 0 <= c < 3 && 0 <= c2 < 3 && 3 * y2 + c2 == 3 * y + c + 1
    ensures PrefixSamples(y2, c2) == PrefixSamples(y, c) + 13983 + (if InFlagBand(y) then 4440 else 0)
  {
    if c < 2 {
      assert y2 == y && c2 == c + 1;
    } else {
      assert y2 == y + 1 && c2 == 0;
      assert FlagRowsBefore(y + 1) == FlagRowsBefore(y) + (if InFlagBand(y) then 1 else 0);
    }
  }

  /** Appending segment k - 1, of row y and channel c, adds its samples. */
  lemma SegmentSamplesStep(cover: Image, flag: Image, k: int, y: int, c: int)
    requires CoverFits(cover) && FlagFits(flag) && 0 <= y && 0 <= c < 3 && k - 1 == 3 * y + c && k <= SegmentCount
    ensures TotalSamples(FramePrefix(cover, flag, k), SampleRate)
         == TotalSamples(FramePrefix(cover, flag, k - 1), SampleRate) + 13983 + (if InFlagBand(y) then 4440 else 0)
  {
    assert SegmentRow(k - 1) == y && SegmentChannel(k - 1) == c;
    SegmentSamples(cover, flag, y, c);
    TotalSamplesAppend(FramePrefix(cover, flag, k - 1), Segment(cover, flag, y, c), SampleRate);
  }

  /** No symbol of a frame prefix has a negative duration. */
  lemma {:induction false} FramePrefixNonNegative(cover: Image, flag: Image, k: int)
    requires CoverFits(cover) && FlagFits(flag) && 0 <= k <= SegmentCount
    ensures NonNegativeDurations(FramePrefix(cover, flag, k))
  {
    if k > 0 {
      FramePrefixNonNegative(cover, flag, k - 1);
      SegmentNonNegative(cover, flag, SegmentRow(k - 1), SegmentChannel(k - 1));
    }
  }

  /** With durations as exact reals, a frame renders to 10952064 samples at
      96 kHz, none of its symbols having a negative duration. */
  lemma ImageSymbolsSamples(cover: Image, flag: Image)
    requires CoverFits(cover) && FlagFits(flag)
    ensures TotalSamples(ImageSymbols(cover, flag), SampleRate) == 10952064
    ensures NonNegativeDurations(ImageSymbols(cover, flag))
  {
    FramePrefixSamples(cover, flag, SegmentCount, CoverHeight, 0);
    FramePrefixNonNegative(cover, flag, SegmentCount);
  }

  /** `generate_image_data_symbols`: no array and a count of 0 when an image
      could not be loaded or is too small for the fixed scan; otherwise an
      array sized by the sizing loop, holding the whole frame. */
  method GenerateImageDataSymbols(cover: Option<Image>, flag: Option<Image>)
    returns (syms: array?<AudioSymbol>, count: int)
    ensures syms == null <==> !Usable(cover, flag)
    ensures syms == null ==> count == 0
    ensures syms != null ==> count == syms.Length == MaxSymbolsNeeded
    ensures syms != null ==> syms[..count] == ImageSymbols(cover.value, flag.value)
  {
    if cover.None? || flag.None? {
      return null, 0;
    }
    var coverImg, flagImg := cover.value, flag.value;
    if !CoverFits(coverImg) || !FlagFits(flagImg) {
      return null, 0;
    }
    var maxSymbols := CountMaxSymbols();
    syms := new AudioSymbol[maxSymbols];
    var index := 0;
    for y := 0 to CoverHeight
      invariant index == |FramePrefix(coverImg, flagImg, 3 * y)| <= syms.Length
      invariant syms[..index] == FramePrefix(coverImg, flagImg, 3 * y)
    {
      index := AppendRow(syms, index, coverImg, flagImg, y);
    }
    assert |ImageSymbols(coverImg, flagImg)| == MaxSymbolsNeeded;
    count := index;
  }

  /** The channel loop of row y: appends the three segments of the row to
      the first 3y segments. */
  method AppendRow(syms: array<AudioSymbol>, index: int, cover: Image, flag: Image, y: int) returns (next: int)
    requires CoverFits(cover) && FlagFits(flag) && 0 <= y < CoverHeight
    requires syms.Length == MaxSymbolsNeeded
    requires index == |FramePrefix(cover, flag, 3 * y)| <= syms.Length
    requires syms[..index] == FramePrefix(cover, flag, 3 * y)
    modifies syms
    ensures next == |FramePrefix(cover, flag, 3 * y + 3)| <= syms.Length
    ensures syms[..next] == FramePrefix(cover, flag, 3 * y + 3)
  {
    next := index;
    for c := 0 to 3
      invariant next == |FramePrefix(cover, flag, 3 * y + c)| <= syms.Length
      invariant syms[..next] == FramePrefix(cover, flag, 3 * y + c)
    {
      FramePrefixWithinBound(cover, flag, 3 * y + c);
      FramePrefixStep(cover, flag, 3 * y + c, y, c);
      next := AppendSegment(syms, next, cover, flag, y, c);
    }
    FramePrefixMonotone(cover, flag, 3 * y + 3, SegmentCount);
    assert |ImageSymbols(cover, flag)| == MaxSymbolsNeeded;
  }

  /** The body of the (row, channel) loop: writes the segment of row y,
      channel c at `index` and returns the index after it. */
  method AppendSegment(syms: array<AudioSymbol>, index: int, cover: Image, flag: Image, y: int, c: int)
    returns (next: int)
    requires CoverFits(cover) && FlagFits(flag) && 0 <= y < CoverHeight && 0 <= c < 3
    requires 0 <= index && index + SegmentLength(y) <= syms.Length
    modifies syms
    ensures next == index + SegmentLength(y)
    ensures syms[..next] == old(syms[..index]) + Segment(cover, flag, y, c)
  {
    ghost var before := syms[..index];
    var timePerPixel := ScanlineDuration / CoverWidth as real;
    syms[index] := Tone(HSyncDuration, HSyncFreq, 1.0, 0.0);
    syms[index + 1] := Tone(timePerPixel / 2.0, PorchFreq, 1.0, 0.0);
    next := index + 2;
    assert syms[..next] == before + [HSync, Porch];
    next := AppendSweeps(syms, next, cover, y, c);
    ghost var line := before + [HSync, Porch] + Sweeps(cover, y, c);
    syms[next] := Tone(timePerPixel / 2.0, PorchFreq, 1.0, 0.0);
    assert syms[..next + 1] == line + [Porch];
    next := next + 1;
    if y >= FlagPosY && y < FlagPosY + FlagHeight {
      next := AppendFlagRow(syms, next, flag, y);
    }
  }

  /** The flag part of a segment in a flag row: converts the flag row and
      copies its symbols after the second porch. The copy checks the index
      against the capacity; the check never fails because the capacity is
      exactly what the frame needs. */
  method AppendFlagRow(syms: array<AudioSymbol>, index: int, flag: Image, y: int) returns (next: int)
    requires FlagFits(flag) && InFlagBand(y)
    requires 0 <= index && index + FlagWidth + 2 <= syms.Length
    modifies syms
    ensures next == index + FlagWidth + 2
    ensures syms[..next] == old(syms[..index]) + FlagSegment(flag, y)
  {
    ghost var before := syms[..index];
    var flagSyms, flagCount := ConvertFlagRowToSymbols(FlagRowOf(flag, y), FlagWidth, FlagSegmentDuration);
    next := index;
    if flagSyms != null {
      assert flagSyms[..] == FlagSegment(flag, y);
      for k := 0 to flagCount
        invariant next == index + k
        invariant flagSyms[..] == FlagSegment(flag, y)
        invariant syms[..next] == before + flagSyms[..k]
      {
        if next >= syms.Length {
          assert false;
        }
        syms[next] := flagSyms[k];
        next := next + 1;
        assert flagSyms[..k + 1] == flagSyms[..k] + [flagSyms[k]];
      }
      assert flagSyms[..flagCount] == flagSyms[..];
    }
  }

  /** The pixel loop: the 319 sweeps of row y, channel c, written from
      `index` on. */
  method AppendSweeps(syms: array<AudioSymbol>, index: int, cover: Image, y: int, c: int)
    returns (next: int)
    requires CoverFits(cover) && 0 <= y < CoverHeight && 0 <= c < 3
    requires 0 <= index && index + CoverWidth - 1 <= syms.Length
    modifies syms
    ensures next == index + CoverWidth - 1
    ensures syms[..next] == old(syms[..index]) + Sweeps(cover, y, c)
  {
    ghost var before := syms[..index];
    ghost var sweeps := Sweeps(cover, y, c);
    next := index;
    for x := 0 to CoverWidth - 1
      invariant next == index + x
      invariant syms[..next] == before + sweeps[..x]
    {
      var sweep := ReadSweep(cover, y, x, c);
      syms[next] := sweep;
      assert sweeps[..x + 1] == sweeps[..x] + [sweep];
      next := next + 1;
    }
    assert sweeps[..CoverWidth - 1] == sweeps;
  }

  /** One pass of the pixel loop: the offsets of pixels x and x + 1 in row y,
      the channel clamped to those the cover has, and the sweep between the
      two frequencies. */
  method ReadSweep(cover: Image, y: int, x: int, c: int) returns (sweep: AudioSymbol)
    requires CoverFits(cover) && 0 <= y < CoverHeight && 0 <= x < CoverWidth - 1 && 0 <= c < 3
    ensures sweep == CoverSweep(cover, y, x, c)
  {
    var timePerPixel := ScanlineDuration / CoverWidth as real;
    var currentOffset := (y * cover.width + x) * cover.channels;
    var nextOffset := (y * cover.width + x + 1) * cover.channels;
    var channel := c;
    if channel >= cover.channels {
      channel := cover.channels - 1;
    }
    if channel < 0 {
      channel := 0;
    }
    CoverReadsInBounds(cover, y, x, c);
    CoverReadsInBounds(cover, y, x + 1, c);
    var value1 := cover.pixels[currentOffset + channel];
    var value2 := cover.pixels[nextOffset + channel];
    var freqStart := PixelFreqMin + PixelFreqRange * value1 as real / 255.0;
    var freqEnd := PixelFreqMin + PixelFreqRange * value2 as real / 255.0;
    sweep := LinearSweep(timePerPixel, freqStart, freqEnd, 1.0, 0.0);
  }

  /** The 320 x 255 three-channel cover that the loader delivers for a file
      one row short: the scan passes the size warning and reads past its
      buffer at the first pixel of row 255. */
  lemma ShortCoverOverreads()
    ensures var cover := Image(320, 255, 3, seq(320 * 255 * 3, _ => 0 as uint8));
      Loaded(cover, 3) && !CoverFits(cover) &&
      CoverOffset(cover.width, cover.channels, 255, 0, 0) >= |cover.pixels|
  {
  }

  /** The 16 x 15 flag delivered for a flag file one row short: the flag row
      of cover row 59 starts at the end of its buffer. */
  lemma ShortFlagOverreads()
    ensures var flag := Image(16, 15, 1, seq(16 * 15, _ => 0 as uint8));
      Loaded(flag, 1) && !FlagFits(flag) &&
      (FlagPosY + FlagHeight - 1 - FlagPosY) * flag.width + FlagWidth > |flag.pixels|
  {
  }

  /** Any loaded cover at least 320 x 256 and any loaded flag at least
      16 x 16 are read only within their buffers. */
  lemma FullSizeImagesFit(cover: Image, flag: Image)
    requires Loaded(cover, cover.channels) && cover.width >= CoverWidth && cover.height >= CoverHeight
    requires Loaded(flag, 1) && flag.width >= FlagWidth && flag.height >= FlagHeight
    ensures CoverFits(cover) && FlagFits(flag)
  {
    var w, h, ch := cover.width, cover.height, cover.channels;
    assert 255 * w + CoverWidth <= w * h by {
      assert 256 * w <= h * w by { MulMonotone(256, h, w); }
    }
    MulMonotone(255 * w + CoverWidth, w * h, ch);
    assert flag.width * FlagHeight <= flag.width * flag.height by { MulMonotone(FlagHeight, flag.height, flag.width); }
  }
}
