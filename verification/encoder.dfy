/** The program's `main`: builds the leader, the VIS header, the image
    symbols and the trailer, concatenates them between two silences,
    renders the result at 96 kHz and produces the WAV file's bytes. The
    image files and the output file are abstracted: the decoded images come
    in as values (None for a file that could not be loaded) and the file
    bytes go out as a value. */
module Encoder {
  import opened Protocol
  import opened Symbols
  import opened Synth
  import opened Headers
  import opened Frame
  import opened WavFile

  /** The whole transmission: silence, VOX, VIS, the image, EOF, silence. */
  function Transmission(cover: Image, flag: Image): (r: seq<AudioSymbol>)
    requires CoverFits(cover) && FlagFits(flag)
    ensures |r| == |ImageSymbols(cover, flag)| + 29
    ensures r[0] == Silence(SilenceDuration) && r[|r| - 1] == Silence(SilenceDuration)
    ensures r[24..24 + |ImageSymbols(cover, flag)|] == ImageSymbols(cover, flag)
  {
    [Silence(SilenceDuration)] + VoxSignal() + VisSignal() + ImageSymbols(cover, flag) + EofSignal()
    + [Silence(SilenceDuration)]
  }

  /** A transmission has 248189 symbols and, with durations as exact reals,
      11125824 samples at 96 kHz: 9600
      for each silence, 76800 for VOX, 39360 for VIS, 10952064 for the
      image and 38400 for EOF; no symbol has a negative duration. */
  lemma {:induction false} TransmissionSize(cover: Image, flag: Image)
    requires CoverFits(cover) && FlagFits(flag)
    ensures |Transmission(cover, flag)| == 248189
    ensures TotalSamples(Transmission(cover, flag), SampleRate) == 11125824
    ensures NonNegativeDurations(Transmission(cover, flag))
  {
    var silence := [Silence(SilenceDuration)];
    var head := silence + VoxSignal() + VisSignal();
    var image := ImageSymbols(cover, flag);
    ImageSymbolsSamples(cover, flag);
    HeadSize();
    EofShape();
    VoxShape();
    UniformSampleCount(silence, SampleRate, 9600);
    TotalSamplesAppend(head, image, SampleRate);
    TotalSamplesAppend(head + image, EofSignal(), SampleRate);
    TotalSamplesAppend(head + image + EofSignal(), silence, SampleRate);
    assert NonNegativeDurations(EofSignal());
  }

  /** The opening silence, VOX and VIS: 24 symbols, 125760 samples. */
  lemma {:induction false} HeadSize()
    ensures |[Silence(SilenceDuration)] + VoxSignal() + VisSignal()| == 24
    ensures TotalSamples([Silence(SilenceDuration)] + VoxSignal() + VisSignal(), SampleRate) == 125760
    ensures NonNegativeDurations([Silence(SilenceDuration)] + VoxSignal() + VisSignal())
  {
    var silence := [Silence(SilenceDuration)];
    var vox, vis := VoxSignal(), VisSignal();
    assert TotalSamples(silence + vox, SampleRate) == 86400 by {
      VoxShape();
      UniformSampleCount(silence, SampleRate, 9600);
      TotalSamplesAppend(silence, vox, SampleRate);
    }
    assert TotalSamples(silence + vox + vis, SampleRate) == 125760 by {
      VisTiming();
      TotalSamplesAppend(silence + vox, vis, SampleRate);
    }
    assert NonNegativeDurations(vis) by {
      VisShape();
    }
  }

  /** For usable images the whole transmission is rendered, nothing clipped:
      its 11125824 samples (durations as exact reals) are within INT32_MAX, and the file holds the
      44-byte header and two bytes per sample. */
  lemma TransmissionRendersCompletely(cover: Image, flag: Image, sin: real -> real)
    requires CoverFits(cover) && FlagFits(flag)
    ensures Synthesize(Transmission(cover, flag), SampleRate, sin).Some?
    ensures |Synthesize(Transmission(cover, flag), SampleRate, sin).value| == 11125824
    ensures EncodedFile(cover, flag, sin).Some? && |EncodedFile(cover, flag, sin).value| == 44 + 2 * 11125824
  {
    var t := Transmission(cover, flag);
    TransmissionSize(cover, flag);
    SampleCountNonNegative(t, SampleRate);
    SynthesizeLength(t, SampleRate, sin);
  }

  /** The file `main` writes for two usable images: the rendered samples in
      a WAV file, or no file when rendering fails or yields no samples. */
  function EncodedFile(cover: Image, flag: Image, sin: real -> real): Option<seq<uint8>>
    requires CoverFits(cover) && FlagFits(flag)
  {
    SavedFile(Synthesize(Transmission(cover, flag), SampleRate, sin))
  }

  /** What is saved of a rendering: nothing without samples. */
  function SavedFile(rendered: Option<seq<int16>>): Option<seq<uint8>>
  {
    match rendered
    case None => None
    case Some(samples) => WavFileBytes(SampleRate, Some(samples), |samples|)
  }

  /** The concatenation in `main`: a fresh array holding the first silence,
      the four symbol runs in order, and the last silence. */
  method AssembleSignal(first: AudioSymbol,
                        vox: array<AudioSymbol>, voxCount: int,
                        vis: array<AudioSymbol>, visCount: int,
                        image: array<AudioSymbol>, imageCount: int,
                        eof: array<AudioSymbol>, eofCount: int,
                        last: AudioSymbol)
    returns (signal: array<AudioSymbol>)
    requires 0 <= voxCount <= vox.Length && 0 <= visCount <= vis.Length
    requires 0 <= imageCount <= image.Length && 0 <= eofCount <= eof.Length
    ensures signal.Length == 1 + voxCount + visCount + imageCount + eofCount + 1
    ensures signal[..] == [first] + vox[..voxCount] + vis[..visCount] + image[..imageCount] + eof[..eofCount] + [last]
  {
    var total := 1 + voxCount + visCount + imageCount + eofCount + 1;
    signal := new AudioSymbol[total];
    var index := 0;
    signal[index] := first;
    index := index + 1;
    assert signal[..index] == [first];
    index := CopyRun(signal, index, vox, voxCount);
    index := CopyRun(signal, index, vis, visCount);
    index := CopyRun(signal, index, image, imageCount);
    index := CopyRun(signal, index, eof, eofCount);
    signal[index] := last;
    index := index + 1;
    assert index == total;
    assert signal[..] == signal[..index];
  }

  /** One copy loop of the concatenation: appends the first `count` symbols
      of `run` at `index`. */
  method CopyRun(signal: array<AudioSymbol>, index: int, run: array<AudioSymbol>, count: int)
    returns (next: int)
    requires signal != run && 0 <= count <= run.Length && 0 <= index && index + count <= signal.Length
    modifies signal
    ensures next == index + count
    ensures signal[..next] == old(signal[..index]) + run[..count]
  {
    ghost var before := signal[..index];
    next := index;
    for i := 0 to count
      invariant next == index + i
      invariant signal[..next] == before + run[..i]
    {
      signal[next] := run[i];
      next := next + 1;
      assert run[..i + 1] == run[..i] + [run[i]];
    }
  }

  /** `main`: exit status 1 when the image symbols cannot be built (an image
      missing or too small); otherwise status 0, with the WAV file when
      rendering produced samples and no file when it did not. */
  method Encode(cover: Option<Image>, flag: Option<Image>, sin: real -> real)
    returns (exitCode: int, file: Option<seq<uint8>>)
    ensures exitCode == 1 <==> !Usable(cover, flag)
    ensures exitCode == 1 || exitCode == 0
    ensures exitCode == 1 ==> file.None?
    ensures exitCode == 0 ==> file == EncodedFile(cover.value, flag.value, sin)
  {
    var initialSilence := Silence(SilenceDuration);
    var vox := GenerateVox();
    var vis := GenerateVis();
    var image, imageCount := GenerateImageDataSymbols(cover, flag);
    if image == null {
      return 1, None;
    }
    var eof := GenerateEof();
    var finalSilence := Silence(SilenceDuration);
    var signal := AssembleSignal(initialSilence, vox, vox.Length, vis, vis.Length, image, imageCount,
                                 eof, eof.Length, finalSilence);
    assert vox[..vox.Length] == vox[..] && vis[..vis.Length] == vis[..] && eof[..eof.Length] == eof[..];
    assert signal[..signal.Length] == signal[..] == Transmission(cover.value, flag.value);
    file := RenderAndSave(signal, sin);
    exitCode := 0;
  }

  /** The end of `main`: renders the whole signal and saves the samples when
      there are any. */
  method RenderAndSave(signal: array<AudioSymbol>, sin: real -> real) returns (file: Option<seq<uint8>>)
    ensures file == SavedFile(Synthesize(signal[..], SampleRate, sin))
  {
    var wav, length := GenerateWav(signal, signal.Length, SampleRate, sin);
    assert signal[..signal.Length] == signal[..];
    ghost var rendered := Synthesize(signal[..], SampleRate, sin);
    if wav != null && length > 0 {
      file := WavFileBytes(SampleRate, Some(wav[..]), length);
      assert rendered == Some(wav[..length]);
      assert wav[..][..length] == wav[..length] == wav[..length][..length];
      assert file == WavFileBytes(SampleRate, Some(wav[..length]), length);
    } else {
      file := None;
      assert rendered.None? || rendered == Some([]);
    }
  }
}
