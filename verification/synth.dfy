/** The sample synthesizer (`generate_wav`): renders a symbol sequence into
    16-bit PCM samples with one running oscillator phase carried across
    symbol boundaries. Only the sine itself is left abstract: it is the
    parameter `sin`. */
module Synth {
  import opened Protocol
  import opened Symbols

  newtype int16 = x: int | -0x8000 <= x < 0x8000

  const TwoPi: real := 2.0 * Pi
  const FullScale: real := 32767.0

  /** `fmod(x, 2π)`: the remainder of the division truncated toward zero,
      which keeps the sign of x and lies strictly inside (-2π, 2π). */
  function FmodTwoPi(x: real): (r: real)
    ensures -TwoPi < r < TwoPi
    ensures x >= 0.0 ==> r >= 0.0
    ensures x <= 0.0 ==> r <= 0.0
  {
    var q := x / TwoPi;
    var t := Trunc(q);
    assert x - t as real * TwoPi == (q - t as real) * TwoPi;
    x - t as real * TwoPi
  }

  /** The `(int16_t)` cast of a double: truncation toward zero. C leaves values
      outside the 16-bit range undefined; the model wraps them modulo 2^16. */
  function ToInt16(x: real): (v: int16)
    ensures -32768.0 < x < 32768.0 ==> v as int == Trunc(x)
  {
    var t := Trunc(x);
    ((t + 0x8000) % 0x1_0000 - 0x8000) as int16
  }

  /** With an amplitude and a sine value in [-1, 1], the scaled sample is in the
      16-bit range, so the cast is plain truncation and never wraps. */
  lemma ScaledSampleIsExact(amplitude: real, s: real)
    requires -1.0 <= amplitude <= 1.0 && -1.0 <= s <= 1.0
    ensures -FullScale <= amplitude * s * FullScale <= FullScale
    ensures ToInt16(amplitude * s * FullScale) as int == Trunc(amplitude * s * FullScale)
  {
    ProductInUnitRange(amplitude, s);
    var x := amplitude * s * FullScale;
    assert x == (amplitude * s) * 32767.0;
    assert -32768.0 < x < 32768.0;
  }

  lemma ProductInUnitRange(a: real, b: real)
    requires -1.0 <= a <= 1.0 && -1.0 <= b <= 1.0
    ensures -1.0 <= a * b <= 1.0
  {
    var aa := if a >= 0.0 then a else -a;
    var bb := if b >= 0.0 then b else -b;
    assert aa * bb == (if (a >= 0.0) == (b >= 0.0) then a * b else -(a * b));
    assert 0.0 <= aa * bb by { assert 0.0 <= aa && 0.0 <= bb; }
    assert aa * bb <= bb by { assert (1.0 - aa) * bb >= 0.0; }
  }

  /** Phase advance per sample for a frequency: `2π f / rate`. */
  function AngularStep(freq: real, rate: int): real
    requires rate != 0
  {
    2.0 * Pi * freq / rate as real
  }

  /** Sample j of a tone whose phase is `start` at its first sample. */
  function ToneSample(amplitude: real, step: real, start: real, j: int, sin: real -> real): int16
  {
    ToInt16(amplitude * sin(j as real * step + start) * FullScale)
  }

  function ToneSamples(amplitude: real, step: real, start: real, n: nat, sin: real -> real): (r: seq<int16>)
    ensures |r| == n
  {
    seq(n, j => ToneSample(amplitude, step, start, j, sin))
  }

  /** Phase advance at sample j of an n-sample sweep: the instantaneous
      frequency moves linearly from fStart (j = 0) toward fEnd (j = n). */
  function SweepStep(fStart: real, fEnd: real, j: nat, n: nat, rate: int): real
    requires n > 0 && rate != 0
  {
    AngularStep(InstantaneousFreq(fStart, fEnd, j, n), rate)
  }

  function InstantaneousFreq(fStart: real, fEnd: real, j: nat, n: nat): real
    requires n > 0
  {
    fStart + (fEnd - fStart) * j as real / n as real
  }

  /** The phase of an n-sample sweep at sample j, accumulated sample by sample
      from p0 and reduced modulo 2π after every step. */
  function SweepPhase(fStart: real, fEnd: real, p0: real, j: nat, n: nat, rate: int): (p: real)
    requires j <= n && rate != 0
    ensures j > 0 ==> -TwoPi < p < TwoPi
    decreases j
  {
    if j == 0 then p0
    else FmodTwoPi(SweepPhase(fStart, fEnd, p0, j - 1, n, rate) + SweepStep(fStart, fEnd, j - 1, n, rate))
  }

  /** The sample a sweep writes at phase p. */
  function SweepSample(amplitude: real, p: real, sin: real -> real): int16
  {
    ToInt16(amplitude * sin(p) * FullScale)
  }

  function SweepSamples(fStart: real, fEnd: real, amplitude: real, p0: real, n: nat, rate: int, sin: real -> real): (r: seq<int16>)
    requires rate != 0
    ensures |r| == n
  {
    seq(n, j requires 0 <= j < n => SweepSample(amplitude, SweepPhase(fStart, fEnd, p0, j, n, rate), sin))
  }

  /** The phase after n samples of a tone that starts at `start`. */
  function TonePhaseAfter(step: real, start: real, n: nat): real
  {
    FmodTwoPi(start + n as real * step)
  }

  /** What one symbol contributes: its samples and the running phase after it. */
  datatype Rendered = Rendered(samples: seq<int16>, phase: real)

  /** Renders `sym` to exactly n samples starting from the running phase.
      Silence is all zeros; only a tone or a sweep that writes at least one
      sample moves the running phase, and then into (-2π, 2π). */
  function RenderSymbol(sym: AudioSymbol, phase: real, n: nat, rate: int, sin: real -> real): (r: Rendered)
    requires rate != 0
    ensures |r.samples| == n
    ensures sym.Silence? ==> forall k :: 0 <= k < n ==> r.samples[k] == 0
    ensures sym.Silence? || n == 0 ==> r.phase == phase
    ensures !sym.Silence? && n > 0 ==> -TwoPi < r.phase < TwoPi
  {
    match sym
    case Silence(_) =>
      Rendered(seq(n, _ => 0), phase)
    case Tone(_, freq, amplitude, offset) =>
      Rendered(ToneSamples(amplitude, AngularStep(freq, rate), FmodTwoPi(phase + offset), n, sin),
               if n > 0 then TonePhaseAfter(AngularStep(freq, rate), FmodTwoPi(phase + offset), n) else phase)
    case LinearSweep(_, fStart, fEnd, amplitude, offset) =>
      Rendered(SweepSamples(fStart, fEnd, amplitude, FmodTwoPi(phase + offset), n, rate, sin),
               if n > 0 then SweepPhase(fStart, fEnd, FmodTwoPi(phase + offset), n, n, rate) else phase)
  }

  /** The sum of the truncated per-symbol sample counts. */
  function TotalSamples(syms: seq<AudioSymbol>, rate: int): (n: int)
    ensures rate == 0 ==> n == 0
  {
    if syms == [] then 0 else SampleCount(syms[0], rate) + TotalSamples(syms[1..], rate)
  }

  lemma {:induction false} TotalSamplesNonNegative(syms: seq<AudioSymbol>, rate: int)
    requires forall k :: 0 <= k < |syms| ==> SampleCount(syms[k], rate) >= 0
    ensures TotalSamples(syms, rate) >= 0
  {
    if syms != [] {
      TotalSamplesNonNegative(syms[1..], rate);
    }
  }

  lemma {:induction false} TotalSamplesAppend(a: seq<AudioSymbol>, b: seq<AudioSymbol>, rate: int)
    ensures TotalSamples(a + b, rate) == TotalSamples(a, rate) + TotalSamples(b, rate)
  {
    if a == [] {
      assert a + b == b;
    } else {
      assert (a + b)[1..] == a[1..] + b;
      TotalSamplesAppend(a[1..], b, rate);
    }
  }

  /** Symbols of c samples each add up to |syms| * c samples. */
  lemma {:induction false} UniformSampleCount(syms: seq<AudioSymbol>, rate: int, c: int)
    requires forall i :: 0 <= i < |syms| ==> SampleCount(syms[i], rate) == c
    ensures TotalSamples(syms, rate) == |syms| * c
  {
    if syms != [] {
      UniformSampleCount(syms[1..], rate, c);
    }
  }

  /** The render loop from symbol i on, with the write cursor at `cursor` in a
      buffer of `total` samples. A symbol that would run past the end is
      clipped to the space left; when no space is left before the last symbol
      the loop stops; a negative count writes nothing. The output never
      exceeds the space left. */
  function RenderFrom(syms: seq<AudioSymbol>, i: nat, cursor: int, phase: real, total: int,
                      rate: int, sin: real -> real): (out: seq<int16>)
    requires i <= |syms| && 0 <= cursor <= total && rate != 0
    ensures |out| <= total - cursor
    decreases |syms| - i
  {
    if i == |syms| then []
    else
      match Slot(SampleCount(syms[i], rate), cursor, total, i == |syms| - 1)
      case None => []
      case Some(count) =>
        var r := RenderSymbol(syms[i], phase, count, rate, sin);
        r.samples + RenderFrom(syms, i + 1, cursor + count, r.phase, total, rate, sin)
  }

  /** How many samples a symbol that wants `want` of them gets with the cursor
      at `cursor` in a buffer of `total`: clipped to the space left, never
      negative; None when the buffer is already full and more symbols follow,
      which stops the render. */
  function Slot(want: int, cursor: int, total: int, last: bool): (r: Option<nat>)
    requires 0 <= cursor <= total
    ensures r.Some? ==> cursor + r.value <= total
    ensures r.None? <==> cursor + want > total && cursor == total && !last
    ensures r.Some? && want >= 0 && cursor + want <= total ==> r.value == want
    ensures r.Some? && cursor + want > total ==> r.value == total - cursor
    ensures r.Some? && want < 0 ==> r.value == 0
  {
    var n := if cursor + want > total then total - cursor else want;
    if cursor + want > total && n <= 0 && !last then None
    else Some(if n < 0 then 0 else n)
  }

  /** One step of the render: the symbol at `i` takes its slot, or the render stops. */
  lemma RenderFromStep(syms: seq<AudioSymbol>, i: nat, cursor: int, phase: real, total: int,
                       rate: int, sin: real -> real)
    requires i < |syms| && 0 <= cursor <= total && rate != 0
    ensures Slot(SampleCount(syms[i], rate), cursor, total, i == |syms| - 1).None? ==>
              RenderFrom(syms, i, cursor, phase, total, rate, sin) == []
    ensures forall n :: Slot(SampleCount(syms[i], rate), cursor, total, i == |syms| - 1) == Some(n) ==>
              RenderFrom(syms, i, cursor, phase, total, rate, sin) ==
              RenderSymbol(syms[i], phase, n, rate, sin).samples +
              RenderFrom(syms, i + 1, cursor + n, RenderSymbol(syms[i], phase, n, rate, sin).phase, total, rate, sin)
  {
  }

  lemma AppendAssociative<T>(a: seq<T>, b: seq<T>, c: seq<T>)
    ensures (a + b) + c == a + (b + c)
  {
  }

  /** The whole of `generate_wav`: no buffer when the summed sample count is
      zero or above INT32_MAX, otherwise the rendered samples. A negative sum
      passes both checks but then asks malloc for a size that wraps to nearly
      2^64 bytes, which fails: no buffer either. */
  function Synthesize(syms: seq<AudioSymbol>, rate: int, sin: real -> real): (r: Option<seq<int16>>)
    ensures r.Some? <==> 0 < TotalSamples(syms, rate) <= Int32Max
    ensures r.Some? ==> rate != 0 && |r.value| <= TotalSamples(syms, rate)
  {
    var total := TotalSamples(syms, rate);
    if total == 0 || total > Int32Max || total < 0 then None
    else Some(RenderFrom(syms, 0, 0, 0.0, total, rate, sin))
  }

  /** When no symbol has a negative sample count, nothing is clipped: the
      rendered length is exactly the sum of the per-symbol counts. */
  lemma {:induction false} RenderFromWritesEverything(syms: seq<AudioSymbol>, i: nat, cursor: int, phase: real,
                                                      total: int, rate: int, sin: real -> real)
    requires i <= |syms| && 0 <= cursor <= total && rate != 0
    requires forall k :: i <= k < |syms| ==> SampleCount(syms[k], rate) >= 0
    requires cursor + TotalSamples(syms[i..], rate) == total
    ensures |RenderFrom(syms, i, cursor, phase, total, rate, sin)| == TotalSamples(syms[i..], rate)
    decreases |syms| - i
  {
    if i < |syms| {
      assert syms[i..][1..] == syms[i + 1..];
      var want := SampleCount(syms[i], rate);
      var r := RenderSymbol(syms[i], phase, want, rate, sin);
      TotalSamplesNonNegative(syms[i + 1..], rate);
      RenderFromWritesEverything(syms, i + 1, cursor + want, r.phase, total, rate, sin);
    }
  }

  /** The sample count a well-formed sequence promises is what it gets: with no
      negative count and a total in (0, INT32_MAX], rendering succeeds and
      yields exactly TotalSamples samples. */
  lemma SynthesizeLength(syms: seq<AudioSymbol>, rate: int, sin: real -> real)
    requires forall k :: 0 <= k < |syms| ==> SampleCount(syms[k], rate) >= 0
    requires 0 < TotalSamples(syms, rate) <= Int32Max
    ensures Synthesize(syms, rate, sin).Some?
    ensures |Synthesize(syms, rate, sin).value| == TotalSamples(syms, rate)
  {
    assert syms[0..] == syms;
    RenderFromWritesEverything(syms, 0, 0, 0.0, TotalSamples(syms, rate), rate, sin);
  }

  /** The silence case of `generate_wav`'s switch: zeros over exactly
      [cursor, cursor + n), nothing else changes. */
  method WriteSilence(wav: array<int16>, cursor: nat, n: nat)
    requires cursor + n <= wav.Length
    modifies wav
    ensures forall k :: cursor <= k < cursor + n ==> wav[k] == 0
    ensures forall k :: 0 <= k < wav.Length && !(cursor <= k < cursor + n) ==> wav[k] == old(wav[k])
  {
    forall k | cursor <= k < cursor + n {
      wav[k] := 0;
    }
  }

  /** The tone case: writes the tone's n samples at [cursor, cursor + n) and
      nothing else, and returns the phase after them. */
  method WriteTone(wav: array<int16>, cursor: nat, tone: AudioSymbol,
                   n: nat, phase: real, rate: int, sin: real -> real) returns (newPhase: real)
    requires tone.Tone? && rate != 0 && cursor + n <= wav.Length
    modifies wav
    ensures var r := RenderSymbol(tone, phase, n, rate, sin);
      (forall k :: 0 <= k < n ==> wav[cursor + k] == r.samples[k]) && newPhase == r.phase
    ensures forall k :: 0 <= k < wav.Length && !(cursor <= k < cursor + n) ==> wav[k] == old(wav[k])
  {
    var amplitude := tone.amplitude;
    var step := AngularStep(tone.frequency, rate);
    var start := FmodTwoPi(phase + tone.phaseOffset);
    ghost var want := ToneSamples(amplitude, step, start, n, sin);
    for j := 0 to n
      invariant forall k :: 0 <= k < j ==> wav[cursor + k] == want[k]
      invariant forall k :: 0 <= k < wav.Length && !(cursor <= k < cursor + j) ==> wav[k] == old(wav[k])
    {
      wav[cursor + j] := ToneSample(amplitude, step, start, j, sin);
    }
    newPhase := phase;
    if n > 0 {
      newPhase := TonePhaseAfter(step, start, n);
    }
  }

  /** The sweep case: integrates the phase sample by sample while writing the
      n samples at [cursor, cursor + n), and returns the phase after them. */
  method WriteSweep(wav: array<int16>, cursor: nat, sweep: AudioSymbol,
                    n: nat, phase: real, rate: int, sin: real -> real) returns (newPhase: real)
    requires sweep.LinearSweep? && rate != 0 && cursor + n <= wav.Length
    modifies wav
    ensures var r := RenderSymbol(sweep, phase, n, rate, sin);
      (forall k :: 0 <= k < n ==> wav[cursor + k] == r.samples[k]) && newPhase == r.phase
    ensures forall k :: 0 <= k < wav.Length && !(cursor <= k < cursor + n) ==> wav[k] == old(wav[k])
  {
    var fStart, fEnd, amplitude := sweep.freqStart, sweep.freqEnd, sweep.amplitude;
    var p := FmodTwoPi(phase + sweep.phaseOffset);
    ghost var p0 := p;
    ghost var want := SweepSamples(fStart, fEnd, amplitude, p0, n, rate, sin);
    for j := 0 to n
      invariant p == SweepPhase(fStart, fEnd, p0, j, n, rate)
      invariant forall k :: 0 <= k < j ==> wav[cursor + k] == want[k]
      invariant forall k :: 0 <= k < wav.Length && !(cursor <= k < cursor + j) ==> wav[k] == old(wav[k])
    {
      var instantaneous := InstantaneousFreq(fStart, fEnd, j, n);
      var stepNow := AngularStep(instantaneous, rate);
      wav[cursor + j] := SweepSample(amplitude, p, sin);
      p := FmodTwoPi(p + stepNow);
    }
    newPhase := phase;
    if n > 0 {
      newPhase := p;
    }
    assert RenderSymbol(sweep, phase, n, rate, sin) == Rendered(want, newPhase);
  }

  /** The switch of `generate_wav` for one symbol: writes the symbol's n samples
      at [cursor, cursor + n) and nothing else, and returns the new phase. */
  method WriteSymbol(wav: array<int16>, cursor: nat, sym: AudioSymbol, n: nat, phase: real,
                     rate: int, sin: real -> real) returns (newPhase: real)
    requires rate != 0 && cursor + n <= wav.Length
    modifies wav
    ensures wav[..cursor + n] == old(wav[..cursor]) + RenderSymbol(sym, phase, n, rate, sin).samples
    ensures newPhase == RenderSymbol(sym, phase, n, rate, sin).phase
  {
    var r := RenderSymbol(sym, phase, n, rate, sin);
    match sym {
      case Silence(_) =>
        WriteSilence(wav, cursor, n);
        newPhase := phase;
      case Tone(_, _, _, _) =>
        newPhase := WriteTone(wav, cursor, sym, n, phase, rate, sin);
      case LinearSweep(_, _, _, _, _) =>
        newPhase := WriteSweep(wav, cursor, sym, n, phase, rate, sin);
    }
    assert wav[cursor..cursor + n] == r.samples;
    assert wav[..cursor + n] == wav[..cursor] + wav[cursor..cursor + n];
  }

  /** The first loop of `generate_wav`: the sum of the truncated per-symbol
      sample counts, in a 64-bit accumulator. */
  method SumSampleCounts(syms: array<AudioSymbol>, symCount: int, rate: int) returns (total: int)
    requires 0 <= symCount <= syms.Length
    ensures total == TotalSamples(syms[..symCount], rate)
  {
    ghost var s := syms[..symCount];
    total := 0;
    for i := 0 to symCount
      invariant total + TotalSamples(s[i..], rate) == TotalSamples(s, rate)
    {
      assert s[i..][1..] == s[i + 1..];
      total := total + SampleCount(syms[i], rate);
    }
    assert s[symCount..] == [];
  }

  /** The second loop of `generate_wav`: renders the symbols one after the
      other into `wav`, carrying the cursor and the running phase, and
      returns the final cursor. */
  method FillBuffer(wav: array<int16>, syms: array<AudioSymbol>, symCount: int, rate: int, sin: real -> real)
    returns (length: int)
    requires 0 <= symCount <= syms.Length && rate != 0
    modifies wav
    ensures 0 <= length <= wav.Length
    ensures wav[..length] == RenderFrom(syms[..symCount], 0, 0, 0.0, wav.Length, rate, sin)
  {
    ghost var whole := RenderFrom(syms[..symCount], 0, 0, 0.0, wav.Length, rate, sin);
    var cursor := 0;
    var phase := 0.0;
    var i := 0;
    while i < symCount
      invariant 0 <= i <= symCount && 0 <= cursor <= wav.Length
      invariant wav[..cursor] + RenderFrom(syms[..symCount], i, cursor, phase, wav.Length, rate, sin) == whole
    {
      var stop;
      stop, cursor, phase := WriteNext(wav, syms, symCount, i, cursor, phase, rate, sin);
      if stop {
        break;
      }
      i := i + 1;
    }
    length := cursor;
  }

  /** One pass of the `generate_wav` loop: clip the symbol's sample count to
      the space left, stop when the buffer is full and symbols remain, and
      otherwise write the symbol at the cursor. */
  method WriteNext(wav: array<int16>, syms: array<AudioSymbol>, symCount: int, i: int, cursor: int,
                   phase: real, rate: int, sin: real -> real)
    returns (stop: bool, newCursor: int, newPhase: real)
    requires 0 <= i < symCount <= syms.Length && rate != 0 && 0 <= cursor <= wav.Length
    modifies wav
    ensures stop ==> newCursor == cursor && wav[..cursor] == old(wav[..cursor]) &&
                     RenderFrom(syms[..symCount], i, cursor, phase, wav.Length, rate, sin) == []
    ensures !stop ==> cursor <= newCursor <= wav.Length &&
                      wav[..newCursor] + RenderFrom(syms[..symCount], i + 1, newCursor, newPhase, wav.Length, rate, sin)
                      == old(wav[..cursor]) + RenderFrom(syms[..symCount], i, cursor, phase, wav.Length, rate, sin)
  {
    ghost var s := syms[..symCount];
    assert s[i] == syms[i];
    RenderFromStep(s, i, cursor, phase, wav.Length, rate, sin);
    var n;
    stop, n := ClipCount(SampleCount(syms[i], rate), cursor, wav.Length, i == symCount - 1);
    if stop {
      return true, cursor, phase;
    }
    ghost var before := wav[..cursor];
    ghost var r := RenderSymbol(s[i], phase, n, rate, sin);
    ghost var rest := RenderFrom(s, i + 1, cursor + n, r.phase, wav.Length, rate, sin);
    newPhase := WriteSymbol(wav, cursor, syms[i], n, phase, rate, sin);
    AppendAssociative(before, r.samples, rest);
    newCursor := cursor + n;
  }

  /** The clipping in the `generate_wav` loop: a symbol that wants more samples
      than are left gets the rest of the buffer; with nothing left before the
      last symbol the loop stops; a negative count becomes zero. */
  method ClipCount(want: int, cursor: int, total: int, last: bool) returns (stop: bool, n: nat)
    requires 0 <= cursor <= total
    ensures stop <==> Slot(want, cursor, total, last).None?
    ensures !stop ==> Slot(want, cursor, total, last) == Some(n)
  {
    var count := want;
    if cursor + count > total {
      count := total - cursor;
      if count <= 0 && !last {
        return true, 0;
      }
    }
    if count < 0 {
      count := 0;
    }
    return false, count;
  }

  /** `generate_wav`: sums the truncated per-symbol sample counts, refuses a
      total of zero or above INT32_MAX (no buffer, length 0), otherwise fills
      a buffer of exactly that many samples and returns the final cursor as
      the length. */
  method GenerateWav(syms: array<AudioSymbol>, symCount: int, rate: int, sin: real -> real)
    returns (wav: array?<int16>, length: int)
    requires 0 <= symCount <= syms.Length
    ensures wav == null <==> Synthesize(syms[..symCount], rate, sin).None?
    ensures wav == null ==> length == 0
    ensures wav != null ==> wav.Length == TotalSamples(syms[..symCount], rate)
    ensures wav != null ==> 0 <= length <= wav.Length
    ensures wav != null ==> Synthesize(syms[..symCount], rate, sin) == Some(wav[..length])
  {
    var totalLong := SumSampleCounts(syms, symCount, rate);
    if totalLong == 0 || totalLong > Int32Max {
      return null, 0;
    }
    if totalLong < 0 {
      // malloc of the wrapped size fails
      return null, 0;
    }
    wav := new int16[totalLong];
    length := FillBuffer(wav, syms, symCount, rate, sin);
  }
}
