/** `convert_flag_row_to_symbols`: one row of the grayscale flag image as a
    run of tones, framed by two 2300 Hz padding tones, that fills a fixed
    time slot after a cover scanline. */
module FlagRow {
  import opened Protocol
  import opened Symbols

  /** The tone frequency of a flag pixel: 1550 Hz for black up to 2250 Hz for
      white, linear in the pixel value. */
  function FlagPixelFreq(p: uint8): (f: real)
    ensures FlagPixelFreqMin <= f <= FlagPixelFreqMax
    ensures p == 0 ==> f == FlagPixelFreqMin
    ensures p == 255 ==> f == FlagPixelFreqMax
  {
    FlagPixelFreqMin + FlagPixelFreqRange * p as real / 255.0
  }

  lemma FlagPixelFreqBounds(p: uint8, q: uint8)
    ensures FlagPixelFreq(0) == 1550.0 && FlagPixelFreq(255) == 2250.0
    ensures 1550.0 <= FlagPixelFreq(p) <= 2250.0
    ensures p < q <==> FlagPixelFreq(p) < FlagPixelFreq(q)
    ensures FlagPixelFreq(q) - FlagPixelFreq(p) == (q as real - p as real) * FlagPixelFreqRange / 255.0
  {
  }

  /** The padding tone at both ends of a flag row. */
  function FlagPad(duration: real): AudioSymbol
  {
    Tone(duration, FlagPadSyncFreq, 1.0, 0.0)
  }

  /** The tones for the first n pixels of `row` in a slot of `total` seconds:
      15% of the slot for each padding tone, the remaining 70% shared equally
      by the pixels. No symbols for a non-positive pixel count. */
  function FlagRowSymbols(row: seq<uint8>, n: int, total: real): (r: Option<seq<AudioSymbol>>)
    requires n <= |row|
    ensures r.None? <==> n <= 0
    ensures r.Some? ==> |r.value| == n + 2
  {
    if n <= 0 then None
    else
      Some([FlagPad(total * 0.15)]
           + seq(n, i requires 0 <= i < n => Tone(total * 0.70 / n as real, FlagPixelFreq(row[i]), 1.0, 0.0))
           + [FlagPad(total * 0.15)])
  }

  /** `convert_flag_row_to_symbols`: no array and a count of 0 for a
      non-positive pixel count; otherwise a fresh array of n + 2 symbols
      filled front to back. */
  method ConvertFlagRowToSymbols(row: seq<uint8>, n: int, total: real)
    returns (syms: array?<AudioSymbol>, count: int)
    requires n <= |row|
    ensures syms == null <==> FlagRowSymbols(row, n, total).None?
    ensures syms == null ==> count == 0
    ensures syms != null ==> fresh(syms)
    ensures syms != null ==> count == syms.Length && FlagRowSymbols(row, n, total) == Some(syms[..])
  {
    if n <= 0 {
      return null, 0;
    }
    count := n + 2;
    syms := new AudioSymbol[count];
    ghost var want := FlagRowSymbols(row, n, total).value;
    var index := 0;
    var initialPadding := total * 0.15;
    var pixelsBlock := total * 0.70;
    var finalPadding := total * 0.15;
    var pixelDuration := pixelsBlock / n as real;
    syms[index] := Tone(initialPadding, FlagPadSyncFreq, 1.0, 0.0);
    index := index + 1;
    for i := 0 to n
      invariant index == i + 1
      invariant forall k :: 0 <= k < index ==> syms[k] == want[k]
    {
      var freq := FlagPixelFreqMin + FlagPixelFreqRange * row[i] as real / 255.0;
      syms[index] := Tone(pixelDuration, freq, 1.0, 0.0);
      index := index + 1;
    }
    syms[index] := Tone(finalPadding, FlagPadSyncFreq, 1.0, 0.0);
    index := index + 1;
    assert index == count;
    assert syms[..] == want;
  }

  /** The layout of a flag row: a 2300 Hz pad of 15% of the slot, one tone of
      70%/n of the slot per pixel at that pixel's frequency, and a second pad
      of 15%; together exactly the slot. */
  lemma FlagRowShape(row: seq<uint8>, n: int, total: real)
    requires 0 < n <= |row|
    ensures var r := FlagRowSymbols(row, n, total).value;
      r[0] == r[n + 1] == Tone(total * 0.15, 2300.0, 1.0, 0.0) &&
      (forall i :: 1 <= i <= n ==> r[i] == Tone(total * 0.70 / n as real, FlagPixelFreq(row[i - 1]), 1.0, 0.0)) &&
      TotalDuration(r) == total
  {
    var r := FlagRowSymbols(row, n, total).value;
    var pixels := r[1..n + 1];
    assert r == [r[0]] + pixels + [r[n + 1]];
    UniformDuration(pixels, total * 0.70 / n as real);
    ShareOfSlot(total * 0.70, n);
    TotalDurationAppend([r[0]] + pixels, [r[n + 1]]);
    TotalDurationAppend([r[0]], pixels);
  }

  /** n equal shares of a block add up to the block. */
  lemma ShareOfSlot(block: real, n: int)
    requires n > 0
    ensures n as real * (block / n as real) == block
  {
  }
}
