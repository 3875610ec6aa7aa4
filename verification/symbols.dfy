/** The three kinds of audio event the encoder synthesizes, and the
    arithmetic on durations shared by every component. */
module Symbols {

  datatype Option<T> = None | Some(value: T)

  /** An audio symbol. Every kind carries its duration in seconds; a tone has a
      fixed frequency, a sweep moves linearly from freqStart to freqEnd.
      Frequencies are in Hz, phase offsets in radians. */
  datatype AudioSymbol =
    | Silence(duration: real)
    | Tone(duration: real, frequency: real, amplitude: real, phaseOffset: real)
    | LinearSweep(duration: real, freqStart: real, freqEnd: real, amplitude: real, phaseOffset: real)

  /** A C cast from a floating value to an integer type: truncation toward zero. */
  function Trunc(x: real): (n: int)
    ensures x >= 0.0 ==> 0 <= n && n as real <= x < n as real + 1.0
    ensures x < 0.0 ==> n <= 0 && n as real - 1.0 < x <= n as real
  {
    if x >= 0.0 then x.Floor else -((-x).Floor)
  }

  /** The number of samples a symbol is rendered to: `(long long)(duration * rate)`. */
  function SampleCount(sym: AudioSymbol, rate: int): (n: int)
    ensures sym.duration * rate as real >= 0.0 ==>
      0 <= n && n as real <= sym.duration * rate as real < n as real + 1.0
    ensures sym.duration * rate as real < 0.0 ==> n <= 0
    ensures rate == 0 ==> n == 0
  {
    Trunc(sym.duration * rate as real)
  }

  /** No symbol has a negative duration. */
  predicate NonNegativeDurations(syms: seq<AudioSymbol>)
  {
    forall k :: 0 <= k < |syms| ==> syms[k].duration >= 0.0
  }

  /** At a non-negative rate a symbol of non-negative duration has a
      non-negative sample count. */
  lemma SampleCountNonNegative(syms: seq<AudioSymbol>, rate: int)
    requires NonNegativeDurations(syms) && rate >= 0
    ensures forall k :: 0 <= k < |syms| ==> SampleCount(syms[k], rate) >= 0
  {
    forall k | 0 <= k < |syms|
      ensures SampleCount(syms[k], rate) >= 0
    {
      assert syms[k].duration * rate as real >= 0.0;
    }
  }

  /** The summed duration of a symbol sequence, in seconds. */
  function TotalDuration(syms: seq<AudioSymbol>): real
  {
    if syms == [] then 0.0 else syms[0].duration + TotalDuration(syms[1..])
  }

  lemma {:induction false} TotalDurationAppend(a: seq<AudioSymbol>, b: seq<AudioSymbol>)
    ensures TotalDuration(a + b) == TotalDuration(a) + TotalDuration(b)
  {
    if a == [] {
      assert a + b == b;
    } else {
      assert (a + b)[1..] == a[1..] + b;
      TotalDurationAppend(a[1..], b);
    }
  }

  /** A sequence of symbols that all last d seconds lasts |syms| * d seconds. */
  lemma {:induction false} UniformDuration(syms: seq<AudioSymbol>, d: real)
    requires forall i :: 0 <= i < |syms| ==> syms[i].duration == d
    ensures TotalDuration(syms) == |syms| as real * d
  {
    if syms != [] {
      UniformDuration(syms[1..], d);
    }
  }
}
