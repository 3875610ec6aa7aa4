/** The fixed tone sequences around the image: the VOX leader that opens the
    transmission, the VIS header that identifies the mode, and the EOF
    trailer that closes it. Each is a table of frequencies turned into tones
    of full amplitude and zero phase offset. */
module Headers {
  import opened Protocol
  import opened Symbols
  import opened Synth

  const VoxFreqs: seq<int> := [1900, 1500, 1900, 1500, 2300, 1500, 2300, 1500]
  const VisFreqs: seq<int> := [1900, 1200, 1900, 1200, 1100, 1300, 1100, 1300, 1100, 1300, 1100, 1300, 1100, 1300, 1200]
  const EofFreqs: seq<int> := [1900, 1500, 1900, 1500]

  /** A tone of amplitude 1.0 and phase offset 0, as every header tone is. */
  predicate IsUnitTone(s: AudioSymbol)
  {
    s.Tone? && s.amplitude == 1.0 && s.phaseOffset == 0.0
  }

  /** The VOX leader: one 0.1 s tone per table entry. */
  function VoxSignal(): (r: seq<AudioSymbol>)
    ensures |r| == |VoxFreqs|
    ensures forall i :: 0 <= i < |r| ==>
      IsUnitTone(r[i]) && r[i].duration == VoxToneDuration && r[i].frequency == VoxFreqs[i] as real
  {
    seq(|VoxFreqs|, i requires 0 <= i < |VoxFreqs| => Tone(VoxToneDuration, VoxFreqs[i] as real, 1.0, 0.0))
  }

  /** The duration of VIS tone i: short for the second tone and for the last
      one, long for all others. */
  function VisDuration(i: int): real
  {
    if i == 1 || i == |VisFreqs| - 1 then VisShortDuration else VisLongDuration
  }

  /** The VIS header: one tone per table entry, timed by VisDuration. */
  function VisSignal(): (r: seq<AudioSymbol>)
    ensures |r| == |VisFreqs|
    ensures forall i :: 0 <= i < |r| ==>
      IsUnitTone(r[i]) && r[i].duration == VisDuration(i) && r[i].frequency == VisFreqs[i] as real
  {
    seq(|VisFreqs|, i requires 0 <= i < |VisFreqs| => Tone(VisDuration(i), VisFreqs[i] as real, 1.0, 0.0))
  }

  /** The EOF trailer: one 0.1 s tone per table entry. */
  function EofSignal(): (r: seq<AudioSymbol>)
    ensures |r| == |EofFreqs|
    ensures forall i :: 0 <= i < |r| ==>
      IsUnitTone(r[i]) && r[i].duration == EofToneDuration && r[i].frequency == EofFreqs[i] as real
  {
    seq(|EofFreqs|, i requires 0 <= i < |EofFreqs| => Tone(EofToneDuration, EofFreqs[i] as real, 1.0, 0.0))
  }

  /** `generate_vox_signal`: fills a fresh array from the frequency table. */
  method GenerateVox() returns (syms: array<AudioSymbol>)
    ensures syms[..] == VoxSignal()
  {
    var freqs := VoxFreqs;
    syms := new AudioSymbol[|freqs|];
    for i := 0 to syms.Length
      invariant forall k :: 0 <= k < i ==> syms[k] == VoxSignal()[k]
    {
      syms[i] := Tone(VoxToneDuration, freqs[i] as real, 1.0, 0.0);
    }
  }

  /** `generate_vis_signal`: like the leader, but the tone at index 1 and the
      last tone get the short duration. */
  method GenerateVis() returns (syms: array<AudioSymbol>)
    ensures syms[..] == VisSignal()
  {
    var freqs := VisFreqs;
    var count := |freqs|;
    syms := new AudioSymbol[count];
    for i := 0 to count
      invariant forall k :: 0 <= k < i ==> syms[k] == VisSignal()[k]
    {
      var duration := if i == 1 || i == count - 1 then VisShortDuration else VisLongDuration;
      syms[i] := Tone(duration, freqs[i] as real, 1.0, 0.0);
    }
  }

  /** `generate_eof_signal`: fills a fresh array from the frequency table. */
  method GenerateEof() returns (syms: array<AudioSymbol>)
    ensures syms[..] == EofSignal()
  {
    var freqs := EofFreqs;
    syms := new AudioSymbol[|freqs|];
    for i := 0 to syms.Length
      invariant forall k :: 0 <= k < i ==> syms[k] == EofSignal()[k]
    {
      syms[i] := Tone(EofToneDuration, freqs[i] as real, 1.0, 0.0);
    }
  }

  /** The leader: eight full-amplitude tones of 0.1 s, 0.8 s and 76800 samples
      in all at the encoder's sample rate, with 1900 Hz and 2300 Hz tones
      each followed by a 1500 Hz tone. */
  lemma VoxShape()
    ensures |VoxSignal()| == 8
    ensures forall i :: 0 <= i < 8 ==> IsUnitTone(VoxSignal()[i]) && VoxSignal()[i].duration == 0.1
    ensures forall i :: 0 <= i < 8 && i % 2 == 1 ==> VoxSignal()[i].frequency == 1500.0
    ensures forall i :: 0 <= i < 8 && i % 2 == 0 ==> VoxSignal()[i].frequency == (if i < 4 then 1900.0 else 2300.0)
    ensures TotalDuration(VoxSignal()) == 0.8
    ensures TotalSamples(VoxSignal(), SampleRate) == 76800
  {
    var v := VoxSignal();
    forall i | 0 <= i < 8
      ensures v[i].frequency == (if i % 2 == 1 then 1500.0 else if i < 4 then 1900.0 else 2300.0)
    {
      assert v[i].frequency == VoxFreqs[i] as real;
      if i == 0 {
      } else if i == 1 {
      } else if i == 2 {
      } else if i == 3 {
      } else if i == 4 {
      } else if i == 5 {
      } else if i == 6 {
      } else {
        assert i == 7;
      }
    }
    UniformDuration(v, 0.1);
    assert forall i :: 0 <= i < |v| ==> SampleCount(v[i], SampleRate) == 9600;
    UniformSampleCount(v, SampleRate, 9600);
  }

  /** The VIS header: fifteen full-amplitude tones; exactly the tones at
      index 1 and 14 are short (10 ms), the rest last 30 ms. */
  lemma VisShape()
    ensures |VisSignal()| == 15
    ensures forall i :: 0 <= i < 15 ==> IsUnitTone(VisSignal()[i])
    ensures forall i :: 0 <= i < 15 ==> (VisSignal()[i].duration == 0.01 <==> i == 1 || i == 14)
    ensures forall i :: 0 <= i < 15 && i != 1 && i != 14 ==> VisSignal()[i].duration == 0.03
  {
  }

  /** The VIS header's timing, 0.41 s and 39360 samples in all, obtained from
      its four runs of equal durations: long, short, twelve long, short. */
  lemma {:induction false} VisTiming()
    ensures TotalDuration(VisSignal()) == 0.41
    ensures TotalSamples(VisSignal(), SampleRate) == 39360
  {
    var v := VisSignal();
    var head, short1, middle, short2 := v[..1], v[1..2], v[2..14], v[14..];
    assert v == head + short1 + middle + short2;
    VisTimingOfRuns(head, short1, middle, short2);
  }

  lemma {:induction false} VisTimingOfRuns(head: seq<AudioSymbol>, short1: seq<AudioSymbol>,
                                          middle: seq<AudioSymbol>, short2: seq<AudioSymbol>)
    requires |head| == 1 && |short1| == 1 && |middle| == 12 && |short2| == 1
    requires forall i :: 0 <= i < |head| ==> head[i].duration == 0.03
    requires forall i :: 0 <= i < |short1| ==> short1[i].duration == 0.01
    requires forall i :: 0 <= i < |middle| ==> middle[i].duration == 0.03
    requires forall i :: 0 <= i < |short2| ==> short2[i].duration == 0.01
    ensures TotalDuration(head + short1 + middle + short2) == 0.41
    ensures TotalSamples(head + short1 + middle + short2, SampleRate) == 39360
  {
    UniformDuration(head, 0.03);
    UniformDuration(short1, 0.01);
    UniformDuration(middle, 0.03);
    UniformDuration(short2, 0.01);
    TotalDurationAppend(head + short1 + middle, short2);
    TotalDurationAppend(head + short1, middle);
    TotalDurationAppend(head, short1);
    UniformSampleCount(head, SampleRate, 2880);
    UniformSampleCount(short1, SampleRate, 960);
    UniformSampleCount(middle, SampleRate, 2880);
    UniformSampleCount(short2, SampleRate, 960);
    TotalSamplesAppend(head + short1 + middle, short2, SampleRate);
    TotalSamplesAppend(head + short1, middle, SampleRate);
    TotalSamplesAppend(head, short1, SampleRate);
  }

  /** The trailer repeats the first half of the leader: four 0.1 s tones, 0.4 s
      and 38400 samples in all. */
  lemma EofShape()
    ensures EofSignal() == VoxSignal()[..4]
    ensures TotalDuration(EofSignal()) == 0.4
    ensures TotalSamples(EofSignal(), SampleRate) == 38400
  {
    var e := EofSignal();
    UniformDuration(e, 0.1);
    assert forall i :: 0 <= i < |e| ==> SampleCount(e[i], SampleRate) == 9600;
    UniformSampleCount(e, SampleRate, 9600);
  }
}
