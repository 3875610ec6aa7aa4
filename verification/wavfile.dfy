/** The bytes `save_wav_file` writes: a 44-byte RIFF/WAVE header for mono
    16-bit PCM followed by the samples, every multi-byte field little-endian.
    Opening, writing and closing the file are left out; this is the content. */
module WavFile {
  import opened Protocol
  import opened Symbols
  import opened Synth

  const Two16: int := 0x1_0000
  const Two32: int := 0x1_0000_0000

  /** A 16-bit field as the two bytes written for it, low byte first; the
      value is taken modulo 2^16, as a store into a 16-bit integer does. */
  function Le16(v: int): (b: seq<uint8>)
    ensures |b| == 2
  {
    var u := v % Two16;
    [(u % 256) as uint8, (u / 256) as uint8]
  }

  /** A 32-bit field as the four bytes written for it, low byte first; the
      value is taken modulo 2^32, as a store into an int32_t does. */
  function Le32(v: int): (b: seq<uint8>)
    ensures |b| == 4
  {
    var u := v % Two32;
    [(u % 256) as uint8, (u / 256 % 256) as uint8, (u / 0x1_0000 % 256) as uint8, (u / 0x100_0000) as uint8]
  }

  /** The unsigned value of two little-endian bytes. */
  function ReadLe16(b: seq<uint8>): int
    requires |b| == 2
  {
    b[0] as int + 256 * b[1] as int
  }

  /** The unsigned value of four little-endian bytes. */
  function ReadLe32(b: seq<uint8>): int
    requires |b| == 4
  {
    b[0] as int + 256 * b[1] as int + 0x1_0000 * b[2] as int + 0x100_0000 * b[3] as int
  }

  /** The two's complement value of two little-endian bytes. */
  function ReadInt16(b: seq<uint8>): int
    requires |b| == 2
  {
    var u := ReadLe16(b);
    if u < 0x8000 then u else u - Two16
  }

  lemma Le16RoundTrip(v: int)
    ensures ReadLe16(Le16(v)) == v % Two16
  {
  }

  lemma ReadLe16RoundTrip(b: seq<uint8>)
    requires |b| == 2
    ensures 0 <= ReadLe16(b) < Two16 && Le16(ReadLe16(b)) == b
  {
  }

  lemma {:induction false} Le32RoundTrip(v: int)
    ensures ReadLe32(Le32(v)) == v % Two32
  {
    var u := v % Two32;
    var q1, q2 := u / 256, u / 0x1_0000;
    assert u == u % 256 + 256 * q1;
    assert q1 == q1 % 256 + 256 * (q1 / 256);
    assert q1 / 256 == q2;
    assert q2 == q2 % 256 + 256 * (q2 / 256);
    assert q2 / 256 == u / 0x100_0000;
  }

  lemma {:induction false} ReadLe32RoundTrip(b: seq<uint8>)
    requires |b| == 4
    ensures 0 <= ReadLe32(b) < Two32 && Le32(ReadLe32(b)) == b
  {
    var u := ReadLe32(b);
    var hi := b[1] as int + 256 * b[2] as int + 0x1_0000 * b[3] as int;
    assert u == b[0] as int + 256 * hi;
    assert u % 256 == b[0] as int && u / 256 == hi;
    var hi2 := b[2] as int + 256 * b[3] as int;
    assert hi == b[1] as int + 256 * hi2;
    assert hi % 256 == b[1] as int && hi / 256 == hi2;
    assert u / 0x1_0000 == hi2;
    assert u / 0x100_0000 == b[3] as int;
  }

  /** A four-letter chunk identifier as its ASCII bytes. */
  function Tag(a: char, b: char, c: char, d: char): seq<uint8>
    requires a < 128 as char && b < 128 as char && c < 128 as char && d < 128 as char
  {
    [a as int as uint8, b as int as uint8, c as int as uint8, d as int as uint8]
  }

  /** The RIFF chunk header: the tag, the chunk size 36 + 2 * length, the
      WAVE form type. */
  function RiffPart(length: int): (b: seq<uint8>)
    ensures |b| == 12
  {
    Tag('R', 'I', 'F', 'F') + Le32(36 + length * 2) + Tag('W', 'A', 'V', 'E')
  }

  /** The format chunk: 16 bytes of PCM format (1), one channel, then the
      rates and sizes. */
  function FmtPart(rate: int): (b: seq<uint8>)
    ensures |b| == 24
  {
    Tag('f', 'm', 't', ' ') + Le32(16) + Le16(1) + Le16(1) + FmtRates(rate)
  }

  /** The rate, the byte rate of one 2-byte channel, the block size and the
      bits per sample. */
  function FmtRates(rate: int): (b: seq<uint8>)
    ensures |b| == 12
  {
    Le32(rate) + Le32(rate * 1 * 2) + Le16(1 * 2) + Le16(2 * 8)
  }

  /** The data chunk header: the tag and the 2 * length data bytes. */
  function DataPart(length: int): (b: seq<uint8>)
    ensures |b| == 8
  {
    Tag('d', 'a', 't', 'a') + Le32(length * 2)
  }

  /** The header of a mono 16-bit PCM file of `length` samples at `rate`. */
  function WavHeader(rate: int, length: int): (h: seq<uint8>)
    ensures |h| == 44
  {
    RiffPart(length) + FmtPart(rate) + DataPart(length)
  }

  lemma RiffPartFields(length: int)
    ensures var b := RiffPart(length);
      b[0..4] == Tag('R', 'I', 'F', 'F') && ReadLe32(b[4..8]) == (36 + 2 * length) % Two32 &&
      b[8..12] == Tag('W', 'A', 'V', 'E')
  {
    var b := RiffPart(length);
    assert b[4..8] == Le32(36 + length * 2);
    Le32RoundTrip(36 + length * 2);
  }

  lemma FmtPartFields(rate: int)
    ensures var b := FmtPart(rate);
      b[0..4] == Tag('f', 'm', 't', ' ') && ReadLe32(b[4..8]) == 16 &&
      ReadLe16(b[8..10]) == 1 && ReadLe16(b[10..12]) == 1 &&
      ReadLe32(b[12..16]) == rate % Two32 && ReadLe32(b[16..20]) == (2 * rate) % Two32 &&
      ReadLe16(b[20..22]) == 2 && ReadLe16(b[22..24]) == 16
  {
    var b := FmtPart(rate);
    var r := FmtRates(rate);
    assert b[4..8] == Le32(16);
    assert b[8..10] == Le16(1) && b[10..12] == Le16(1);
    assert b[12..] == r;
    assert b[12..16] == r[0..4] && b[16..20] == r[4..8] && b[20..22] == r[8..10] && b[22..24] == r[10..12];
    FmtRatesFields(rate);
    Le32RoundTrip(16);
  }

  lemma FmtRatesFields(rate: int)
    ensures var b := FmtRates(rate);
      ReadLe32(b[0..4]) == rate % Two32 && ReadLe32(b[4..8]) == (2 * rate) % Two32 &&
      ReadLe16(b[8..10]) == 2 && ReadLe16(b[10..12]) == 16
  {
    var b := FmtRates(rate);
    assert b[0..4] == Le32(rate) && b[4..8] == Le32(rate * 1 * 2);
    var tail := Le16(1 * 2) + Le16(2 * 8);
    assert b == b[..8] + tail;
    assert b[8..10] == tail[..2] && b[10..12] == tail[2..];
    Le32RoundTrip(rate);
    Le32RoundTrip(rate * 1 * 2);
  }

  lemma DataPartFields(length: int)
    ensures var b := DataPart(length);
      b[0..4] == Tag('d', 'a', 't', 'a') && ReadLe32(b[4..8]) == (2 * length) % Two32
  {
    var b := DataPart(length);
    assert b[4..8] == Le32(length * 2);
    Le32RoundTrip(length * 2);
  }

  /** The header read back field by field: RIFF chunk size 36 + 2 * length,
      a 16-byte format chunk for PCM (1), one channel, the rate, a byte rate
      of 2 * rate, a block of 2 bytes of 16 bits, and 2 * length data bytes,
      each 32-bit size wrapped to 32 bits. */
  lemma WavHeaderFields(rate: int, length: int)
    ensures var h := WavHeader(rate, length);
      h[0..4] == Tag('R', 'I', 'F', 'F') &&
      ReadLe32(h[4..8]) == (36 + 2 * length) % Two32 &&
      h[8..12] == Tag('W', 'A', 'V', 'E') &&
      h[12..16] == Tag('f', 'm', 't', ' ') &&
      ReadLe32(h[16..20]) == 16 &&
      ReadLe16(h[20..22]) == 1 &&
      ReadLe16(h[22..24]) == 1 &&
      ReadLe32(h[24..28]) == rate % Two32 &&
      ReadLe32(h[28..32]) == (2 * rate) % Two32 &&
      ReadLe16(h[32..34]) == 2 &&
      ReadLe16(h[34..36]) == 16 &&
      h[36..40] == Tag('d', 'a', 't', 'a') &&
      ReadLe32(h[40..44]) == (2 * length) % Two32
  {
    var h := WavHeader(rate, length);
    var r, f, d := RiffPart(length), FmtPart(rate), DataPart(length);
    RiffPartFields(length);
    FmtPartFields(rate);
    DataPartFields(length);
    assert h[..12] == r && h[12..36] == f && h[36..] == d;
    assert h[0..4] == r[0..4] && h[4..8] == r[4..8] && h[8..12] == r[8..12];
    assert h[12..16] == f[0..4] && h[16..20] == f[4..8] && h[20..22] == f[8..10] && h[22..24] == f[10..12];
    assert h[24..28] == f[12..16] && h[28..32] == f[16..20] && h[32..34] == f[20..22] && h[34..36] == f[22..24];
    assert h[36..40] == d[0..4] && h[40..44] == d[4..8];
  }

  /** The samples as written: two bytes each, low byte first. */
  function SampleBytes(samples: seq<int16>): (b: seq<uint8>)
    ensures |b| == 2 * |samples|
  {
    if samples == [] then [] else Le16(samples[0] as int) + SampleBytes(samples[1..])
  }

  /** Every sample reads back from its two bytes. */
  lemma {:induction false} SampleBytesRoundTrip(samples: seq<int16>, k: int)
    requires 0 <= k < |samples|
    ensures ReadInt16(SampleBytes(samples)[2 * k..2 * k + 2]) == samples[k] as int
  {
    var b := SampleBytes(samples);
    if k == 0 {
      assert b[0..2] == Le16(samples[0] as int);
      Le16RoundTrip(samples[0] as int);
    } else {
      SampleBytesRoundTrip(samples[1..], k - 1);
      assert b[2 * k..2 * k + 2] == SampleBytes(samples[1..])[2 * (k - 1)..2 * (k - 1) + 2];
    }
  }

  /** `save_wav_file`: nothing is written without data or with a length of 0;
      otherwise the header and the first `length` samples. */
  function WavFileBytes(rate: int, data: Option<seq<int16>>, length: int): (file: Option<seq<uint8>>)
    requires data.Some? ==> 0 <= length <= |data.value|
    ensures file.Some? <==> data.Some? && length != 0
    ensures file.Some? ==> |file.value| == 44 + 2 * length
  {
    if data.None? || length == 0 then None
    else Some(WavHeader(rate, length) + SampleBytes(data.value[..length]))
  }

  /** In a file of fewer than 2^31 - 18 samples the RIFF chunk size is the
      file size minus the 8 bytes of the RIFF chunk header, and the data
      chunk size is the number of sample bytes that follow the header. */
  lemma WavFileSizes(rate: int, samples: seq<int16>)
    requires 0 < |samples| < 0x7fff_ffee
    ensures var file := WavFileBytes(rate, Some(samples), |samples|).value;
      ReadLe32(file[4..8]) == |file| - 8 &&
      ReadLe32(file[40..44]) == |file| - 44
  {
    var n := |samples|;
    var file := WavFileBytes(rate, Some(samples), n).value;
    WavFileSizeFields(rate, samples);
    RiffPartFields(n);
    DataPartFields(n);
    SmallMod32(36 + 2 * n);
    SmallMod32(2 * n);
    assert ReadLe32(file[4..8]) == 36 + 2 * n;
    assert ReadLe32(file[40..44]) == 2 * n;
  }

  lemma SmallMod32(x: int)
    requires 0 <= x < Two32
    ensures x % Two32 == x
  {
  }

  /** The size fields of a file are those of its RIFF and data chunk headers. */
  lemma WavFileSizeFields(rate: int, samples: seq<int16>)
    requires 0 < |samples|
    ensures var file := WavFileBytes(rate, Some(samples), |samples|).value;
      |file| == 44 + 2 * |samples| &&
      file[4..8] == RiffPart(|samples|)[4..8] && file[40..44] == DataPart(|samples|)[4..8]
  {
    var file := WavFileBytes(rate, Some(samples), |samples|).value;
    var h := WavHeader(rate, |samples|);
    assert file[..44] == h;
    assert h[..12] == RiffPart(|samples|) && h[36..] == DataPart(|samples|);
  }
}
