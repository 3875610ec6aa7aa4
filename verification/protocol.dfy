/** The compiled-in constants of the encoder: sample rate, image geometry,
    scanline timing and the frequencies of the colour SSTV mode it emits. */
module Protocol {
  const SampleRate: int := 96000

  const CoverWidth: int := 320
  const CoverHeight: int := 256

  const FlagWidth: int := 16
  const FlagHeight: int := 16
  /** First cover row that carries a flag segment. */
  const FlagPosY: int := 44

  const ScanlineDuration: real := 0.13974
  const FlagSegmentDuration: real := 0.0464

  const HSyncFreq: real := 1200.0
  const HSyncDuration: real := 0.009

  const PorchFreq: real := 1500.0
  const PixelFreqMin: real := 1500.0
  const PixelFreqMax: real := 2300.0
  const PixelFreqRange: real := PixelFreqMax - PixelFreqMin

  const FlagPadSyncFreq: real := 2300.0
  const FlagPixelFreqMin: real := 1550.0
  const FlagPixelFreqMax: real := 2250.0
  const FlagPixelFreqRange: real := FlagPixelFreqMax - FlagPixelFreqMin

  const VoxToneDuration: real := 0.1
  const VisShortDuration: real := 0.01
  const VisLongDuration: real := 0.03
  const EofToneDuration: real := 0.1
  const SilenceDuration: real := 0.1

  /** INT32_MAX, the ceiling on the total sample count. */
  const Int32Max: int := 0x7fff_ffff

  /** A pixel component as the image loader delivers it. */
  newtype uint8 = x: int | 0 <= x < 0x100

  /** M_PI as the program defines it. */
  const Pi: real := 3.14159265358979323846
}
