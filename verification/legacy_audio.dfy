/** The older crate's audio description (`SampleSpec`), its sample-range helpers and its
    conversions from and to the WAV header. */
module LegacyAudio {
  import opened Ints
  import opened Optional
  import Wav
  import AudioTypes

  datatype SampleEncoding = Float | Int

  /** `SampleSpec::new(sr, bps, channels, encoding)`; the getters are the fields. */
  datatype SampleSpec = SampleSpec(sr: u32, bps: u16, channels: u16, encoding: SampleEncoding)

  /** `get_bit_depth_magnitudes` for a sample specification: the range of its bits per
      sample, or a panic when that is 0 or above 31. */
  function GetBitDepthMagnitudes(spec: SampleSpec): (m: Option<AudioTypes.Magnitudes>)
    ensures m.Some? <==> 1 <= spec.bps <= 31
    ensures m.Some? ==> m.value.negative == -m.value.positive - 1
    ensures m.Some? ==> m.value.positive - m.value.negative + 1 == Pow2(spec.bps)
  {
    AudioTypes.BitDepthMagnitudes(spec.bps)
  }

  function EncodingOf(f: Wav.SampleFormat): (e: SampleEncoding)
    ensures e == Float <==> f == Wav.Float
    ensures e == Int <==> f == Wav.Int
  {
    match f
    case Float => Float
    case Int => Int
  }

  function FormatOf(e: SampleEncoding): (f: Wav.SampleFormat)
    ensures f == Wav.Float <==> e == Float
    ensures f == Wav.Int <==> e == Int
  {
    match e
    case Float => Wav.Float
    case Int => Wav.Int
  }

  function SampleSpecOf(w: Wav.WavSpec): (spec: SampleSpec)
    ensures spec.sr == w.sampleRate && spec.bps == w.bitsPerSample && spec.channels == w.channels
    ensures spec.encoding == EncodingOf(w.sampleFormat)
  {
    SampleSpec(w.sampleRate, w.bitsPerSample, w.channels, EncodingOf(w.sampleFormat))
  }

  function WavSpecOf(spec: SampleSpec): (w: Wav.WavSpec)
    ensures w.sampleRate == spec.sr && w.bitsPerSample == spec.bps && w.channels == spec.channels
    ensures w.sampleFormat == FormatOf(spec.encoding)
  {
    Wav.WavSpec(spec.channels, spec.sr, spec.bps, FormatOf(spec.encoding))
  }

  lemma EncodingRoundTrips(f: Wav.SampleFormat, e: SampleEncoding)
    ensures FormatOf(EncodingOf(f)) == f
    ensures EncodingOf(FormatOf(e)) == e
  {
  }

  lemma SpecRoundTrips(w: Wav.WavSpec, spec: SampleSpec)
    ensures WavSpecOf(SampleSpecOf(w)) == w
    ensures SampleSpecOf(WavSpecOf(spec)) == spec
  {
  }
}
