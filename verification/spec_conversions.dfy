/** Conversions between the WAV header and the library's audio description
    (`From<WavSpec> for AudioSpec` and back, `SampleFormat` and `SampleEncoding`). */
module SpecConversions {
  import opened Wav
  import opened AudioTypes

  function EncodingOf(f: SampleFormat): (e: SampleEncoding)
    ensures e == F32 <==> f == Float
    ensures e == I32 <==> f == Int
  {
    match f
    case Float => F32
    case Int => I32
  }

  function FormatOf(e: SampleEncoding): (f: SampleFormat)
    ensures f == Float <==> e == F32
    ensures f == Int <==> e == I32
  {
    match e
    case F32 => Float
    case I32 => Int
  }

  function AudioSpecOf(w: WavSpec): (spec: AudioSpec)
    ensures spec.sr == w.sampleRate && spec.bps == w.bitsPerSample && spec.channels == w.channels
    ensures spec.encoding == EncodingOf(w.sampleFormat)
  {
    AudioSpec(w.sampleRate, w.bitsPerSample, w.channels, EncodingOf(w.sampleFormat))
  }

  function WavSpecOf(spec: AudioSpec): (w: WavSpec)
    ensures w.sampleRate == spec.sr && w.bitsPerSample == spec.bps && w.channels == spec.channels
    ensures w.sampleFormat == FormatOf(spec.encoding)
  {
    WavSpec(spec.channels, spec.sr, spec.bps, FormatOf(spec.encoding))
  }

  /** Both encoding conversions undo each other. */
  lemma EncodingRoundTrips(f: SampleFormat, e: SampleEncoding)
    ensures FormatOf(EncodingOf(f)) == f
    ensures EncodingOf(FormatOf(e)) == e
  {
  }

  /** Both header conversions undo each other, on all four fields. */
  lemma SpecRoundTrips(w: WavSpec, spec: AudioSpec)
    ensures WavSpecOf(AudioSpecOf(w)) == w
    ensures AudioSpecOf(WavSpecOf(spec)) == spec
  {
  }
}
