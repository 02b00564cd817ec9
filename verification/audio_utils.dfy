/** Sample-range helpers of the library: the bit depth of a source (`IntoBitDepth`), the
    sample range of that depth (`get_bit_depth_magnitudes`), and sample-type conversions
    (`Scalar`). */
module AudioUtils {
  import opened Ints
  import opened Optional
  import opened Wav
  import opened AudioTypes
  import SpecConversions

  /** A bit depth given as a `usize`: `self as u32` keeps the low 32 bits. */
  function UsizeBitDepth(x: u64): (bd: u32)
    ensures x < U32_LIMIT ==> bd == x
    ensures (bd - x) % U32_LIMIT == 0
  {
    x % U32_LIMIT
  }

  /** The bit depth of a WAV header: its bits per sample. */
  function WavBitDepth(w: WavSpec): u32 {
    w.bitsPerSample
  }

  /** The bit depth of an audio description: its bits per sample. */
  function SpecBitDepth(spec: AudioSpec): u32 {
    spec.bps
  }

  /** `get_bit_depth_magnitudes`: the largest and smallest sample of the bit depth, or a
      panic when the depth is 0 or above 31. */
  function GetBitDepthMagnitudes(bd: u32): (m: Option<Magnitudes>)
    ensures m.Some? <==> 1 <= bd <= 31
    ensures m.Some? ==> m.value.negative == -m.value.positive - 1
    ensures m.Some? ==> m.value.positive - m.value.negative + 1 == Pow2(bd)
  {
    BitDepthMagnitudes(bd)
  }

  /** A WAV header and the audio description converted from it (either way) report the
      same bit depth. */
  lemma BitDepthsAgree(w: WavSpec, spec: AudioSpec)
    ensures SpecBitDepth(SpecConversions.AudioSpecOf(w)) == WavBitDepth(w)
    ensures WavBitDepth(SpecConversions.WavSpecOf(spec)) == SpecBitDepth(spec)
  {
  }

  /** `get_bit_depth_magnitudes` of an audio description, of its WAV header, and the
      description's own `get_magnitudes` give the same range. */
  lemma MagnitudesAgree(spec: AudioSpec)
    ensures GetBitDepthMagnitudes(SpecBitDepth(spec)) == GetMagnitudes(spec)
    ensures GetBitDepthMagnitudes(WavBitDepth(SpecConversions.WavSpecOf(spec))) == GetMagnitudes(spec)
  {
  }

  /** `Scalar::to_i32` on an `f32`: `as i32`, truncating toward zero and saturating. */
  function F32ToI32(x: real): (r: i32)
    ensures I32_MIN as real <= x <= I32_MAX as real ==> -1.0 < x - r as real < 1.0
    ensures 0.0 <= x ==> 0 <= r && r as real <= x
    ensures x <= 0.0 ==> r <= 0 && x <= r as real
  {
    TruncateToI32(x)
  }

  /** A whole number in range survives `as i32` unchanged. */
  lemma F32ToI32OnIntegers(x: i32)
    ensures F32ToI32(x as real) == x
  {
  }
}
