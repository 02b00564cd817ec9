/** The library's audio description (`AudioSpec`), the sample range of a bit depth, and
    the normalised sample buffer `NormSamples`. Floating-point samples are reals; the
    rounding of `f32` is not modelled. */
module AudioTypes {
  import opened Ints
  import opened Optional

  datatype SampleEncoding = F32 | I32

  /** `AudioSpec::new(sr, bps, channels, encoding)`; the getters `sample_rate`,
      `bits_per_sample`, `channels` and `encoding` are the fields. */
  datatype AudioSpec = AudioSpec(sr: u32, bps: u16, channels: u16, encoding: SampleEncoding)

  /** The largest and the smallest sample value of a signed bit depth. */
  datatype Magnitudes = Magnitudes(positive: int, negative: int)

  /** `2i32.pow(bd - 1) - 1` and its negation minus one. The computation panics when
      `bd - 1` underflows (`bd == 0`) and when `2i32.pow(bd - 1)` overflows `i32`
      (`bd >= 32`). */
  function BitDepthMagnitudes(bd: nat): (m: Option<Magnitudes>)
    ensures m.Some? <==> 1 <= bd <= 31
    ensures m.Some? ==> bd >= 1 && m.value.positive + 1 == Pow2(bd - 1) && m.value.negative == -(Pow2(bd - 1) as int)
    ensures m.Some? ==> m.value.positive - m.value.negative + 1 == Pow2(bd)
    ensures m.Some? ==> 0 <= m.value.positive <= I32_MAX && I32_MIN <= m.value.negative < 0
  {
    if bd == 0 then None                  // `bd - 1` underflows `u32`
    else if bd - 1 >= 31 then None        // `2i32.pow(bd - 1)` overflows `i32`
    else
      Pow2At31();
      Pow2Monotone(bd - 1, 30);
      Pow2Add(1, 30);
      var positive := Pow2(bd - 1) - 1;
      Some(Magnitudes(positive, -positive - 1))
  }

  /** `AudioSpec::get_magnitudes`: the `i32` range of the specification's bit depth. */
  function GetMagnitudes(spec: AudioSpec): (m: Option<Magnitudes>)
    ensures m.Some? <==> 1 <= spec.bps <= 31
    ensures m.Some? ==> m.value.positive - m.value.negative + 1 == Pow2(spec.bps)
    ensures m.Some? ==> m.value.negative == -m.value.positive - 1
  {
    BitDepthMagnitudes(spec.bps)
  }

  /** The divisor `i32_to_f32` uses for a bit depth: `i16::MAX` for 16 bits, `i32::MAX`
      for 32 bits; any other depth panics. */
  function NormScale(bps: nat): (scale: Option<real>)
    ensures scale.Some? <==> bps == 16 || bps == 32
    ensures scale.Some? ==> scale.value > 0.0
  {
    if bps == 16 then Some(I16_MAX as real)
    else if bps == 32 then Some(I32_MAX as real)
    else None
  }

  /** The samples of `samples` divided by `scale`, in order. */
  function Scaled(samples: seq<i32>, scale: real): (r: seq<real>)
    requires scale > 0.0
    ensures |r| == |samples|
    ensures forall i :: 0 <= i < |r| ==> r[i] * scale == samples[i] as real
  {
    seq(|samples|, i requires 0 <= i < |samples| => samples[i] as real / scale)
  }

  /** `NormSamples::new`. */
  function NewNormSamples(): (ns: seq<real>)
    ensures |ns| == 0
  {
    []
  }

  /** `NormSamples::extend`: the new samples go after the existing ones. */
  function Extend(ns: seq<real>, samples: seq<real>): (r: seq<real>)
    ensures |r| == |ns| + |samples|
    ensures r[..|ns|] == ns && r[|ns|..] == samples
  {
    ns + samples
  }

  /** `NormSamples::extend_i32`: every sample is pushed after normalisation; an
      unsupported bit depth panics at the first sample, so only a non-empty input can
      fail. */
  function ExtendI32(ns: seq<real>, samples: seq<i32>, spec: AudioSpec): (r: Option<seq<real>>)
    ensures r.None? <==> |samples| > 0 && spec.bps != 16 && spec.bps != 32
    ensures r.Some? ==> |r.value| == |ns| + |samples| && r.value[..|ns|] == ns
    ensures r.Some? && |samples| > 0 ==>
              forall i :: 0 <= i < |samples| ==> r.value[|ns| + i] * NormScale(spec.bps).value == samples[i] as real
  {
    if |samples| == 0 then Some(ns)
    else match NormScale(spec.bps)
      case None => None
      case Some(scale) => Some(ns + Scaled(samples, scale))
  }

  /** `NormSamples::from_i32`. */
  function FromI32(samples: seq<i32>, spec: AudioSpec): (r: Option<seq<real>>)
    ensures r.None? <==> |samples| > 0 && spec.bps != 16 && spec.bps != 32
    ensures r.Some? ==> |r.value| == |samples|
  {
    ExtendI32([], samples, spec)
  }

  /** Extending twice is extending once with the concatenation. */
  lemma ExtendI32Append(ns: seq<real>, a: seq<i32>, b: seq<i32>, spec: AudioSpec)
    ensures ExtendI32(ns, a + b, spec) ==
              match ExtendI32(ns, a, spec)
              case None => None
              case Some(ns') => ExtendI32(ns', b, spec)
  {
    if |a| > 0 && |b| > 0 && NormScale(spec.bps).Some? {
      var scale := NormScale(spec.bps).value;
      assert Scaled(a + b, scale) == Scaled(a, scale) + Scaled(b, scale);
      assert ns + Scaled(a + b, scale) == (ns + Scaled(a, scale)) + Scaled(b, scale);
    } else if |a| == 0 {
      assert a + b == b;
    } else if |b| == 0 {
      assert a + b == a;
    }
  }
}
