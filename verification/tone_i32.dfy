/** The integer tone generator (`ToneGenerator` writing `i32` samples): the same tones as
    the floating-point generator, with each sine value scaled to the sample range of the
    WAV header's bit depth and truncated to an integer. The library keeps the samples in
    a vector; the older crate's generator writes the same values to a WAV file, which is
    modelled as the same growing sequence. */
module ToneI32 {
  import opened Ints
  import opened Optional
  import opened Wav
  import opened AudioTypes
  import AudioUtils
  import Tone

  /** The header's sample rate and the range of its bit depth (`p_magnitude`,
      `n_magnitude`): all a tone's samples depend on. */
  datatype Scale = Scale(sampleRate: nat, positive: int, negative: int) {

    /** A range of a bit depth between 1 and 32. */
    predicate Valid() {
      0 <= positive <= I32_MAX && I32_MIN <= negative <= 0
    }
  }

  /** The samples written so far and the scale they are written at. */
  datatype ToneGenerator = ToneGenerator(samples: seq<int>, scale: Scale) {

    /** Every sample lies in the range of the bit depth. */
    ghost predicate InRange() {
      forall i :: 0 <= i < |samples| ==> scale.negative <= samples[i] <= scale.positive
    }
  }

  /** `ToneGenerator::new(spec)`: the range comes from `get_bit_depth_magnitudes`, which
      panics for a bit depth of 0 or above 31. */
  function New(spec: WavSpec): (g: Option<ToneGenerator>)
    ensures g.Some? <==> 1 <= spec.bitsPerSample <= 31
    ensures g.Some? ==> g.value.samples == [] && g.value.scale.sampleRate == spec.sampleRate && g.value.scale.Valid()
    ensures g.Some? ==> g.value.scale.negative == -g.value.scale.positive - 1 &&
                        g.value.scale.positive - g.value.scale.negative + 1 == Pow2(spec.bitsPerSample)
  {
    match AudioUtils.GetBitDepthMagnitudes(AudioUtils.WavBitDepth(spec))
    case None => None
    case Some(m) => Some(ToneGenerator([], Scale(spec.sampleRate, m.positive, m.negative)))
  }

  /** `get_sine_magnitude`: a non-negative sine is scaled by `p_magnitude`, a negative one
      by `|n_magnitude|`. */
  function SineMagnitude(trig: Tone.Trig, sc: Scale, idx: nat, frequency: real): (v: real)
    ensures trig.Bounded() && 0 <= sc.positive && sc.negative <= 0 ==>
              sc.negative as real <= v <= sc.positive as real
  {
    var s := Tone.SineNorm(trig, idx, sc.sampleRate, frequency);
    if s >= 0.0 then
      ScaledRange(sc.positive as real, s, sc.negative as real, sc.positive as real);
      s * sc.positive as real
    else
      ScaledRange(sc.negative as real, -s, sc.negative as real, sc.positive as real);
      assert s * (-sc.negative) as real == sc.negative as real * -s;
      s * (-sc.negative) as real
  }

  /** Sample `idx` of a tone before the cast: the scaled sine times the envelope. */
  function ScaledSample(trig: Tone.Trig, sc: Scale, frequency: real, shape: Tone.Shape, idx: nat, sampleSize: nat): (v: real)
    requires idx < sampleSize
    ensures trig.Bounded() && sc.Valid() ==> sc.negative as real <= v <= sc.positive as real
  {
    var m := SineMagnitude(trig, sc, idx, frequency);
    var c := Tone.Envelope(trig, shape, idx, sampleSize);
    ScaledRange(m, c, sc.negative as real, sc.positive as real);
    m * c
  }

  /** Sample `idx` of a tone, cast with `as i32`. */
  function ToneSample(trig: Tone.Trig, sc: Scale, frequency: real, shape: Tone.Shape, idx: nat, sampleSize: nat): (v: i32)
    requires idx < sampleSize
    ensures trig.Bounded() && sc.Valid() ==> sc.negative <= v <= sc.positive
  {
    TruncateToI32(ScaledSample(trig, sc, frequency, shape, idx, sampleSize))
  }

  lemma ScaledRange(m: real, c: real, lo: real, hi: real)
    ensures lo <= 0.0 <= hi && lo <= m <= hi && 0.0 <= c <= 1.0 ==> lo <= m * c <= hi
  {
    if lo <= 0.0 <= hi && lo <= m <= hi && 0.0 <= c <= 1.0 {
      if m >= 0.0 {
        Tone.MulNonNegative(m, c);
        Tone.MulNonNegative(m, 1.0 - c);
      } else {
        Tone.MulNonNegative(-m, c);
        Tone.MulNonNegative(-m, 1.0 - c);
      }
    }
  }

  /** The samples one append writes. */
  function ToneSamples(trig: Tone.Trig, sc: Scale, frequency: real, duration: nat, shape: Tone.Shape): (s: seq<int>)
    ensures |s| == Tone.SampleCount(sc.sampleRate, duration)
    ensures trig.Bounded() && sc.Valid() ==> forall i :: 0 <= i < |s| ==> sc.negative <= s[i] <= sc.positive
  {
    var n := Tone.SampleCount(sc.sampleRate, duration);
    seq(n, i requires 0 <= i < n => ToneSample(trig, sc, frequency, shape, i, n) as int)
  }

  /** `append_tone` and the two faded variants: the tone's samples go after the ones
      already written, and stay within the bit depth's range. */
  function Append(trig: Tone.Trig, g: ToneGenerator, frequency: real, duration: nat, shape: Tone.Shape): (r: ToneGenerator)
    ensures r.scale == g.scale
    ensures |r.samples| == |g.samples| + Tone.SampleCount(g.scale.sampleRate, duration)
    ensures r.samples[..|g.samples|] == g.samples
    ensures trig.Bounded() && g.scale.Valid() && g.InRange() ==> r.InRange()
  {
    g.(samples := g.samples + ToneSamples(trig, g.scale, frequency, duration, shape))
  }

  /** A 0 Hz tone (a gap or a silence) writes zeros. */
  lemma SilenceIsZero(trig: Tone.Trig, sc: Scale, duration: nat, shape: Tone.Shape, i: nat)
    requires trig.Bounded() && i < Tone.SampleCount(sc.sampleRate, duration)
    ensures ToneSamples(trig, sc, 0.0, duration, shape)[i] == 0
  {
  }

  /** A floating-point sample `x` on the integer scale: `p_magnitude` above zero and
      `|n_magnitude|` below. */
  function Magnify(sc: Scale, x: real): real {
    if x >= 0.0 then x * sc.positive as real else x * (-sc.negative) as real
  }

  /** Each integer sample, before the cast, is the floating-point generator's sample of
      the same tone magnified to the bit depth's range: the sine is scaled
      before the envelope here and after it there, which comes to the same as the
      envelope is never negative. */
  lemma SampleScalesFloat(trig: Tone.Trig, sc: Scale, frequency: real, shape: Tone.Shape, idx: nat, sampleSize: nat)
    requires idx < sampleSize && trig.Bounded()
    ensures ScaledSample(trig, sc, frequency, shape, idx, sampleSize) ==
              Magnify(sc, Tone.ToneSample(trig, sc.sampleRate, frequency, shape, idx, sampleSize))
  {
    EnvelopeScalesFloat(trig, sc, frequency, shape, idx, sampleSize);
  }

  /** The same, for any envelope value that is not negative. */
  lemma EnvelopeScalesFloat(trig: Tone.Trig, sc: Scale, frequency: real, shape: Tone.Shape, idx: nat, sampleSize: nat)
    requires idx < sampleSize && 0.0 <= Tone.Envelope(trig, shape, idx, sampleSize)
    ensures ScaledSample(trig, sc, frequency, shape, idx, sampleSize) ==
              Magnify(sc, Tone.ToneSample(trig, sc.sampleRate, frequency, shape, idx, sampleSize))
  {
    var s := Tone.SineNorm(trig, idx, sc.sampleRate, frequency);
    var c := Tone.Envelope(trig, shape, idx, sampleSize);
    var m := SineMagnitude(trig, sc, idx, frequency);
    SamplesFactor(trig, sc, frequency, shape, idx, sampleSize);
    MagnifyProduct(sc, s, c, m, ScaledSample(trig, sc, frequency, shape, idx, sampleSize),
                   Tone.ToneSample(trig, sc.sampleRate, frequency, shape, idx, sampleSize));
  }

  /** Both generators multiply a sine value by the envelope. */
  lemma SamplesFactor(trig: Tone.Trig, sc: Scale, frequency: real, shape: Tone.Shape, idx: nat, sampleSize: nat)
    requires idx < sampleSize
    ensures var c := Tone.Envelope(trig, shape, idx, sampleSize);
            && Tone.ToneSample(trig, sc.sampleRate, frequency, shape, idx, sampleSize) == Tone.SineNorm(trig, idx, sc.sampleRate, frequency) * c
            && ScaledSample(trig, sc, frequency, shape, idx, sampleSize) == SineMagnitude(trig, sc, idx, frequency) * c
            && var s := Tone.SineNorm(trig, idx, sc.sampleRate, frequency);
               SineMagnitude(trig, sc, idx, frequency) == if s >= 0.0 then s * sc.positive as real else s * (-sc.negative) as real
  {
    FloatFactor(trig, sc.sampleRate, frequency, shape, idx, sampleSize);
    ScaledFactor(trig, sc, frequency, shape, idx, sampleSize);
    MagnitudeFactor(trig, sc, idx, frequency);
  }

  lemma FloatFactor(trig: Tone.Trig, sampleRate: nat, frequency: real, shape: Tone.Shape, idx: nat, sampleSize: nat)
    requires idx < sampleSize
    ensures Tone.ToneSample(trig, sampleRate, frequency, shape, idx, sampleSize) ==
              Tone.SineNorm(trig, idx, sampleRate, frequency) * Tone.Envelope(trig, shape, idx, sampleSize)
  {
  }

  lemma ScaledFactor(trig: Tone.Trig, sc: Scale, frequency: real, shape: Tone.Shape, idx: nat, sampleSize: nat)
    requires idx < sampleSize
    ensures ScaledSample(trig, sc, frequency, shape, idx, sampleSize) ==
              SineMagnitude(trig, sc, idx, frequency) * Tone.Envelope(trig, shape, idx, sampleSize)
  {
  }

  lemma MagnitudeFactor(trig: Tone.Trig, sc: Scale, idx: nat, frequency: real)
    ensures var s := Tone.SineNorm(trig, idx, sc.sampleRate, frequency);
            SineMagnitude(trig, sc, idx, frequency) == if s >= 0.0 then s * sc.positive as real else s * (-sc.negative) as real
  {
  }

  /** Scaling the sine by the factor its sign chooses, then by a non-negative envelope,
      is magnifying the product. */
  lemma MagnifyProduct(sc: Scale, s: real, c: real, m: real, scaled: real, x: real)
    requires 0.0 <= c
    requires m == if s >= 0.0 then s * sc.positive as real else s * (-sc.negative) as real
    requires scaled == m * c && x == s * c
    ensures scaled == Magnify(sc, x)
  {
    var (p, n) := (sc.positive as real, (-sc.negative) as real);
    if s >= 0.0 {
      Tone.MulNonNegative(s, c);
      MulSwap(s, p, c);
    } else if c == 0.0 {
    } else {
      NegativeTimesPositive(s, c);
      MulSwap(s, n, c);
    }
  }

  lemma MulSwap(a: real, b: real, c: real)
    ensures a * b * c == a * c * b
  {
  }

  lemma NegativeTimesPositive(a: real, b: real)
    requires a < 0.0 && b > 0.0
    ensures a * b < 0.0
  {
  }

  /** The samples of a whole tone, element by element. */
  lemma ToneSamplesScaleFloat(trig: Tone.Trig, sc: Scale, frequency: real, duration: nat, shape: Tone.Shape)
    requires trig.Bounded()
    ensures var (ints, reals) := (ToneSamples(trig, sc, frequency, duration, shape),
                                  Tone.ToneSamples(trig, sc.sampleRate, frequency, duration, shape));
            |ints| == |reals| && forall i :: 0 <= i < |ints| ==> ints[i] == TruncateToI32(Magnify(sc, reals[i]))
  {
    var n := Tone.SampleCount(sc.sampleRate, duration);
    forall i | 0 <= i < n
      ensures ToneSamples(trig, sc, frequency, duration, shape)[i] ==
                TruncateToI32(Magnify(sc, Tone.ToneSamples(trig, sc.sampleRate, frequency, duration, shape)[i]))
    {
      SampleScalesFloat(trig, sc, frequency, shape, i, n);
      assert ToneSamples(trig, sc, frequency, duration, shape)[i] == ToneSample(trig, sc, frequency, shape, i, n);
    }
  }
}
