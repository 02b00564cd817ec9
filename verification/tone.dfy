/** The library's floating-point tone generator (`ToneGenerator` of the protocol
    transmitter): it appends sine tones of a frequency and a duration to a growing sample
    buffer, optionally shaped by a raised-cosine or a linear fade at both ends.

    Sine and cosine are not modelled: they are an oracle `Trig`, known only to stay in
    [-1, 1] and to give sin 0 = 0 and cos 0 = 1. Sample counts, the silence of a 0 Hz
    tone and the fade envelope are exact. */
module Tone {
  import opened Ints
  import AudioTypes

  const PI: real := 3.14159265358979

  datatype Trig = Trig(sin: real -> real, cos: real -> real) {
    ghost predicate Bounded() {
      && sin(0.0) == 0.0
      && cos(0.0) == 1.0
      && (forall x :: -1.0 <= sin(x) <= 1.0)
      && (forall x :: -1.0 <= cos(x) <= 1.0)
    }
  }

  /** `(sample_rate * duration) / 1_000_000`: the samples in `duration` microseconds. */
  function SampleCount(sampleRate: nat, duration: nat): (n: nat)
    ensures n * 1_000_000 <= sampleRate * duration < (n + 1) * 1_000_000
  {
    sampleRate * duration / 1_000_000
  }

  /** `(sample_size as f32 * fade) as usize`: the length of each fade; the cast of a
      negative product saturates at 0. */
  function FadeSize(sampleSize: nat, fade: real): (n: nat)
    ensures 0.0 <= fade <= 1.0 ==> n <= sampleSize
    ensures fade <= 0.0 ==> n == 0
  {
    if sampleSize as real * fade <= 0.0 then 0 else (sampleSize as real * fade).Floor
  }

  /** The phase `2π · idx / period` of sample `idx` with `period = sample_rate / frequency`.
      A 0 Hz tone has an infinite period and so phase 0 at every sample. */
  function Phase(idx: nat, sampleRate: nat, frequency: real): real {
    if frequency == 0.0 || sampleRate == 0 then 0.0
    else 2.0 * PI * idx as real / (sampleRate as real / frequency)
  }

  /** `get_sine_norm`. */
  function SineNorm(trig: Trig, idx: nat, sampleRate: nat, frequency: real): (s: real)
    ensures trig.Bounded() ==> -1.0 <= s <= 1.0
    ensures trig.Bounded() && frequency == 0.0 ==> s == 0.0
  {
    trig.sin(Phase(idx, sampleRate, frequency))
  }

  /** `get_linear_fade_coeff` at a sample of the tone: a ramp up over the first
      `fadeSize` samples, a ramp down over the last `fadeSize`, and 1 in between. The
      generator only calls it for `idx < sampleSize`, so `sampleSize - fadeSize` is only
      reached when it does not underflow. */
  function LinearFadeCoeff(idx: nat, sampleSize: nat, fadeSize: nat): (c: real)
    requires idx < sampleSize
    ensures 0.0 <= c <= 1.0
    ensures fadeSize <= idx < sampleSize - fadeSize ==> c == 1.0
    ensures idx < fadeSize ==> c * fadeSize as real == idx as real
    ensures fadeSize <= idx && sampleSize - fadeSize <= idx ==> c * fadeSize as real == (sampleSize - idx) as real
  {
    if idx < fadeSize then idx as real / fadeSize as real
    else if idx >= sampleSize - fadeSize then (sampleSize - idx) as real / fadeSize as real
    else 1.0
  }

  /** The linear fade is symmetric: the `idx`-th sample from the start and from the end
      are scaled alike, as long as the two fades do not overlap. */
  lemma LinearFadeSymmetric(idx: nat, sampleSize: nat, fadeSize: nat)
    requires 1 <= idx < sampleSize && 2 * fadeSize <= sampleSize
    ensures LinearFadeCoeff(idx, sampleSize, fadeSize) == LinearFadeCoeff(sampleSize - idx, sampleSize, fadeSize)
  {
  }

  /** `get_sine_fade_coeff` at a sample of the tone: a raised-cosine ramp up and down over
      `fadeSize` samples at each end, and 1 in between. */
  function SineFadeCoeff(trig: Trig, idx: nat, sampleSize: nat, fadeSize: nat): (c: real)
    requires idx < sampleSize
    ensures trig.Bounded() ==> 0.0 <= c <= 1.0
    ensures fadeSize <= idx < sampleSize - fadeSize ==> c == 1.0
    ensures trig.Bounded() && fadeSize > 0 && idx == 0 ==> c == 0.0
  {
    if idx < fadeSize then 0.5 * (1.0 - trig.cos(PI * idx as real / fadeSize as real))
    else if idx >= sampleSize - fadeSize then
      var relative := idx - (sampleSize - fadeSize);
      0.5 * (1.0 + trig.cos(PI * relative as real / fadeSize as real))
    else 1.0
  }

  /** How a tone is shaped: `append_tone`, `append_sine_faded_tone(.., fade)` and
      `append_linear_faded_tone(.., fade)`. */
  datatype Shape = Plain | SineFaded(fade: real) | LinearFaded(fade: real)

  /** The factor applied to sample `idx` of a tone of `sampleSize` samples. */
  function Envelope(trig: Trig, shape: Shape, idx: nat, sampleSize: nat): (c: real)
    requires idx < sampleSize
    ensures trig.Bounded() ==> 0.0 <= c <= 1.0
    ensures shape.Plain? ==> c == 1.0
  {
    match shape
    case Plain => 1.0
    case SineFaded(fade) => SineFadeCoeff(trig, idx, sampleSize, FadeSize(sampleSize, fade))
    case LinearFaded(fade) => LinearFadeCoeff(idx, sampleSize, FadeSize(sampleSize, fade))
  }

  lemma MulNonNegative(a: real, b: real)
    requires a >= 0.0 && b >= 0.0
    ensures a * b >= 0.0
  {
  }

  lemma ScaledUnit(s: real, c: real)
    ensures -1.0 <= s <= 1.0 && 0.0 <= c <= 1.0 ==> -1.0 <= s * c <= 1.0
  {
    if -1.0 <= s <= 1.0 && 0.0 <= c <= 1.0 {
      if s >= 0.0 {
        MulNonNegative(s, c);
        MulNonNegative(1.0 - s, c);
        assert (1.0 - s) * c == c - s * c;
      } else {
        MulNonNegative(-s, c);
        MulNonNegative(1.0 + s, c);
        assert (1.0 + s) * c == c + s * c;
        assert (-s) * c == -(s * c);
      }
    }
  }

  /** Sample `idx` of a tone of `sampleSize` samples: the sine scaled by the envelope. */
  function ToneSample(trig: Trig, sampleRate: nat, frequency: real, shape: Shape, idx: nat, sampleSize: nat): (v: real)
    requires idx < sampleSize
    ensures trig.Bounded() ==> -1.0 <= v <= 1.0
    ensures trig.Bounded() && frequency == 0.0 ==> v == 0.0
  {
    var s := SineNorm(trig, idx, sampleRate, frequency);
    var c := Envelope(trig, shape, idx, sampleSize);
    ScaledUnit(s, c);
    s * c
  }

  /** The samples one append produces. */
  function ToneSamples(trig: Trig, sampleRate: nat, frequency: real, duration: nat, shape: Shape): (s: seq<real>)
    ensures |s| == SampleCount(sampleRate, duration)
    ensures trig.Bounded() ==> forall i :: 0 <= i < |s| ==> -1.0 <= s[i] <= 1.0
    ensures trig.Bounded() && frequency == 0.0 ==> forall i :: 0 <= i < |s| ==> s[i] == 0.0
  {
    var n := SampleCount(sampleRate, duration);
    seq(n, i requires 0 <= i < n => ToneSample(trig, sampleRate, frequency, shape, i, n))
  }

  /** `ToneGenerator`: the samples appended so far and the specification's rate. */
  datatype ToneGenerator = ToneGenerator(samples: seq<real>, sampleRate: nat)

  /** `ToneGenerator::new(spec)`: empty, at the specification's sample rate. */
  function New(spec: AudioTypes.AudioSpec): (g: ToneGenerator)
    ensures g.samples == [] && g.sampleRate == spec.sr
  {
    ToneGenerator([], spec.sr)
  }

  /** `append_tone`, `append_sine_faded_tone` and `append_linear_faded_tone`: the tone's
      samples go after the ones already there. */
  function Append(trig: Trig, g: ToneGenerator, frequency: real, duration: nat, shape: Shape): (r: ToneGenerator)
    ensures r.sampleRate == g.sampleRate
    ensures |r.samples| == |g.samples| + SampleCount(g.sampleRate, duration)
    ensures r.samples[..|g.samples|] == g.samples
    ensures trig.Bounded() && frequency == 0.0 ==> forall i :: |g.samples| <= i < |r.samples| ==> r.samples[i] == 0.0
  {
    g.(samples := g.samples + ToneSamples(trig, g.sampleRate, frequency, duration, shape))
  }

  /** `take_samples`: everything accumulated, leaving the generator empty at the same
      rate. */
  function TakeSamples(g: ToneGenerator): (r: (seq<real>, ToneGenerator))
    ensures r.0 == g.samples
    ensures r.1.samples == [] && r.1.sampleRate == g.sampleRate
  {
    (g.samples, g.(samples := []))
  }

  /** The same append after a take yields the same samples the generator would have
      accumulated without the take: taking splits the output, it loses nothing. */
  lemma TakeLosesNothing(trig: Trig, g: ToneGenerator, frequency: real, duration: nat, shape: Shape)
    ensures var (taken, rest) := TakeSamples(g);
            taken + Append(trig, rest, frequency, duration, shape).samples ==
              Append(trig, g, frequency, duration, shape).samples
  {
  }
}
