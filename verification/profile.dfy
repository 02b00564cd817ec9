/** The protocol profile: the five tone frequencies and the two pulse durations, and the
    integer arithmetic that turns a duration into a number of samples. The three
    generations of `profile.rs` agree on everything modelled here. */
module Profile {
  import opened Ints
  import opened Optional

  const MICROS_PER_SECOND: nat := 1_000_000

  /** `Frequency`; `hz()` is the field. */
  datatype Frequency = Frequency(hz: real)

  /** `PulseDuration`, a `std::time::Duration` counted in nanoseconds. */
  datatype PulseDuration = PulseDuration(nanos: nat) {

    /** `as_nanos::<T>`, `as_micros::<T>`, `as_millis::<T>`, `as_secs::<T>`: the duration in
        whole units, or a panic when it does not fit the target type, whose values are
        the naturals below `limit`. */
    function AsUnits(unit: nat, limit: nat): (r: Option<nat>)
      requires unit >= 1
      ensures r.Some? <==> nanos / unit < limit
      ensures r.Some? ==> r.value * unit <= nanos < (r.value + 1) * unit
    {
      if nanos / unit < limit then Some(nanos / unit) else None
    }

    function AsNanos(limit: nat): Option<nat> { AsUnits(1, limit) }
    function AsMicros(limit: nat): Option<nat> { AsUnits(1_000, limit) }
    function AsMillis(limit: nat): Option<nat> { AsUnits(1_000_000, limit) }
    function AsSecs(limit: nat): Option<nat> { AsUnits(1_000_000_000, limit) }

    /** The whole microseconds of the duration, `as_micros()` before the conversion to a
        target type. */
    function Micros(): nat { nanos / 1_000 }

    /** `sample_size::<T>(sample_rate)`: `sample_rate * micros / 1_000_000` computed in
        `T`, whose values are the naturals below `limit`. It panics when the duration
        does not fit `T`, when 1 000 000 does not, or when the product overflows. */
    function SampleSize(sampleRate: nat, limit: nat): (r: Option<nat>)
      requires sampleRate < limit
      ensures r.Some? <==> Micros() < limit && MICROS_PER_SECOND < limit && sampleRate * Micros() < limit
      ensures r.Some? ==>
                r.value * MICROS_PER_SECOND <= sampleRate * Micros() < (r.value + 1) * MICROS_PER_SECOND
    {
      match AsMicros(limit)
      case None => None
      case Some(micros) =>
        if MICROS_PER_SECOND >= limit then None
        else if sampleRate * micros >= limit then None
        else Some(sampleRate * micros / MICROS_PER_SECOND)
    }
  }

  function FromNanos(n: u64): (d: PulseDuration)
    ensures d.AsNanos(U64_LIMIT) == Some(n)
    ensures d.Micros() == n / 1_000
  {
    PulseDuration(n)
  }

  function FromMicros(m: u64): (d: PulseDuration)
    ensures d.Micros() == m
  {
    PulseDuration(m * 1_000)
  }

  function FromMillis(m: u64): (d: PulseDuration)
    ensures d.Micros() == 1_000 * m
  {
    PulseDuration(m * 1_000_000)
  }

  function FromSecs(s: u64): (d: PulseDuration)
    ensures d.Micros() == MICROS_PER_SECOND * s
  {
    PulseDuration(s * 1_000_000_000)
  }

  /** A duration built from microseconds reads back the same microseconds in any type
      that can hold them. */
  lemma MicrosRoundTrip(m: u64, limit: nat)
    requires m < limit
    ensures FromMicros(m).AsMicros(limit) == Some(m)
  {
  }

  /** More samples per second or a longer pulse never gives fewer samples. */
  lemma SampleSizeMonotone(d1: PulseDuration, d2: PulseDuration, sr1: nat, sr2: nat, limit: nat)
    requires sr1 <= sr2 < limit && d1.Micros() <= d2.Micros()
    requires d2.SampleSize(sr2, limit).Some?
    ensures d1.SampleSize(sr1, limit).Some?
    ensures d1.SampleSize(sr1, limit).value <= d2.SampleSize(sr2, limit).value
  {
    MulMonotone(sr1, d1.Micros(), sr2, d2.Micros());
  }

  lemma MulMonotone(a: nat, b: nat, c: nat, d: nat)
    requires a <= c && b <= d
    ensures a * b <= c * d
  {
    assert a * b <= c * b;
    assert c * b <= c * d;
  }

  datatype Markers = Markers(start: Frequency, end: Frequency, next: Frequency)

  datatype Bits = Bits(high: Frequency, low: Frequency) {

    /** `from_boolean`: the frequency that carries a bit. */
    function FromBoolean(bit: bool): (f: Frequency)
      ensures f == high || f == low
      ensures high != low ==> (f == high <==> bit)
    {
      if bit then high else low
    }
  }

  /** The tone and gap sizes in samples at one sample rate. */
  datatype SizedPulses = SizedPulses(toneSize: nat, gapSize: nat)

  datatype Pulses = Pulses(tone: PulseDuration, gap: PulseDuration) {

    /** `into_sized`: both durations in samples at the specification's `u32` sample rate,
        computed in `usize`. */
    function IntoSized(sampleRate: u32): (r: Option<SizedPulses>)
      ensures r.Some? <==> tone.SampleSize(sampleRate, U64_LIMIT).Some? && gap.SampleSize(sampleRate, U64_LIMIT).Some?
      ensures r.Some? ==>
                r.value.toneSize * MICROS_PER_SECOND <= sampleRate * tone.Micros() < (r.value.toneSize + 1) * MICROS_PER_SECOND
      ensures r.Some? ==>
                r.value.gapSize * MICROS_PER_SECOND <= sampleRate * gap.Micros() < (r.value.gapSize + 1) * MICROS_PER_SECOND
    {
      match (tone.SampleSize(sampleRate, U64_LIMIT), gap.SampleSize(sampleRate, U64_LIMIT))
      case (Some(t), Some(g)) => Some(SizedPulses(t, g))
      case _ => None
    }
  }

  /** `Profile` (`ProtocolProfile` in the older generations). */
  datatype Profile = Profile(markers: Markers, bits: Bits, pulses: Pulses)

  /** The library's default profile: start 7 kHz, end 9 kHz, next 3 kHz, high 5 kHz,
      low 1 kHz, 1 ms tones and 2 ms gaps. */
  const DEFAULT_PROFILE: Profile :=
    Profile(Markers(Frequency(7_000.0), Frequency(9_000.0), Frequency(3_000.0)),
            Bits(Frequency(5_000.0), Frequency(1_000.0)),
            Pulses(PulseDuration(1_000_000), PulseDuration(2_000_000)))

  /** At 48 kHz the default profile's symbol is a 48-sample tone and a 96-sample gap. */
  lemma DefaultSizesAt48k()
    ensures DEFAULT_PROFILE.pulses.IntoSized(48_000) == Some(SizedPulses(48, 96))
  {
  }
}
