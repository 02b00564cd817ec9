/** The library's integer transmitter (`tx::Transmitter::create`): the padded frame of a
    payload written by the integer tone generator at the bit depth of the transmitter's
    audio spec, with a fade ratio of 0.1. */
module TxTransmitter {
  import opened Ints
  import opened Optional
  import opened Bytes
  import opened Framing
  import ToneI32
  import Tone
  import IntTransmitter
  import ProtocolTransmitter
  import SpecConversions
  import Profile
  import AudioTypes

  /** The fade ratio `create` passes to every faded tone. */
  const FADE_RATIO: real := 0.1

  datatype Transmitter = Transmitter(profile: Profile.Profile, spec: AudioTypes.AudioSpec)

  /** The profile's marker and bit frequencies and its pulse durations in microseconds. */
  function KeyingOf(tx: Transmitter): IntTransmitter.Keying {
    IntTransmitter.Keying(ProtocolTransmitter.FrequenciesOf(tx.profile),
                          tx.profile.pulses.tone.Micros(), tx.profile.pulses.gap.Micros())
  }

  /** The frame `create` writes for a payload. */
  function Frame(tx: Transmitter, data: seq<bv8>): seq<Segment> {
    var k := KeyingOf(tx);
    PaddedFrame(k.f, data, k.tone, k.gap, Tone.SineFaded(FADE_RATIO))
  }

  /** The generator `create` starts from: `ToneGenerator::new(self.spec.into())`. */
  function Generator(tx: Transmitter): Option<ToneI32.ToneGenerator> {
    ToneI32.New(SpecConversions.WavSpecOf(tx.spec))
  }

  /** `Transmitter::create`: an error when the spec's bit depth has no integer range
      (0 or above 31 bits), otherwise the samples of silence, start, next, the payload,
      end, next and silence at that bit depth. */
  function Create(trig: Tone.Trig, tx: Transmitter, data: seq<bv8>): (r: Option<seq<int>>)
    ensures r.Some? <==> 1 <= tx.spec.bps <= 31
    ensures r.Some? ==> r.value == IntTransmitter.Rendered(trig, Generator(tx).value.scale, Frame(tx, data))
  {
    match Generator(tx)
    case None => None
    case Some(g) =>
      var k := KeyingOf(tx);
      var g1 := IntTransmitter.AppendSilence(trig, k, g);
      var g2 := IntTransmitter.AppendFrame(trig, k, g1, data, FADE_RATIO);
      var g3 := IntTransmitter.AppendSilence(trig, k, g2);
      var train := PulseTrain(k.f, Symbols(data), k.tone, k.gap, Tone.SineFaded(FADE_RATIO));
      IntTransmitter.RenderedAppend(trig, g.scale, [Silence(k.gap)], train);
      IntTransmitter.RenderedAppend(trig, g.scale, [Silence(k.gap)] + train, [Silence(k.gap)]);
      Some(g3.samples)
  }

  /** `create` writes `2·⌊sr·4g/10⁶⌋ + (4 + 16n)·(⌊sr·t/10⁶⌋ + ⌊sr·g/10⁶⌋)` samples for a
      payload of `n` bytes. */
  lemma CreateLength(trig: Tone.Trig, tx: Transmitter, data: seq<bv8>)
    requires 1 <= tx.spec.bps <= 31
    ensures |Create(trig, tx, data).value| == FrameSampleCount(tx.spec.sr, |data|, KeyingOf(tx).tone, KeyingOf(tx).gap)
  {
    var k := KeyingOf(tx);
    PaddedFrameTotal(tx.spec.sr, k.f, data, k.tone, k.gap, Tone.SineFaded(FADE_RATIO));
  }

  /** Every sample fits the spec's bit depth: `-2^(b-1) <= s < 2^(b-1)` for `b` bits. */
  lemma CreateInRange(trig: Tone.Trig, tx: Transmitter, data: seq<bv8>)
    requires trig.Bounded() && 1 <= tx.spec.bps <= 31
    ensures var s := Create(trig, tx, data).value;
            forall i :: 0 <= i < |s| ==> -(HalfRange(tx.spec.bps) as int) <= s[i] < HalfRange(tx.spec.bps)
  {
    var sc := Generator(tx).value.scale;
    IntTransmitter.RenderedInRange(trig, sc, Frame(tx, data));
  }

  /** `2^(b-1)`: half the number of values of a `b`-bit sample. */
  function HalfRange(b: nat): (h: nat)
    requires b >= 1
    ensures 2 * h == Pow2(b)
  {
    Pow2(b - 1)
  }

  /** The frame opens with four gaps of zeros. */
  lemma CreateOpensWithSilence(trig: Tone.Trig, tx: Transmitter, data: seq<bv8>, i: nat)
    requires trig.Bounded() && 1 <= tx.spec.bps <= 31
    requires i < Tone.SampleCount(tx.spec.sr, 4 * KeyingOf(tx).gap)
    ensures Create(trig, tx, data).value[i] == 0
  {
    var k := KeyingOf(tx);
    var sc := Generator(tx).value.scale;
    var rest := PulseTrain(k.f, Symbols(data), k.tone, k.gap, Tone.SineFaded(FADE_RATIO)) + [Silence(k.gap)];
    assert Frame(tx, data) == [Silence(k.gap)] + rest;
    IntTransmitter.RenderedAppend(trig, sc, [Silence(k.gap)], rest);
    assert IntTransmitter.Rendered(trig, sc, [Silence(k.gap)]) == ToneI32.ToneSamples(trig, sc, 0.0, 4 * k.gap, Tone.Plain);
    ToneI32.SilenceIsZero(trig, sc, 4 * k.gap, Tone.Plain, i);
  }

  /** The integer samples are the floating-point transmitter's samples for the same
      profile and spec, each magnified to the bit depth's range and cast with `as i32`. */
  lemma CreateScalesFloat(trig: Tone.Trig, tx: Transmitter, data: seq<bv8>)
    requires trig.Bounded() && 1 <= tx.spec.bps <= 31
    ensures IntTransmitter.ScaledCopy(Generator(tx).value.scale, Create(trig, tx, data).value,
                                      ProtocolTransmitter.Create(trig, ProtocolTransmitter.Transmitter(tx.profile, tx.spec), data))
  {
    var sc := Generator(tx).value.scale;
    var ints := Create(trig, tx, data).value;
    var reals := ProtocolTransmitter.Create(trig, ProtocolTransmitter.Transmitter(tx.profile, tx.spec), data);
    FloatFrame(trig, tx, data);
    IntTransmitter.ScaledCopyOf(trig, sc, Frame(tx, data), ints, reals);
  }

  /** The floating-point transmitter sends the same padded frame. */
  lemma FloatFrame(trig: Tone.Trig, tx: Transmitter, data: seq<bv8>)
    requires 1 <= tx.spec.bps <= 31
    ensures Generator(tx).value.scale.sampleRate == tx.spec.sr
    ensures ProtocolTransmitter.Create(trig, ProtocolTransmitter.Transmitter(tx.profile, tx.spec), data) ==
              ProtocolTransmitter.Rendered(trig, tx.spec.sr, Frame(tx, data))
  {
  }
}
