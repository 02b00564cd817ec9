/** The library's floating-point transmitter (`Transmitter::create`): the frame of a
    payload rendered by the tone generator, every symbol a raised-cosine-faded tone
    followed by a gap, and four gaps of silence at both ends. */
module ProtocolTransmitter {
  import opened Bytes
  import opened Framing
  import opened Tone
  import Profile
  import AudioTypes

  /** The fade ratio `create` passes to every faded tone. */
  const FADE: real := 0.1

  datatype Transmitter = Transmitter(profile: Profile.Profile, spec: AudioTypes.AudioSpec)

  function FrequenciesOf(p: Profile.Profile): Frequencies {
    Frequencies(p.markers.start.hz, p.markers.end.hz, p.markers.next.hz, p.bits.high.hz, p.bits.low.hz)
  }

  /** `pulses.tone.as_micros::<usize>()` and `pulses.gap.as_micros::<usize>()`. */
  function ToneMicros(tx: Transmitter): nat { tx.profile.pulses.tone.Micros() }
  function GapMicros(tx: Transmitter): nat { tx.profile.pulses.gap.Micros() }

  /** The samples the generator appends for a sequence of segments. */
  function Rendered(trig: Trig, sampleRate: nat, segs: seq<Segment>): (s: seq<real>)
    ensures |s| == SampleTotal(sampleRate, segs)
  {
    if |segs| == 0 then []
    else ToneSamples(trig, sampleRate, segs[0].frequency, segs[0].duration, segs[0].shape) + Rendered(trig, sampleRate, segs[1..])
  }

  lemma {:induction false} RenderedAppend(trig: Trig, sampleRate: nat, a: seq<Segment>, b: seq<Segment>)
    ensures Rendered(trig, sampleRate, a + b) == Rendered(trig, sampleRate, a) + Rendered(trig, sampleRate, b)
  {
    if |a| == 0 {
      assert a + b == b;
    } else {
      assert (a + b)[1..] == a[1..] + b;
      RenderedAppend(trig, sampleRate, a[1..], b);
    }
  }

  /** `append_start`, `append_end`, `append_next` and `append_bit`: the symbol's
      frequency as a faded tone of the profile's tone duration, then 0 Hz for the gap
      duration. A bit's frequency is `bits.from_boolean(bit)`. */
  function AppendSymbol(trig: Trig, tx: Transmitter, g: ToneGenerator, s: Symbol, fade: real): (r: ToneGenerator)
    ensures r.sampleRate == g.sampleRate
    ensures r.samples ==
              g.samples + Rendered(trig, g.sampleRate, Pulse(FrequenciesOf(tx.profile), s, ToneMicros(tx), GapMicros(tx), SineFaded(fade)))
  {
    var frequency := match s
      case StartMark => tx.profile.markers.start.hz
      case EndMark => tx.profile.markers.end.hz
      case NextMark => tx.profile.markers.next.hz
      case BitMark(bit) => tx.profile.bits.FromBoolean(bit).hz;
    var pulse := Pulse(FrequenciesOf(tx.profile), s, ToneMicros(tx), GapMicros(tx), SineFaded(fade));
    assert pulse[1..][1..] == [];
    var toned := Append(trig, g, frequency, ToneMicros(tx), SineFaded(fade));
    Append(trig, toned, 0.0, GapMicros(tx), Plain)
  }

  /** `append_silence`: 0 Hz for four gap durations. */
  function AppendSilence(trig: Trig, tx: Transmitter, g: ToneGenerator): (r: ToneGenerator)
    ensures r.sampleRate == g.sampleRate
    ensures r.samples == g.samples + Rendered(trig, g.sampleRate, [Silence(GapMicros(tx))])
  {
    Append(trig, g, 0.0, GapMicros(tx) * 4, Plain)
  }

  /** The symbols appended so far and the ones about to be appended render as their
      concatenation. */
  lemma AppendTrain(trig: Trig, tx: Transmitter, sampleRate: nat, prefix: seq<real>, a: seq<Symbol>, b: seq<Symbol>, fade: real)
    ensures var f := FrequenciesOf(tx.profile);
            var shape := SineFaded(fade);
            prefix + Rendered(trig, sampleRate, PulseTrain(f, a, ToneMicros(tx), GapMicros(tx), shape))
                   + Rendered(trig, sampleRate, PulseTrain(f, b, ToneMicros(tx), GapMicros(tx), shape)) ==
            prefix + Rendered(trig, sampleRate, PulseTrain(f, a + b, ToneMicros(tx), GapMicros(tx), shape))
  {
    var f := FrequenciesOf(tx.profile);
    var shape := SineFaded(fade);
    PulseTrainAppend(f, a, b, ToneMicros(tx), GapMicros(tx), shape);
    RenderedAppend(trig, sampleRate, PulseTrain(f, a, ToneMicros(tx), GapMicros(tx), shape),
                   PulseTrain(f, b, ToneMicros(tx), GapMicros(tx), shape));
  }

  /** `append_byte`'s loop over bits `k - 1` down to 0. */
  function AppendByteDown(trig: Trig, tx: Transmitter, g: ToneGenerator, b: bv8, k: nat, fade: real): (r: ToneGenerator)
    requires k <= 8
    decreases k
    ensures r.sampleRate == g.sampleRate
    ensures r.samples ==
              g.samples + Rendered(trig, g.sampleRate,
                                   PulseTrain(FrequenciesOf(tx.profile), ByteSymbolsDown(b, k), ToneMicros(tx), GapMicros(tx), SineFaded(fade)))
  {
    if k == 0 then g
    else
      var bit := BitMark(BitSet(b, k - 1));
      var g1 := AppendPair(trig, tx, g, bit, NextMark, fade);
      var r := AppendByteDown(trig, tx, g1, b, k - 1, fade);
      AppendTrain(trig, tx, g.sampleRate, g.samples, [bit, NextMark], ByteSymbolsDown(b, k - 1), fade);
      r
  }

  /** `append_byte`: the byte's bits, most significant first, each followed by a next
      marker. */
  function AppendByte(trig: Trig, tx: Transmitter, g: ToneGenerator, b: bv8, fade: real): (r: ToneGenerator)
    ensures r.sampleRate == g.sampleRate
    ensures r.samples ==
              g.samples + Rendered(trig, g.sampleRate,
                                   PulseTrain(FrequenciesOf(tx.profile), ByteSymbols(b), ToneMicros(tx), GapMicros(tx), SineFaded(fade)))
  {
    ByteSymbolsDownIsByteSymbols(b);
    AppendByteDown(trig, tx, g, b, 8, fade)
  }

  /** The loop of `create` over the payload. */
  function AppendBytes(trig: Trig, tx: Transmitter, g: ToneGenerator, data: seq<bv8>, fade: real): (r: ToneGenerator)
    decreases |data|
    ensures r.sampleRate == g.sampleRate
    ensures r.samples ==
              g.samples + Rendered(trig, g.sampleRate,
                                   PulseTrain(FrequenciesOf(tx.profile), DataSymbols(data), ToneMicros(tx), GapMicros(tx), SineFaded(fade)))
  {
    if |data| == 0 then g
    else
      var g1 := AppendByte(trig, tx, g, data[0], fade);
      var r := AppendBytes(trig, tx, g1, data[1..], fade);
      AppendTrain(trig, tx, g.sampleRate, g.samples, ByteSymbols(data[0]), DataSymbols(data[1..]), fade);
      r
  }

  /** Two symbols appended one after the other: a pulse train of two. */
  function AppendPair(trig: Trig, tx: Transmitter, g: ToneGenerator, a: Symbol, b: Symbol, fade: real): (r: ToneGenerator)
    ensures r.sampleRate == g.sampleRate
    ensures r.samples ==
              g.samples + Rendered(trig, g.sampleRate,
                                   PulseTrain(FrequenciesOf(tx.profile), [a, b], ToneMicros(tx), GapMicros(tx), SineFaded(fade)))
  {
    var (f, t, gap, shape) := (FrequenciesOf(tx.profile), ToneMicros(tx), GapMicros(tx), SineFaded(fade));
    SingleTrain(f, a, t, gap, shape);
    SingleTrain(f, b, t, gap, shape);
    AppendTrain(trig, tx, g.sampleRate, g.samples, [a], [b], fade);
    assert [a] + [b] == [a, b];
    AppendSymbol(trig, tx, AppendSymbol(trig, tx, g, a, fade), b, fade)
  }

  /** The rendered frame is the rendered silence, start and next, payload, end and next,
      and silence, in that order. */
  lemma PaddedFrameRendered(trig: Trig, sampleRate: nat, f: Frequencies, data: seq<bv8>, tone: nat, gap: nat, shape: Shape)
    ensures Rendered(trig, sampleRate, PaddedFrame(f, data, tone, gap, shape)) ==
              Rendered(trig, sampleRate, [Silence(gap)])
              + Rendered(trig, sampleRate, PulseTrain(f, [StartMark, NextMark], tone, gap, shape))
              + Rendered(trig, sampleRate, PulseTrain(f, DataSymbols(data), tone, gap, shape))
              + Rendered(trig, sampleRate, PulseTrain(f, [EndMark, NextMark], tone, gap, shape))
              + Rendered(trig, sampleRate, [Silence(gap)])
  {
    var head := PulseTrain(f, [StartMark, NextMark], tone, gap, shape);
    var body := PulseTrain(f, DataSymbols(data), tone, gap, shape);
    var tail := PulseTrain(f, [EndMark, NextMark], tone, gap, shape);
    PulseTrainAppend(f, [StartMark, NextMark], DataSymbols(data), tone, gap, shape);
    PulseTrainAppend(f, [StartMark, NextMark] + DataSymbols(data), [EndMark, NextMark], tone, gap, shape);
    var train := PulseTrain(f, Symbols(data), tone, gap, shape);
    assert train == head + body + tail;
    RenderedAppend(trig, sampleRate, head, body);
    RenderedAppend(trig, sampleRate, head + body, tail);
    RenderedAppend(trig, sampleRate, [Silence(gap)], train);
    RenderedAppend(trig, sampleRate, [Silence(gap)] + train, [Silence(gap)]);
  }

  /** `Transmitter::create`: silence, start, next, the payload, end, next, silence, as
      the samples of the library's padded frame. */
  function Create(trig: Trig, tx: Transmitter, data: seq<bv8>): (samples: seq<real>)
    ensures samples == Rendered(trig, tx.spec.sr,
                                PaddedFrame(FrequenciesOf(tx.profile), data, ToneMicros(tx), GapMicros(tx), SineFaded(FADE)))
  {
    var g1 := AppendSilence(trig, tx, New(tx.spec));
    var g2 := AppendPair(trig, tx, g1, StartMark, NextMark, FADE);
    var g3 := AppendBytes(trig, tx, g2, data, FADE);
    var g4 := AppendPair(trig, tx, g3, EndMark, NextMark, FADE);
    var g5 := AppendSilence(trig, tx, g4);
    PaddedFrameRendered(trig, tx.spec.sr, FrequenciesOf(tx.profile), data, ToneMicros(tx), GapMicros(tx), SineFaded(FADE));
    g5.samples
  }

  /** `create` produces `2·⌊sr·4g/10⁶⌋ + (4 + 16n)·(⌊sr·t/10⁶⌋ + ⌊sr·g/10⁶⌋)` samples. */
  lemma CreateLength(trig: Trig, tx: Transmitter, data: seq<bv8>)
    ensures |Create(trig, tx, data)| == FrameSampleCount(tx.spec.sr, |data|, ToneMicros(tx), GapMicros(tx))
  {
    PaddedFrameTotal(tx.spec.sr, FrequenciesOf(tx.profile), data, ToneMicros(tx), GapMicros(tx), SineFaded(FADE));
  }
}
