/** The symbol appends both integer transmitters share (the library's `tx::Transmitter`
    and the older crate's WAV-writing transmitter): each symbol a sine-faded tone of the
    tone duration and a 0 Hz gap, written through the integer tone generator. */
module IntTransmitter {
  import opened Bytes
  import opened Framing
  import opened ToneI32
  import opened Ints
  import Tone
  import ProtocolTransmitter

  /** The frequencies and the tone and gap durations (microseconds) a transmitter keys
      the symbols with. */
  datatype Keying = Keying(f: Frequencies, tone: nat, gap: nat)

  /** The samples the integer generator writes for a sequence of segments. */
  function Rendered(trig: Tone.Trig, sc: Scale, segs: seq<Segment>): (s: seq<int>)
    ensures |s| == SampleTotal(sc.sampleRate, segs)
  {
    if |segs| == 0 then []
    else ToneSamples(trig, sc, segs[0].frequency, segs[0].duration, segs[0].shape) + Rendered(trig, sc, segs[1..])
  }

  lemma {:induction false} RenderedAppend(trig: Tone.Trig, sc: Scale, a: seq<Segment>, b: seq<Segment>)
    ensures Rendered(trig, sc, a + b) == Rendered(trig, sc, a) + Rendered(trig, sc, b)
  {
    if |a| == 0 {
      assert a + b == b;
    } else {
      assert (a + b)[1..] == a[1..] + b;
      RenderedAppend(trig, sc, a[1..], b);
    }
  }

  /** Whatever the segments, every sample lies in the range of the bit depth. */
  lemma {:induction false} RenderedInRange(trig: Tone.Trig, sc: Scale, segs: seq<Segment>)
    requires trig.Bounded() && sc.Valid()
    ensures forall i :: 0 <= i < |Rendered(trig, sc, segs)| ==> sc.negative <= Rendered(trig, sc, segs)[i] <= sc.positive
  {
    if |segs| > 0 {
      RenderedInRange(trig, sc, segs[1..]);
    }
  }

  /** `append_start`, `append_end`, `append_next` and `append_bit`: the symbol's
      frequency as a sine-faded tone, then 0 Hz for the gap. */
  function AppendSymbol(trig: Tone.Trig, k: Keying, g: ToneGenerator, s: Symbol, fade: real): (r: ToneGenerator)
    ensures r.scale == g.scale
    ensures r.samples == g.samples + Rendered(trig, g.scale, Pulse(k.f, s, k.tone, k.gap, Tone.SineFaded(fade)))
  {
    var pulse := Pulse(k.f, s, k.tone, k.gap, Tone.SineFaded(fade));
    assert pulse[1..][1..] == [];
    var toned := Append(trig, g, SymbolFrequency(k.f, s), k.tone, Tone.SineFaded(fade));
    Append(trig, toned, 0.0, k.gap, Tone.Plain)
  }

  /** `append_silence`: 0 Hz for four gap durations. */
  function AppendSilence(trig: Tone.Trig, k: Keying, g: ToneGenerator): (r: ToneGenerator)
    ensures r.scale == g.scale
    ensures r.samples == g.samples + Rendered(trig, g.scale, [Silence(k.gap)])
  {
    Append(trig, g, 0.0, k.gap * 4, Tone.Plain)
  }

  lemma AppendTrain(trig: Tone.Trig, k: Keying, sc: Scale, prefix: seq<int>, a: seq<Symbol>, b: seq<Symbol>, fade: real)
    ensures prefix + Rendered(trig, sc, PulseTrain(k.f, a, k.tone, k.gap, Tone.SineFaded(fade)))
                   + Rendered(trig, sc, PulseTrain(k.f, b, k.tone, k.gap, Tone.SineFaded(fade))) ==
            prefix + Rendered(trig, sc, PulseTrain(k.f, a + b, k.tone, k.gap, Tone.SineFaded(fade)))
  {
    PulseTrainAppend(k.f, a, b, k.tone, k.gap, Tone.SineFaded(fade));
    RenderedAppend(trig, sc, PulseTrain(k.f, a, k.tone, k.gap, Tone.SineFaded(fade)),
                   PulseTrain(k.f, b, k.tone, k.gap, Tone.SineFaded(fade)));
  }

  /** Two symbols appended one after the other: a pulse train of two. */
  function AppendPair(trig: Tone.Trig, k: Keying, g: ToneGenerator, a: Symbol, b: Symbol, fade: real): (r: ToneGenerator)
    ensures r.scale == g.scale
    ensures r.samples == g.samples + Rendered(trig, g.scale, PulseTrain(k.f, [a, b], k.tone, k.gap, Tone.SineFaded(fade)))
  {
    SingleTrain(k.f, a, k.tone, k.gap, Tone.SineFaded(fade));
    SingleTrain(k.f, b, k.tone, k.gap, Tone.SineFaded(fade));
    AppendTrain(trig, k, g.scale, g.samples, [a], [b], fade);
    assert [a] + [b] == [a, b];
    AppendSymbol(trig, k, AppendSymbol(trig, k, g, a, fade), b, fade)
  }

  /** `append_byte`'s loop over bits `j - 1` down to 0. */
  function AppendByteDown(trig: Tone.Trig, k: Keying, g: ToneGenerator, b: bv8, j: nat, fade: real): (r: ToneGenerator)
    requires j <= 8
    decreases j
    ensures r.scale == g.scale
    ensures r.samples == g.samples + Rendered(trig, g.scale, PulseTrain(k.f, ByteSymbolsDown(b, j), k.tone, k.gap, Tone.SineFaded(fade)))
  {
    if j == 0 then g
    else
      var bit := BitMark(BitSet(b, j - 1));
      var g1 := AppendPair(trig, k, g, bit, NextMark, fade);
      var r := AppendByteDown(trig, k, g1, b, j - 1, fade);
      AppendTrain(trig, k, g.scale, g.samples, [bit, NextMark], ByteSymbolsDown(b, j - 1), fade);
      r
  }

  /** `append_byte`: the byte's bits, most significant first, each followed by a next
      marker. */
  function AppendByte(trig: Tone.Trig, k: Keying, g: ToneGenerator, b: bv8, fade: real): (r: ToneGenerator)
    ensures r.scale == g.scale
    ensures r.samples == g.samples + Rendered(trig, g.scale, PulseTrain(k.f, ByteSymbols(b), k.tone, k.gap, Tone.SineFaded(fade)))
  {
    ByteSymbolsDownIsByteSymbols(b);
    AppendByteDown(trig, k, g, b, 8, fade)
  }

  /** The loop over the payload. */
  function AppendBytes(trig: Tone.Trig, k: Keying, g: ToneGenerator, data: seq<bv8>, fade: real): (r: ToneGenerator)
    decreases |data|
    ensures r.scale == g.scale
    ensures r.samples == g.samples + Rendered(trig, g.scale, PulseTrain(k.f, DataSymbols(data), k.tone, k.gap, Tone.SineFaded(fade)))
  {
    if |data| == 0 then g
    else
      var g1 := AppendByte(trig, k, g, data[0], fade);
      var r := AppendBytes(trig, k, g1, data[1..], fade);
      AppendTrain(trig, k, g.scale, g.samples, ByteSymbols(data[0]), DataSymbols(data[1..]), fade);
      r
  }

  /** Start and next, the payload, end and next: the whole pulse train of the frame. */
  function AppendFrame(trig: Tone.Trig, k: Keying, g: ToneGenerator, data: seq<bv8>, fade: real): (r: ToneGenerator)
    ensures r.scale == g.scale
    ensures r.samples == g.samples + Rendered(trig, g.scale, PulseTrain(k.f, Symbols(data), k.tone, k.gap, Tone.SineFaded(fade)))
  {
    var g1 := AppendPair(trig, k, g, StartMark, NextMark, fade);
    var g2 := AppendBytes(trig, k, g1, data, fade);
    var g3 := AppendPair(trig, k, g2, EndMark, NextMark, fade);
    AppendTrain(trig, k, g.scale, g.samples, [StartMark, NextMark], DataSymbols(data), fade);
    AppendTrain(trig, k, g.scale, g.samples, [StartMark, NextMark] + DataSymbols(data), [EndMark, NextMark], fade);
    g3
  }

  /** `ints` holds `reals`, sample for sample, magnified to the scale's range and cast
      with `as i32`. */
  predicate ScaledCopy(sc: Scale, ints: seq<int>, reals: seq<real>) {
    |ints| == |reals| && forall i :: 0 <= i < |ints| ==> ints[i] == TruncateToI32(Magnify(sc, reals[i]))
  }

  /** The integer generator writes, sample for sample, the floating-point generator's
      samples of the same segments, magnified to the bit depth's range and cast with
      `as i32`. */
  lemma {:induction false} RenderedScalesFloat(trig: Tone.Trig, sc: Scale, segs: seq<Segment>)
    requires trig.Bounded()
    ensures ScaledCopy(sc, Rendered(trig, sc, segs), ProtocolTransmitter.Rendered(trig, sc.sampleRate, segs))
  {
    if |segs| > 0 {
      var s := segs[0];
      var (ints, reals) := (Rendered(trig, sc, segs), ProtocolTransmitter.Rendered(trig, sc.sampleRate, segs));
      var (head, tail) := (ToneSamples(trig, sc, s.frequency, s.duration, s.shape), Rendered(trig, sc, segs[1..]));
      var (fhead, ftail) := (Tone.ToneSamples(trig, sc.sampleRate, s.frequency, s.duration, s.shape),
                             ProtocolTransmitter.Rendered(trig, sc.sampleRate, segs[1..]));
      ToneSamplesScaleFloat(trig, sc, s.frequency, s.duration, s.shape);
      RenderedScalesFloat(trig, sc, segs[1..]);
      assert ints == head + tail && reals == fhead + ftail;
      forall i | 0 <= i < |ints|
        ensures ints[i] == TruncateToI32(Magnify(sc, reals[i]))
      {
        if i < |head| {
          assert ints[i] == head[i] && reals[i] == fhead[i];
        } else {
          assert ints[i] == tail[i - |head|] && reals[i] == ftail[i - |head|];
        }
      }
    }
  }

  lemma ScaledCopyOf(trig: Tone.Trig, sc: Scale, segs: seq<Segment>, ints: seq<int>, reals: seq<real>)
    requires trig.Bounded()
    requires ints == Rendered(trig, sc, segs) && reals == ProtocolTransmitter.Rendered(trig, sc.sampleRate, segs)
    ensures ScaledCopy(sc, ints, reals)
  {
    RenderedScalesFloat(trig, sc, segs);
  }
}
