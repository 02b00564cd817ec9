/** The framing every transmitter of the crate shares: a start marker and a next marker,
    for each payload byte its eight bits (most significant first) each followed by a next
    marker, then an end marker and a final next marker. Each symbol is sent as a tone
    followed by a gap of silence; the library's transmitters also pad the frame with four
    gaps of silence on both sides. */
module Framing {
  import opened Bytes
  import Tone

  datatype Symbol = StartMark | EndMark | NextMark | BitMark(bit: bool)

  /** `append_byte`'s loop over bits `k - 1` down to 0: each bit (`byte & (1 << i) != 0`)
      followed by a next marker. */
  function ByteSymbolsDown(b: bv8, k: nat): (s: seq<Symbol>)
    requires k <= 8
    ensures |s| == 2 * k
  {
    if k == 0 then [] else [BitMark(BitSet(b, k - 1)), NextMark] + ByteSymbolsDown(b, k - 1)
  }

  lemma {:induction false} ByteSymbolsDownAt(b: bv8, k: nat, j: nat)
    requires j < k <= 8
    ensures ByteSymbolsDown(b, k)[2 * j] == BitMark(BitSet(b, k - 1 - j))
    ensures ByteSymbolsDown(b, k)[2 * j + 1] == NextMark
  {
    if j > 0 {
      ByteSymbolsDownAt(b, k - 1, j - 1);
    }
  }

  /** The symbols of one byte: bit `i` counted from the most significant end at
      position `2 * i`, a next marker after each. */
  function ByteSymbols(b: bv8): (s: seq<Symbol>)
    ensures |s| == 16
  {
    seq(16, j requires 0 <= j < 16 => if j % 2 == 0 then BitMark(MsbSet(b, j / 2)) else NextMark)
  }

  /** `append_byte`'s loop, from bit 7 down to bit 0, emits the byte's symbols. */
  lemma ByteSymbolsDownIsByteSymbols(b: bv8)
    ensures ByteSymbolsDown(b, 8) == ByteSymbols(b)
  {
    var (down, s) := (ByteSymbolsDown(b, 8), ByteSymbols(b));
    forall j | 0 <= j < 16
      ensures down[j] == s[j]
    {
      ByteSymbolsDownAt(b, 8, j / 2);
    }
  }

  /** The symbols of the payload, byte after byte. */
  function DataSymbols(data: seq<bv8>): (s: seq<Symbol>)
    ensures |s| == 16 * |data|
  {
    if |data| == 0 then [] else ByteSymbols(data[0]) + DataSymbols(data[1..])
  }

  lemma {:induction false} DataSymbolsAt(data: seq<bv8>, j: nat, i: nat)
    requires j < |data| && i < 8
    ensures DataSymbols(data)[16 * j + 2 * i] == BitMark(MsbSet(data[j], i))
    ensures DataSymbols(data)[16 * j + 2 * i + 1] == NextMark
  {
    if j > 0 {
      DataSymbolsAt(data[1..], j - 1, i);
    }
  }

  /** The whole frame of a payload, as `create` sends it. */
  function Symbols(data: seq<bv8>): (s: seq<Symbol>)
    ensures |s| == 4 + 16 * |data|
    ensures s[..2] == [StartMark, NextMark]
    ensures s[|s| - 2..] == [EndMark, NextMark]
    ensures s[2..|s| - 2] == DataSymbols(data)
  {
    [StartMark, NextMark] + DataSymbols(data) + [EndMark, NextMark]
  }

  /** Bit `i` of byte `j` is the symbol at `2 + 16 * j + 2 * i`, and a next marker
      follows it. */
  lemma SymbolsAt(data: seq<bv8>, j: nat, i: nat)
    requires j < |data| && i < 8
    ensures Symbols(data)[2 + 16 * j + 2 * i] == BitMark(MsbSet(data[j], i))
    ensures Symbols(data)[2 + 16 * j + 2 * i + 1] == NextMark
  {
    DataSymbolsAt(data, j, i);
  }

  /** The five frequencies of a profile. */
  datatype Frequencies = Frequencies(start: real, end: real, next: real, high: real, low: real)

  /** The frequency that carries a symbol: a 1 bit is sent on the high tone and a 0 bit
      on the low tone. */
  function SymbolFrequency(f: Frequencies, s: Symbol): real {
    match s
    case StartMark => f.start
    case EndMark => f.end
    case NextMark => f.next
    case BitMark(bit) => if bit then f.high else f.low
  }

  /** One call of a tone generator: a frequency (0 Hz is silence), a duration in
      microseconds and a shape. */
  datatype Segment = Segment(frequency: real, duration: nat, shape: Tone.Shape)

  /** A symbol as sent: its tone for `tone` microseconds, then `gap` microseconds of
      0 Hz. */
  function Pulse(f: Frequencies, s: Symbol, tone: nat, gap: nat, shape: Tone.Shape): seq<Segment> {
    [Segment(SymbolFrequency(f, s), tone, shape), Segment(0.0, gap, Tone.Plain)]
  }

  function PulseTrain(f: Frequencies, syms: seq<Symbol>, tone: nat, gap: nat, shape: Tone.Shape): (segs: seq<Segment>)
    ensures |segs| == 2 * |syms|
  {
    if |syms| == 0 then [] else Pulse(f, syms[0], tone, gap, shape) + PulseTrain(f, syms[1..], tone, gap, shape)
  }

  /** A train of one symbol is its pulse. */
  lemma SingleTrain(f: Frequencies, s: Symbol, tone: nat, gap: nat, shape: Tone.Shape)
    ensures PulseTrain(f, [s], tone, gap, shape) == Pulse(f, s, tone, gap, shape)
  {
    assert [s][1..] == [];
  }

  lemma {:induction false} PulseTrainAppend(f: Frequencies, a: seq<Symbol>, b: seq<Symbol>, tone: nat, gap: nat, shape: Tone.Shape)
    ensures PulseTrain(f, a + b, tone, gap, shape) == PulseTrain(f, a, tone, gap, shape) + PulseTrain(f, b, tone, gap, shape)
  {
    if |a| == 0 {
      assert a + b == b;
    } else {
      assert (a + b)[1..] == a[1..] + b;
      PulseTrainAppend(f, a[1..], b, tone, gap, shape);
    }
  }

  /** Symbol `k` of the train is its tone segment `2 * k`, followed by its gap. */
  lemma {:induction false} PulseTrainAt(f: Frequencies, syms: seq<Symbol>, tone: nat, gap: nat, shape: Tone.Shape, k: nat)
    requires k < |syms|
    ensures PulseTrain(f, syms, tone, gap, shape)[2 * k] == Segment(SymbolFrequency(f, syms[k]), tone, shape)
    ensures PulseTrain(f, syms, tone, gap, shape)[2 * k + 1] == Segment(0.0, gap, Tone.Plain)
  {
    if k > 0 {
      PulseTrainAt(f, syms[1..], tone, gap, shape, k - 1);
    }
  }

  /** `append_silence`: four gaps of 0 Hz. */
  function Silence(gap: nat): Segment {
    Segment(0.0, 4 * gap, Tone.Plain)
  }

  /** The samples the segments take at `sampleRate`, each one
      `floor(sampleRate * duration / 1_000_000)`. */
  function SampleTotal(sampleRate: nat, segs: seq<Segment>): nat {
    if |segs| == 0 then 0 else Tone.SampleCount(sampleRate, segs[0].duration) + SampleTotal(sampleRate, segs[1..])
  }

  lemma {:induction false} SampleTotalAppend(sampleRate: nat, a: seq<Segment>, b: seq<Segment>)
    ensures SampleTotal(sampleRate, a + b) == SampleTotal(sampleRate, a) + SampleTotal(sampleRate, b)
  {
    if |a| == 0 {
      assert a + b == b;
    } else {
      assert (a + b)[1..] == a[1..] + b;
      SampleTotalAppend(sampleRate, a[1..], b);
    }
  }

  /** Every symbol takes the same number of samples, whatever its frequency: the stride
      of the receivers. */
  lemma {:induction false} PulseTrainTotal(sampleRate: nat, f: Frequencies, syms: seq<Symbol>, tone: nat, gap: nat, shape: Tone.Shape)
    ensures SampleTotal(sampleRate, PulseTrain(f, syms, tone, gap, shape)) ==
              |syms| * (Tone.SampleCount(sampleRate, tone) + Tone.SampleCount(sampleRate, gap))
  {
    if |syms| > 0 {
      var head := Pulse(f, syms[0], tone, gap, shape);
      SampleTotalAppend(sampleRate, head, PulseTrain(f, syms[1..], tone, gap, shape));
      PulseTrainTotal(sampleRate, f, syms[1..], tone, gap, shape);
      PulseTotal(sampleRate, f, syms[0], tone, gap, shape);
      MulSucc(|syms|, Tone.SampleCount(sampleRate, tone) + Tone.SampleCount(sampleRate, gap));
    }
  }

  lemma PulseTotal(sampleRate: nat, f: Frequencies, s: Symbol, tone: nat, gap: nat, shape: Tone.Shape)
    ensures SampleTotal(sampleRate, Pulse(f, s, tone, gap, shape)) ==
              Tone.SampleCount(sampleRate, tone) + Tone.SampleCount(sampleRate, gap)
  {
    var p := Pulse(f, s, tone, gap, shape);
    assert p[1..][1..] == [];
    assert SampleTotal(sampleRate, p[1..]) == Tone.SampleCount(sampleRate, gap) + SampleTotal(sampleRate, []);
  }

  lemma MulSucc(n: nat, e: nat)
    requires n >= 1
    ensures n * e == e + (n - 1) * e
  {
  }

  /** `4 + 16 * n` symbols of a tone and a gap each: the samples of the frame of `n`
      bytes without padding. */
  function TrainSampleCount(sampleRate: nat, n: nat, tone: nat, gap: nat): nat {
    (4 + 16 * n) * (Tone.SampleCount(sampleRate, tone) + Tone.SampleCount(sampleRate, gap))
  }

  lemma FrameTrainTotal(sampleRate: nat, f: Frequencies, data: seq<bv8>, tone: nat, gap: nat, shape: Tone.Shape)
    ensures SampleTotal(sampleRate, PulseTrain(f, Symbols(data), tone, gap, shape)) == TrainSampleCount(sampleRate, |data|, tone, gap)
  {
    PulseTrainTotal(sampleRate, f, Symbols(data), tone, gap, shape);
  }

  /** The library's frame: silence, the pulses of every symbol, silence. */
  function PaddedFrame(f: Frequencies, data: seq<bv8>, tone: nat, gap: nat, shape: Tone.Shape): (segs: seq<Segment>) {
    [Silence(gap)] + PulseTrain(f, Symbols(data), tone, gap, shape) + [Silence(gap)]
  }

  /** Two silences of four gaps each, and `4 + 16 * n` symbols of a tone and a gap each. */
  function FrameSampleCount(sampleRate: nat, n: nat, tone: nat, gap: nat): nat {
    2 * Tone.SampleCount(sampleRate, 4 * gap) +
    (4 + 16 * n) * (Tone.SampleCount(sampleRate, tone) + Tone.SampleCount(sampleRate, gap))
  }

  /** The library's frame takes `2·⌊sr·4g/10⁶⌋ + (4 + 16n)·(⌊sr·t/10⁶⌋ + ⌊sr·g/10⁶⌋)`
      samples. */
  lemma PaddedFrameTotal(sampleRate: nat, f: Frequencies, data: seq<bv8>, tone: nat, gap: nat, shape: Tone.Shape)
    ensures SampleTotal(sampleRate, PaddedFrame(f, data, tone, gap, shape)) == FrameSampleCount(sampleRate, |data|, tone, gap)
  {
    var train := PulseTrain(f, Symbols(data), tone, gap, shape);
    SampleTotalAppend(sampleRate, [Silence(gap)] + train, [Silence(gap)]);
    SampleTotalAppend(sampleRate, [Silence(gap)], train);
    PulseTrainTotal(sampleRate, f, Symbols(data), tone, gap, shape);
  }
}
