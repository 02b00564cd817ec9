/** The first transmitter of the older crate (`generate_audio_data`): the same frame as
    the later transmitters, as unfaded tones at fixed constants, 48 kHz and 16 bits, each
    sample `32767 · sin(2π · i / period)` cast with `as i32`. */
module LegacyTransmitter {
  import opened Ints
  import opened Bytes
  import opened Framing
  import ToneI32
  import Tone
  import IntTransmitter

  const AUDIO_SR: nat := 48_000
  const AUDIO_BPS: nat := 16
  const TONE_LENGTH_US: nat := 10_000
  const TONE_GAP_US: nat := 10_000

  /** `(2^(AUDIO_BPS - 1)) - 1`. */
  const SAMPLING_MAGNITUDE: int := 32_767

  /** Start, end and next markers, then the frequencies of a one and a zero. */
  const FREQUENCIES: Frequencies := Frequencies(19_600.0, 19_800.0, 19_400.0, 19_000.0, 19_200.0)

  /** The fixed magnitude scales both halves of the sine alike. */
  const SCALE: ToneI32.Scale := ToneI32.Scale(AUDIO_SR, SAMPLING_MAGNITUDE, -SAMPLING_MAGNITUDE)

  lemma SamplingMagnitudeOfDepth()
    ensures SAMPLING_MAGNITUDE == Pow2(AUDIO_BPS - 1) - 1
  {
    Pow2Add(1, 1);
    Pow2Add(2, 2);
    Pow2Add(4, 4);
    Pow2Add(8, 7);
    Pow2Add(4, 3);
    Pow2Add(2, 1);
  }

  /** Sample `i` of `add_tone`. */
  function Sample(trig: Tone.Trig, frequency: real, i: nat): (v: i32)
    ensures trig.Bounded() ==> -SAMPLING_MAGNITUDE <= v <= SAMPLING_MAGNITUDE
  {
    var s := Tone.SineNorm(trig, i, AUDIO_SR, frequency);
    ToneI32.ScaledRange(SAMPLING_MAGNITUDE as real, s, 0.0, SAMPLING_MAGNITUDE as real);
    ToneI32.ScaledRange(-(SAMPLING_MAGNITUDE as real), -s, -(SAMPLING_MAGNITUDE as real), 0.0);
    TruncateToI32(SAMPLING_MAGNITUDE as real * s)
  }

  /** With one magnitude for both halves of the sine, `add_tone` writes what the integer
      tone generator writes for an unfaded tone. */
  lemma SampleIsPlainTone(trig: Tone.Trig, frequency: real, i: nat, n: nat)
    requires i < n
    ensures Sample(trig, frequency, i) == ToneI32.ToneSample(trig, SCALE, frequency, Tone.Plain, i, n)
  {
    var s := Tone.SineNorm(trig, i, AUDIO_SR, frequency);
    assert ToneI32.SineMagnitude(trig, SCALE, i, frequency) == s * SAMPLING_MAGNITUDE as real;
    assert ToneI32.ScaledSample(trig, SCALE, frequency, Tone.Plain, i, n) == s * SAMPLING_MAGNITUDE as real;
  }

  /** `WaveFile::add_tone`: `⌊48000 · duration / 10⁶⌋` samples appended to the file. */
  function AddTone(trig: Tone.Trig, wav: seq<int>, frequency: real, duration: nat): (r: seq<int>)
    ensures r == wav + ToneI32.ToneSamples(trig, SCALE, frequency, duration, Tone.Plain)
  {
    var n := AUDIO_SR * duration / 1_000_000;
    var tone := seq(n, i requires 0 <= i < n => Sample(trig, frequency, i) as int);
    assert tone == ToneI32.ToneSamples(trig, SCALE, frequency, duration, Tone.Plain) by {
      forall i | 0 <= i < n
        ensures tone[i] == ToneI32.ToneSamples(trig, SCALE, frequency, duration, Tone.Plain)[i]
      {
        SampleIsPlainTone(trig, frequency, i, n);
      }
    }
    wav + tone
  }

  /** The samples of a sequence of segments at the fixed scale. */
  function Train(trig: Tone.Trig, syms: seq<Symbol>): seq<int> {
    IntTransmitter.Rendered(trig, SCALE, PulseTrain(FREQUENCIES, syms, TONE_LENGTH_US, TONE_GAP_US, Tone.Plain))
  }

  lemma TrainAppend(trig: Tone.Trig, prefix: seq<int>, a: seq<Symbol>, b: seq<Symbol>)
    ensures prefix + Train(trig, a) + Train(trig, b) == prefix + Train(trig, a + b)
  {
    PulseTrainAppend(FREQUENCIES, a, b, TONE_LENGTH_US, TONE_GAP_US, Tone.Plain);
    IntTransmitter.RenderedAppend(trig, SCALE, PulseTrain(FREQUENCIES, a, TONE_LENGTH_US, TONE_GAP_US, Tone.Plain),
                                  PulseTrain(FREQUENCIES, b, TONE_LENGTH_US, TONE_GAP_US, Tone.Plain));
  }

  /** Appending the trains of `a` and then of `b` appends the train of `a + b`. */
  lemma Chain(trig: Tone.Trig, wav: seq<int>, mid: seq<int>, r: seq<int>, a: seq<Symbol>, b: seq<Symbol>)
    requires mid == wav + Train(trig, a) && r == mid + Train(trig, b)
    ensures r == wav + Train(trig, a + b)
  {
    TrainAppend(trig, wav, a, b);
  }

  /** A symbol's tone for the tone length, then 0 Hz for the gap length. */
  function AddPulse(trig: Tone.Trig, wav: seq<int>, s: Symbol): (r: seq<int>)
    ensures r == wav + Train(trig, [s])
  {
    var pulse := Pulse(FREQUENCIES, s, TONE_LENGTH_US, TONE_GAP_US, Tone.Plain);
    SingleTrain(FREQUENCIES, s, TONE_LENGTH_US, TONE_GAP_US, Tone.Plain);
    assert pulse[1..][1..] == [];
    assert IntTransmitter.Rendered(trig, SCALE, pulse) ==
             ToneI32.ToneSamples(trig, SCALE, SymbolFrequency(FREQUENCIES, s), TONE_LENGTH_US, Tone.Plain) +
             ToneI32.ToneSamples(trig, SCALE, 0.0, TONE_GAP_US, Tone.Plain);
    AddTone(trig, AddTone(trig, wav, SymbolFrequency(FREQUENCIES, s), TONE_LENGTH_US), 0.0, TONE_GAP_US)
  }

  /** Two symbols, one after the other: a marker or a bit, then the next marker. */
  function AddPair(trig: Tone.Trig, wav: seq<int>, a: Symbol, b: Symbol): (r: seq<int>)
    ensures r == wav + Train(trig, [a, b])
  {
    TrainAppend(trig, wav, [a], [b]);
    assert [a] + [b] == [a, b];
    AddPulse(trig, AddPulse(trig, wav, a), b)
  }

  /** `transmit_byte`'s loop over bits `j - 1` down to 0. */
  function TransmitByteDown(trig: Tone.Trig, wav: seq<int>, b: bv8, j: nat): (r: seq<int>)
    requires j <= 8
    decreases j
    ensures r == wav + Train(trig, ByteSymbolsDown(b, j))
  {
    if j == 0 then wav
    else
      var bit := BitSet(b, j - 1);
      var mid := AddPair(trig, wav, BitMark(bit), NextMark);
      var r := TransmitByteDown(trig, mid, b, j - 1);
      Chain(trig, wav, mid, r, [BitMark(bit), NextMark], ByteSymbolsDown(b, j - 1));
      r
  }

  /** `transmit_byte`: the byte's bits, most significant first, each followed by the next
      marker. The eight bits are counted as half the byte's sixteen symbols rather than as
      the literal 8, which keeps the verifier from unrolling the loop eight times wherever
      a byte is sent. */
  function TransmitByte(trig: Tone.Trig, wav: seq<int>, b: bv8): (r: seq<int>)
    ensures r == wav + Train(trig, ByteSymbols(b))
  {
    ByteSymbolsDownIsByteSymbols(b);
    TransmitByteDown(trig, wav, b, |ByteSymbols(b)| / 2)
  }

  /** The loop over the payload. */
  function TransmitBytes(trig: Tone.Trig, wav: seq<int>, data: seq<bv8>): (r: seq<int>)
    decreases |data|
  {
    if |data| == 0 then wav else TransmitBytes(trig, TransmitByte(trig, wav, data[0]), data[1..])
  }

  /** The loop appends the train of the payload's symbols. */
  lemma {:induction false} TransmitBytesTrain(trig: Tone.Trig, wav: seq<int>, data: seq<bv8>)
    decreases |data|
    ensures TransmitBytes(trig, wav, data) == wav + Train(trig, DataSymbols(data))
  {
    if |data| > 0 {
      var mid := TransmitByte(trig, wav, data[0]);
      TransmitBytesTrain(trig, mid, data[1..]);
      Chain(trig, wav, mid, TransmitBytes(trig, wav, data), ByteSymbols(data[0]), DataSymbols(data[1..]));
    }
  }

  /** `generate_audio_data`: the samples written to the file: start and next, the
      payload, end and next, all unfaded. */
  function GenerateAudioData(trig: Tone.Trig, data: seq<bv8>): (samples: seq<int>)
    ensures samples == Train(trig, Symbols(data))
  {
    var w1 := AddPair(trig, [], StartMark, NextMark);
    var w2 := TransmitBytes(trig, w1, data);
    TransmitBytesTrain(trig, w1, data);
    var w3 := AddPair(trig, w2, EndMark, NextMark);
    TrainAppend(trig, [], [StartMark, NextMark], DataSymbols(data));
    TrainAppend(trig, [], [StartMark, NextMark] + DataSymbols(data), [EndMark, NextMark]);
    w3
  }

  /** Every symbol takes 480 samples of tone and 480 of gap: `960 · (4 + 16n)` samples
      for `n` bytes. */
  lemma GenerateLength(trig: Tone.Trig, data: seq<bv8>)
    ensures |GenerateAudioData(trig, data)| == 960 * (4 + 16 * |data|)
  {
    FrameTrainTotal(AUDIO_SR, FREQUENCIES, data, TONE_LENGTH_US, TONE_GAP_US, Tone.Plain);
    SymbolTotal(|data|);
  }

  lemma SymbolTotal(n: nat)
    ensures TrainSampleCount(AUDIO_SR, n, TONE_LENGTH_US, TONE_GAP_US) == 960 * (4 + 16 * n)
  {
    assert Tone.SampleCount(AUDIO_SR, TONE_LENGTH_US) == 480;
  }

  /** The samples are symmetric about zero: never below `-32767`, though 16 bits reach
      `-32768`. */
  lemma GenerateInRange(trig: Tone.Trig, data: seq<bv8>)
    requires trig.Bounded()
    ensures var s := GenerateAudioData(trig, data);
            forall i :: 0 <= i < |s| ==> -SAMPLING_MAGNITUDE <= s[i] <= SAMPLING_MAGNITUDE
  {
    IntTransmitter.RenderedInRange(trig, SCALE, PulseTrain(FREQUENCIES, Symbols(data), TONE_LENGTH_US, TONE_GAP_US, Tone.Plain));
  }
}
