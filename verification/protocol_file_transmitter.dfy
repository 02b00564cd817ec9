/** The older crate's WAV-writing transmitter (`protocol::tx::Transmitter::create_file`):
    the pulse train of a payload, without the library's padding silences, written by the
    integer tone generator with a fade ratio of 0.1. The file itself is modelled as the
    sequence of samples written to it. */
module ProtocolFileTransmitter {
  import opened Ints
  import opened Optional
  import opened Bytes
  import opened Framing
  import opened Wav
  import ToneI32
  import Tone
  import IntTransmitter
  import TxTransmitter
  import SpecConversions

  /** The fade ratio `create_file` passes to every faded tone. */
  const FADE_RATIO: real := 0.1

  /** The crate's flat profile: five frequencies and the tone and gap lengths in
      microseconds. */
  datatype ProtocolProfile = ProtocolProfile(start: real, end: real, next: real, high: real, low: real,
                                             toneLength: nat, gapLength: nat)

  /** The sample rate and bit depth are `usize` values. */
  datatype Transmitter = Transmitter(profile: ProtocolProfile, sampleRate: u64, bitDepth: u64)

  function KeyingOf(tx: Transmitter): IntTransmitter.Keying {
    var p := tx.profile;
    IntTransmitter.Keying(Frequencies(p.start, p.end, p.next, p.high, p.low), p.toneLength, p.gapLength)
  }

  /** `get_wave_spec`: one channel of integer samples; `as u32` and `as u16` keep the low
      bits of the sample rate and bit depth. */
  function GetWaveSpec(tx: Transmitter): (w: WavSpec)
    ensures w.channels == 1 && w.sampleFormat == Int
    ensures (w.sampleRate - tx.sampleRate) % U32_LIMIT == 0
    ensures (w.bitsPerSample - tx.bitDepth) % U16_LIMIT == 0
  {
    WavSpec(1, tx.sampleRate % U32_LIMIT, tx.bitDepth % U16_LIMIT, Int)
  }

  /** A sample rate and a bit depth that fit their header fields are written unchanged. */
  lemma WaveSpecKeepsFittingValues(tx: Transmitter)
    requires tx.sampleRate < U32_LIMIT && tx.bitDepth < U16_LIMIT
    ensures GetWaveSpec(tx).sampleRate == tx.sampleRate && GetWaveSpec(tx).bitsPerSample == tx.bitDepth
  {
    var w := GetWaveSpec(tx);
  }

  /** A bit depth of `2^16 + 16` reaches the header as 16 bits. */
  lemma WaveSpecTruncatesBitDepth(tx: Transmitter)
    requires tx.bitDepth == U16_LIMIT + 16
    ensures GetWaveSpec(tx).bitsPerSample == 16
  {
  }

  /** `get_frequency_bit`: the high frequency for a one, the low one for a zero: the
      frequency the frame assigns to the bit's symbol. */
  function GetFrequencyBit(tx: Transmitter, bit: bool): (f: real)
    ensures f == SymbolFrequency(KeyingOf(tx).f, BitMark(bit))
    ensures bit ==> f == tx.profile.high
    ensures !bit ==> f == tx.profile.low
  {
    if bit then tx.profile.high else tx.profile.low
  }

  /** The generator `create_file` writes through: `ToneGenerator::new(filename, spec)`. */
  function Generator(tx: Transmitter): Option<ToneI32.ToneGenerator> {
    ToneI32.New(GetWaveSpec(tx))
  }

  /** The frame `create_file` writes: start and next, the payload, end and next. */
  function Train(tx: Transmitter, data: seq<bv8>): seq<Segment> {
    var k := KeyingOf(tx);
    PulseTrain(k.f, Symbols(data), k.tone, k.gap, Tone.SineFaded(FADE_RATIO))
  }

  /** `Transmitter::create_file`: the samples written to the file, or a panic in
      `get_bit_depth_magnitudes` when the header's bit depth is 0 or above 31. */
  function CreateFile(trig: Tone.Trig, tx: Transmitter, data: seq<bv8>): (r: Option<seq<int>>)
    ensures r.Some? <==> 1 <= tx.bitDepth % U16_LIMIT <= 31
    ensures r.Some? ==> r.value == IntTransmitter.Rendered(trig, Generator(tx).value.scale, Train(tx, data))
  {
    match Generator(tx)
    case None => None
    case Some(g) =>
      var k := KeyingOf(tx);
      Some(IntTransmitter.AppendFrame(trig, k, g, data, FADE_RATIO).samples)
  }

  /** The file holds `(4 + 16n)·(⌊sr·t/10⁶⌋ + ⌊sr·g/10⁶⌋)` samples for `n` bytes, the
      sample rate taken modulo 2^32. */
  lemma CreateFileLength(trig: Tone.Trig, tx: Transmitter, data: seq<bv8>)
    requires 1 <= tx.bitDepth % U16_LIMIT <= 31
    ensures |CreateFile(trig, tx, data).value| ==
              TrainSampleCount(tx.sampleRate % U32_LIMIT, |data|, tx.profile.toneLength, tx.profile.gapLength)
  {
    var k := KeyingOf(tx);
    FrameTrainTotal(tx.sampleRate % U32_LIMIT, k.f, data, k.tone, k.gap, Tone.SineFaded(FADE_RATIO));
  }

  /** Every sample fits the header's bit depth. */
  lemma CreateFileInRange(trig: Tone.Trig, tx: Transmitter, data: seq<bv8>)
    requires trig.Bounded() && 1 <= tx.bitDepth % U16_LIMIT <= 31
    ensures var s := CreateFile(trig, tx, data).value;
            forall i :: 0 <= i < |s| ==> -(TxTransmitter.HalfRange(tx.bitDepth % U16_LIMIT) as int) <= s[i] < TxTransmitter.HalfRange(tx.bitDepth % U16_LIMIT)
  {
    IntTransmitter.RenderedInRange(trig, Generator(tx).value.scale, Train(tx, data));
  }

  /** The library's transmitter, given the same frequencies, durations and header, writes
      exactly this file's samples between its two silences of four gaps. */
  lemma LibraryPadsTheFileFrame(trig: Tone.Trig, tx: Transmitter, lib: TxTransmitter.Transmitter, data: seq<bv8>)
    requires 1 <= tx.bitDepth % U16_LIMIT <= 31
    requires TxTransmitter.KeyingOf(lib) == KeyingOf(tx)
    requires SpecConversions.WavSpecOf(lib.spec) == GetWaveSpec(tx)
    ensures var sc := Generator(tx).value.scale;
            var silence := IntTransmitter.Rendered(trig, sc, [Silence(tx.profile.gapLength)]);
            TxTransmitter.Create(trig, lib, data) == Some(silence + CreateFile(trig, tx, data).value + silence)
  {
    var sc := Generator(tx).value.scale;
    var sil := [Silence(tx.profile.gapLength)];
    IntTransmitter.RenderedAppend(trig, sc, sil, Train(tx, data));
    IntTransmitter.RenderedAppend(trig, sc, sil + Train(tx, data), sil);
  }
}
