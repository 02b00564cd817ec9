/** `Receiver::from_file` of the older crate layout (`rx::receiver`): the same search and
    decoding loop as `FileReceiver`, with up to ten failures in a row allowed after the
    start capture and the older resolver's fixed threshold. `tones(i)` is the five tone
    magnitudes of the window starting at sample `i`. */
module LegacyRxReceiver {
  import opened Optional
  import opened Resolver
  import opened ResolverTrace
  import opened StartSearch
  import opened ReceiveLoop
  import LegacyResolver

  const MAX_CONSECUTIVE_FAILS: nat := 10

  function Verdicts(tones: nat -> LegacyResolver.RxMagnitudes): nat -> Window {
    (i: nat) => tones(i).Verdict()
  }

  function StartParams(tones: nat -> LegacyResolver.RxMagnitudes, len: nat, tsz: nat, skip: nat): SearchParams {
    SearchParams(Limit(len, tsz), skip, MAX_CONSECUTIVE_FAILS, LegacyResolver.DB_THRESHOLD, (i: nat) => tones(i).start)
  }

  /** `get_tone_sample_size` and `get_gap_sample_size`: whole samples in a span of
      `micros` microseconds. */
  function SampleSize(sampleRate: nat, micros: nat): (n: nat)
    ensures n * 1_000_000 <= sampleRate * micros < (n + 1) * 1_000_000
  {
    (sampleRate * micros) / 1_000_000
  }

  /** `from_file`; it panics in the start search when the samples are shorter than one
      tone window. */
  method FromFile(tones: nat -> LegacyResolver.RxMagnitudes, len: nat, tsz: nat, gsz: nat, skip: nat)
    returns (bits: Outcome<Option<seq<bv8>>>)
    requires skip >= 1 && tsz + gsz >= 1
    ensures bits.Panics? <==> len < tsz
    ensures var start := SearchFrom(StartParams(tones, len, tsz, skip), 0, Fresh);
            bits.Returns? ==>
              (bits.value.Some? <==>
                 start.Some? && Collect(Initial, WindowsFrom(Verdicts(tones), start.value, tsz, tsz + gsz, len), None).last == Some(EndOut))
    ensures var start := SearchFrom(StartParams(tones, len, tsz, skip), 0, Fresh);
            bits.Returns? && bits.value.Some? ==>
              bits.value.value == Collect(Initial, WindowsFrom(Verdicts(tones), start.value, tsz, tsz + gsz, len), None).bits
    ensures bits.Returns? && bits.value.Some? ==> |bits.value.value| >= 1
  {
    var p := StartParams(tones, len, tsz, skip);
    var start := StartSearch.FindStartingIndex(p, len, tsz);
    if start.Panics? {
      return Panics;
    }
    bits := Returns(None);
    if start.value.Some? {
      var received, output := ReceiveBits(Verdicts(tones), start.value.value, tsz, gsz, len);
      if output == Some(EndOut) {
        bits := Returns(Some(received));
      }
    }
  }
}
