/** Decoding a recorded transmission (`Receiver::from_file`): find the start marker, run
    the decoding loop from there, and hand back the bits only when the loop stopped at
    the end of the transmission. Reading, filtering and normalising the file and the
    Fourier magnitudes are outside the model: `tones(i)` is the five tone magnitudes of
    the window starting at sample `i`. */
module FileReceiver {
  import opened Optional
  import opened Resolver
  import opened ResolverTrace
  import opened StartSearch
  import opened ReceiveLoop

  const DB_THRESHOLD: real := 8.0
  const MAX_CONSECUTIVE_FAILS: nat := 5

  /** The magnitudes measured at the start, end, next, high and low frequencies. */
  datatype ToneMagnitudes = ToneMagnitudes(start: real, end: real, next: real, high: real, low: real)

  /** `get_magnitudes`: the measurements with the decibel threshold attached. */
  function GetMagnitudes(t: ToneMagnitudes): RxMagnitudes {
    RxMagnitudes(t.start, t.end, t.next, t.high, t.low, DB_THRESHOLD)
  }

  function Verdicts(tones: nat -> ToneMagnitudes): nat -> Window {
    (i: nat) => GetMagnitudes(tones(i)).Verdict()
  }

  /** The start search over `len` samples with windows of `tsz` samples; `skip` is the
      coarse step `get_minimum_chunk_size` derives from eight cycles of the start tone. */
  function StartParams(tones: nat -> ToneMagnitudes, len: nat, tsz: nat, skip: nat): SearchParams {
    SearchParams(Limit(len, tsz), skip, MAX_CONSECUTIVE_FAILS, DB_THRESHOLD, (i: nat) => tones(i).start)
  }

  /** `from_file` on `len` samples with tone and gap sizes `tsz` and `gsz`; it panics in
      the start search when the samples are shorter than one tone window. */
  method FromFile(tones: nat -> ToneMagnitudes, len: nat, tsz: nat, gsz: nat, skip: nat)
    returns (bits: Outcome<Option<seq<bv8>>>)
    requires skip >= 1 && tsz + gsz >= 1
    ensures bits.Panics? <==> len < tsz
    ensures var start := SearchFrom(StartParams(tones, len, tsz, skip), 0, Fresh);
            bits.Returns? ==>
              (bits.value.Some? <==>
                 start.Some? && Collect(Initial, WindowsFrom(Verdicts(tones), start.value, tsz, tsz + gsz, len), None).last == Some(EndOut))
    ensures var start := SearchFrom(StartParams(tones, len, tsz, skip), 0, Fresh);
            bits.Returns? && bits.value.Some? ==>
              bits.value.value == Collect(Initial, WindowsFrom(Verdicts(tones), start.value, tsz, tsz + gsz, len), None).bits
    ensures bits.Returns? && bits.value.Some? ==> |bits.value.value| >= 1
    ensures bits.Returns? && bits.value.Some? ==> FirstCapture(StartParams(tones, len, tsz, skip), 0).Some?
  {
    var p := StartParams(tones, len, tsz, skip);
    var start := StartSearch.FindStartingIndex(p, len, tsz);
    if start.Panics? {
      return Panics;
    }
    bits := Returns(None);
    if start.value.Some? {
      var received, output := ReceiveBits(Verdicts(tones), start.value.value, tsz, gsz, len);
      if output == Some(EndOut) {
        bits := Returns(Some(received));
      }
    }
  }
}
