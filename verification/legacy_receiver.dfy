/** The first receiver (`receiver.rs`): the same resolver machine (`ReceiverStates`), but
    tones count as present when their magnitude reaches `MAGNITUDE_THRESHOLD` (which the
    crate's constants do not define, so it is a parameter here), and a simpler start
    search that moves one sample at a time and stops after fifty failures in a row. */
module LegacyReceiver {
  import opened Optional
  import opened Resolver
  import opened ResolverTrace
  import opened ReceiveLoop
  import StartSearch

  const MAX_TRIES: nat := 50

  datatype ReceiverMagnitudes = ReceiverMagnitudes(start: real, end: real, next: real, on: real, off: real) {

    /** A tone is present when its magnitude reaches the threshold; a bit when either bit
        tone does. */
    predicate Evaluate(state: RxState, threshold: real) {
      match state
      case Start => start >= threshold
      case End => end >= threshold
      case Next => next >= threshold
      case Bit => on >= threshold || off >= threshold
    }

    function GetBit(): bv8 {
      if on > off then 1 else 0
    }

    function Verdict(threshold: real): (w: Window)
      ensures forall s :: w.Accepts(s) <==> Evaluate(s, threshold)
      ensures w.value == 1 <==> on > off
    {
      Window(Evaluate(Start, threshold), Evaluate(End, threshold), Evaluate(Next, threshold),
             Evaluate(Bit, threshold), GetBit())
    }
  }

  /** `ReceiverStates::handle_magnitudes`. */
  function HandleMagnitudes(r: RxResolver, m: ReceiverMagnitudes, threshold: real): (res: Resolved)
    ensures Valid(r) ==> Valid(res.next)
    ensures Valid(r) ==>
              (res.output.Some? && res.output.value.BitOut? <==> r.expectation == Bit && m.Evaluate(Bit, threshold))
    ensures res.output.Some? && res.output.value.BitOut? ==> (res.output.value.bit == 1 <==> m.on > m.off)
    ensures Valid(r) ==>
              (res.output == Some(ErrorOut) <==>
                 && !m.Evaluate(r.expectation, threshold)
                 && !(r.selection == Some(Bit) && r.expectation == Bit && m.end >= threshold)
                 && !(r.endExpectation.Some? && m.next >= threshold))
  {
    Resolve(r, m.Verdict(threshold))
  }

  /** The first window from `i` on whose start magnitude reaches the threshold. */
  function FirstAbove(startMag: nat -> real, threshold: real, i: nat, limit: nat): (c: Option<nat>)
    ensures c.Some? ==> i <= c.value < limit && startMag(c.value) >= threshold
    ensures c.Some? ==> forall j :: i <= j < c.value ==> startMag(j) < threshold
    ensures c.None? ==> forall j :: i <= j < limit ==> startMag(j) < threshold
    decreases limit - i
  {
    if i >= limit then None
    else if startMag(i) >= threshold then Some(i)
    else FirstAbove(startMag, threshold, i + 1, limit)
  }

  /** The loop of `get_starting_index` from window `i` below `limit`, with `best` the
      window kept so far and `tries` the quieter windows seen since it. */
  function StartingIndexFrom(startMag: nat -> real, threshold: real, limit: nat, i: nat, best: Option<nat>, tries: nat): Option<nat>
    decreases if i < limit then limit - i else 0
  {
    if i >= limit then best
    else if best.Some? then
      if startMag(i) >= startMag(best.value) then StartingIndexFrom(startMag, threshold, limit, i + 1, Some(i), 0)
      else if tries == MAX_TRIES then best
      else StartingIndexFrom(startMag, threshold, limit, i + 1, best, tries + 1)
    else if startMag(i) >= threshold then StartingIndexFrom(startMag, threshold, limit, i + 1, Some(i), tries)
    else StartingIndexFrom(startMag, threshold, limit, i + 1, None, tries)
  }

  /** The window `get_starting_index` settles on among the first `limit` windows. */
  function StartingIndex(startMag: nat -> real, threshold: real, limit: nat): Option<nat> {
    StartingIndexFrom(startMag, threshold, limit, 0, None, 0)
  }

  /** `get_starting_index` over `len` samples with windows of `size` samples: capture the
      first window that reaches the threshold, then move to any window at least as loud,
      and stop on the 51st window in a row that is quieter. The loop bound
      `samples.len() - sample_size` panics when the samples are shorter than one window. */
  method GetStartingIndex(startMag: nat -> real, threshold: real, len: nat, size: nat)
    returns (found: Outcome<Option<nat>>)
    ensures found.Panics? <==> len < size
    ensures found.Returns? ==> found.value == StartingIndex(startMag, threshold, len - size)
    ensures found.Returns? ==>
              (found.value.None? <==> forall i :: 0 <= i < len - size ==> startMag(i) < threshold)
    ensures found.Returns? && found.value.Some? ==>
              found.value.value < len - size && startMag(found.value.value) >= threshold
    // the chosen window is the loudest since the first window that reached the threshold
    ensures found.Returns? && found.value.Some? ==>
              var b := found.value.value;
              var c := FirstAbove(startMag, threshold, 0, len - size).value;
              c <= b && forall j :: c <= j <= b ==> startMag(j) <= startMag(b)
    // and the next fifty-one windows are all quieter
    ensures found.Returns? && found.value.Some? ==>
              var b := found.value.value;
              forall j :: b < j <= b + MAX_TRIES + 1 && j < len - size ==> startMag(j) < startMag(b)
  {
    if len < size {
      return Panics;
    }
    var limit := len - size;
    ghost var first := FirstAbove(startMag, threshold, 0, limit);
    var someIndex: Option<nat> := None;
    var someMagnitude: Option<real> := None;
    var tries := 0;
    var i := 0;
    while i < limit
      invariant i <= limit
      invariant StartingIndexFrom(startMag, threshold, limit, i, someIndex, tries) == StartingIndex(startMag, threshold, limit)
      invariant someIndex.None? <==> someMagnitude.None?
      invariant someIndex.None? ==> tries == 0 && forall j :: 0 <= j < i ==> startMag(j) < threshold
      invariant someIndex.Some? ==>
                  var b := someIndex.value;
                  && first.Some? && first.value <= b < i
                  && someMagnitude == Some(startMag(b)) && startMag(b) >= threshold
                  && i == b + 1 + tries && tries <= MAX_TRIES
                  && (forall j :: b < j < i ==> startMag(j) < startMag(b))
                  && (forall j :: first.value <= j <= b ==> startMag(j) <= startMag(b))
    {
      var magnitude := startMag(i);
      if someMagnitude.Some? {
        if magnitude >= someMagnitude.value {
          tries := 0;
          someIndex := Some(i);
          someMagnitude := Some(magnitude);
        } else {
          if tries == MAX_TRIES {
            break;
          }
          tries := tries + 1;
        }
      } else if magnitude >= threshold {
        someIndex := Some(i);
        someMagnitude := Some(magnitude);
      }
      i := i + 1;
    }
    found := Returns(someIndex);
  }

  function Verdicts(mags: nat -> ReceiverMagnitudes, threshold: real): nat -> Window {
    (i: nat) => mags(i).Verdict(threshold)
  }

  /** `receiver` on `len` samples with tone and gap sizes `tsz` and `gsz`; `mags(i)` are
      the magnitudes of the window starting at sample `i`. It decodes from the window
      `get_starting_index` settles on and hands back the bits only when decoding stopped
      at the end marker; it panics in the start search on fewer samples than one tone. */
  method Receive(mags: nat -> ReceiverMagnitudes, threshold: real, len: nat, tsz: nat, gsz: nat)
    returns (bits: Outcome<Option<seq<bv8>>>)
    requires tsz + gsz >= 1
    ensures bits.Panics? <==> len < tsz
    ensures var start := StartingIndex((i: nat) => mags(i).start, threshold, StartSearch.Limit(len, tsz));
            bits.Returns? ==>
              (bits.value.Some? <==>
                 start.Some? && Collect(Initial, WindowsFrom(Verdicts(mags, threshold), start.value, tsz, tsz + gsz, len), None).last == Some(EndOut))
    ensures var start := StartingIndex((i: nat) => mags(i).start, threshold, StartSearch.Limit(len, tsz));
            bits.Returns? && bits.value.Some? ==>
              bits.value.value == Collect(Initial, WindowsFrom(Verdicts(mags, threshold), start.value, tsz, tsz + gsz, len), None).bits
    ensures bits.Returns? && bits.value.Some? ==> |bits.value.value| >= 1
    ensures bits.Returns? && (forall i :: 0 <= i < len - tsz ==> mags(i).start < threshold) ==> bits.value.None?
  {
    var start := GetStartingIndex((i: nat) => mags(i).start, threshold, len, tsz);
    if start.Panics? {
      return Panics;
    }
    bits := Returns(None);
    if start.value.Some? {
      var received, output := ReceiveBits(Verdicts(mags, threshold), start.value.value, tsz, gsz, len);
      if output == Some(EndOut) {
        bits := Returns(Some(received));
      }
    }
  }
}
