/** The streaming receiver (`LiveReceiver`): incoming chunks are appended to a buffer; while
    no start marker is locked the buffer is searched for one, and once it is, windows are
    resolved one stride apart for as long as the buffer holds a full window past the
    current offset. An end or an error resets everything and drains the buffer.

    Filtering and re-normalising are outside the model: a chunk handed to `AddSamples` is
    the chunk after re-normalisation, and `mags(c)` is the five tone magnitudes of the
    (re-normalised) window `c`. The tone sample size doubles as the receiver's
    `sample_size`, exactly as both are computed from the tone duration in the source. */
module LiveReceiver {
  import opened Optional
  import opened Resolver
  import opened ResolverTrace
  import opened StartSearch
  import opened ReceiveLoop
  import opened BitPacking
  import opened Utf8
  import FileReceiver

  /** `max_consecutive_fails` of the live start search. */
  const LIVE_MAX_FAILS: nat := 5

  /** The window sizes, the coarse search step, the magnitude oracle, and `windows`, what
      the resolver reads of a chunk: kept as its own field so that proofs about the
      decoding loop need not look inside it; `NewConfig` ties it to the magnitudes. */
  datatype Config = Config(tsz: nat, gsz: nat, skip: nat, mags: seq<real> -> FileReceiver.ToneMagnitudes,
                           windows: seq<real> -> Window)
  {
    /** A receiver whose loops make progress: a positive stride and a positive skip. */
    predicate Progresses() {
      tsz + gsz >= 1 && skip >= 1
    }

    /** The resolver reads a chunk through its tone magnitudes and the decibel threshold. */
    ghost predicate ReadsMagnitudes() {
      forall c :: windows(c) == FileReceiver.GetMagnitudes(mags(c)).Verdict()
    }
  }

  /** The receiver's configuration for window sizes and a magnitude oracle. */
  function NewConfig(tsz: nat, gsz: nat, skip: nat, mags: seq<real> -> FileReceiver.ToneMagnitudes): (cfg: Config)
    ensures cfg.ReadsMagnitudes()
    ensures cfg.tsz == tsz && cfg.gsz == gsz && cfg.skip == skip && cfg.mags == mags
  {
    Config(tsz, gsz, skip, mags, (c: seq<real>) => FileReceiver.GetMagnitudes(mags(c)).Verdict())
  }

  /** The receiver's mutable fields, plus `decoded`: the texts it has printed so far. */
  datatype Live = Live(
    buffer: seq<real>,
    bits: seq<bv8>,
    resolver: RxResolver,
    startIdx: Option<nat>,
    startSignal: bool,
    decoded: seq<seq<bv8>>)
  {
    /** Locked on a start marker: the decoding branch of `add_samples` runs. */
    predicate Locked() {
      startIdx.Some? && startSignal
    }

    /** Nothing received and nothing locked. */
    predicate Idle() {
      bits == [] && resolver == Initial && startIdx.None? && !startSignal
    }

    /** Whether `refresh_buffer` can run without its subtraction underflowing. */
    predicate CanRefresh(tsz: nat) {
      startIdx.Some? || |buffer| >= 8 * tsz
    }
  }

  /** `LiveReceiver::new`. */
  function New(): (st: Live)
    ensures st.Idle() && st.buffer == [] && st.decoded == []
  {
    Live([], [], Initial, None, false, [])
  }

  /** `get_owned_samples_chunk`: `size` samples from `idx`, cut short at the end of the
      buffer. The source panics for `idx` past the end, which its callers never pass;
      the model answers the empty chunk there. */
  function Chunk(buffer: seq<real>, idx: nat, size: nat): (c: seq<real>)
    ensures |c| <= size
    ensures idx + size <= |buffer| ==> c == buffer[idx..idx + size]
  {
    if idx <= |buffer| then buffer[idx..ClampEndingIndex(|buffer|, idx + size)] else []
  }

  /** What `receive_bits` hands the resolver for the window at sample `i`. */
  function LiveVerdicts(cfg: Config, buffer: seq<real>): nat -> Window {
    (i: nat) => cfg.windows(Chunk(buffer, i, cfg.tsz))
  }

  /** The start search over the buffer (`find_starting_index`). */
  function LiveParams(cfg: Config, buffer: seq<real>): SearchParams
    requires cfg.tsz <= |buffer|
  {
    SearchParams(|buffer| - cfg.tsz, cfg.skip, LIVE_MAX_FAILS, FileReceiver.DB_THRESHOLD,
                 (i: nat) => cfg.mags(Chunk(buffer, i, cfg.tsz)).start)
  }

  function FindStartingIndex(cfg: Config, buffer: seq<real>): (found: Option<nat>)
    requires cfg.tsz <= |buffer| && cfg.skip >= 1
    ensures found.None? <==> FirstCapture(LiveParams(cfg, buffer), 0).None?
    ensures found.Some? ==>
              && found.value + cfg.tsz < |buffer|
              && InRange(LiveParams(cfg, buffer), LiveParams(cfg, buffer).startMag(found.value))
              && FirstCapture(LiveParams(cfg, buffer), 0).value <= found.value
              && Loudest(LiveParams(cfg, buffer), FirstCapture(LiveParams(cfg, buffer), 0).value, found.value)
              && Unbeaten(LiveParams(cfg, buffer), found.value)
  {
    var p := LiveParams(cfg, buffer);
    SearchFromSpec(p, 0, Fresh);
    SearchFrom(p, 0, Fresh)
  }

  /** `drain_buffer_to_starting_index`: drop the first `idx` samples, or all of them. */
  function DrainBufferToStartingIndex(buffer: seq<real>, idx: nat): (r: seq<real>)
    ensures |r| == if idx < |buffer| then |buffer| - idx else 0
    ensures r == buffer[|buffer| - |r|..]
  {
    if idx < |buffer| then buffer[idx..] else []
  }

  /** `refresh_buffer`: drain to the start offset when there is one, and otherwise keep
      the last eight windows' worth of samples. */
  function RefreshBuffer(tsz: nat, st: Live): (buffer: seq<real>)
    requires st.CanRefresh(tsz)
    ensures |buffer| <= |st.buffer| && buffer == st.buffer[|st.buffer| - |buffer|..]
    ensures st.startIdx.None? ==> |buffer| == 8 * tsz || (|buffer| == 0 && 8 * tsz == |st.buffer|)
    ensures st.startIdx.Some? ==> |st.buffer| - |buffer| == if st.startIdx.value < |st.buffer| then st.startIdx.value else |st.buffer|
  {
    match st.startIdx
    case Some(idx) => DrainBufferToStartingIndex(st.buffer, idx)
    case None => DrainBufferToStartingIndex(st.buffer, |st.buffer| - 8 * tsz)
  }

  /** `refresh_all_states`. */
  function RefreshAllStates(tsz: nat, st: Live): (r: Live)
    requires st.CanRefresh(tsz)
    ensures r.Idle() && r.decoded == st.decoded
    ensures |r.buffer| <= |st.buffer| && r.buffer == st.buffer[|st.buffer| - |r.buffer|..]
    ensures st.startIdx.None? ==> |r.buffer| <= 8 * tsz
  {
    Live(RefreshBuffer(tsz, st), [], Initial, None, false, st.decoded)
  }

  /** `handle_rx_output`; `None` is the panic of `bits_to_string` on bits that do not
      pack into UTF-8. */
  function HandleRxOutput(tsz: nat, st: Live, out: RxOutput): (r: Option<Live>)
    requires st.CanRefresh(tsz)
    ensures out.BitOut? ==> r == Some(st.(bits := st.bits + [out.bit]))
    ensures out.EndOut? ==> (r.Some? <==> ValidUtf8(Pack(st.bits)))
    ensures out.EndOut? && r.Some? ==> r.value.Idle() && r.value.decoded == st.decoded + [Pack(st.bits)]
    ensures out.ErrorOut? ==> r.Some? && r.value.Idle() && r.value.decoded == st.decoded
    ensures r.Some? ==> |r.value.buffer| <= |st.buffer|
  {
    match out
    case BitOut(b) => Some(st.(bits := st.bits + [b]))
    case EndOut =>
      (match BitsToString(st.bits)
       case Some(text) => Some(RefreshAllStates(tsz, st).(decoded := st.decoded + [text]))
       case None => None)
    case ErrorOut => Some(RefreshAllStates(tsz, st))
  }

  /** One round of the decoding loop at offset `s`: resolve the window there, handle the
      output, and move `start_idx` one stride on. */
  function LockedStep(cfg: Config, st: Live, s: nat): (r: Option<Live>)
    requires st.startIdx == Some(s)
    ensures r.Some? ==> r.value.startIdx == Some(s + cfg.tsz + cfg.gsz) && |r.value.buffer| <= |st.buffer|
  {
    Handled(cfg, st, s, Resolve(st.resolver, LiveVerdicts(cfg, st.buffer)(s)))
  }

  /** The handling of a resolved window `step`: no output or a bit keeps the buffer and
      the lock; an end or an error clears the lock. */
  function Handled(cfg: Config, st: Live, s: nat, step: Resolved): (r: Option<Live>)
    requires st.startIdx == Some(s)
    ensures !(step.output.Some? && !step.output.value.BitOut?) ==>
              r == Some(st.(resolver := step.next, bits := st.bits + Emitted(step.output),
                            startIdx := Some(s + cfg.tsz + cfg.gsz)))
    ensures step.output.Some? && !step.output.value.BitOut? && r.Some? ==> !r.value.startSignal
    ensures r.Some? ==> r.value.startIdx == Some(s + cfg.tsz + cfg.gsz) && |r.value.buffer| <= |st.buffer|
  {
    var st1 := st.(resolver := step.next);
    assert st1.bits + [] == st1.bits;
    var handled := if step.output.Some? then HandleRxOutput(cfg.tsz, st1, step.output.value) else Some(st1);
    match handled
    case None => None
    case Some(st2) => Some(st2.(startIdx := Some(s + cfg.tsz + cfg.gsz)))
  }

  /** The decoding loop of `add_samples` from offset `s`, as written: the loop condition
      reads the current buffer, and after a reset (which drains the buffer and clears the
      lock) it carries on with the old offset and re-sets `start_idx`. */
  function LockedLoop(cfg: Config, st: Live, s: nat): (r: Option<Live>)
    requires cfg.tsz + cfg.gsz >= 1
    requires st.startIdx == Some(s)
    ensures r.Some? ==> r.value.startIdx.Some? && s <= r.value.startIdx.value
    ensures r.Some? ==> r.value.startIdx.value + cfg.tsz >= |r.value.buffer|
    ensures r.Some? ==> |r.value.buffer| <= |st.buffer|
    ensures r.Some? && r.value.startSignal ==> st.startSignal
    decreases if s < |st.buffer| then |st.buffer| - s else 0
  {
    if s + cfg.tsz < |st.buffer| then
      match LockedStep(cfg, st, s)
      case None => None
      case Some(st2) => LockedLoop(cfg, st2, s + cfg.tsz + cfg.gsz)
    else Some(st)
  }

  /** `add_samples` with an already re-normalised chunk. */
  function AddSamples(cfg: Config, st: Live, chunk: seq<real>): (r: Option<Live>)
    requires cfg.Progresses()
    // a set start signal keeps coming with an offset
    ensures (st.startSignal ==> st.startIdx.Some?) ==> (r.Some? && r.value.startSignal ==> r.value.startIdx.Some?)
    // unlocked: the search waits for eight windows' worth of samples
    ensures !st.Locked() && |st.buffer| + |chunk| < 8 * cfg.tsz ==> r == Some(st.(buffer := st.buffer + chunk))
    ensures !st.Locked() && |st.buffer| + |chunk| >= 8 * cfg.tsz ==>
              && r.Some?
              && (r.value.startSignal <==> FirstCapture(LiveParams(cfg, st.buffer + chunk), 0).Some?)
              && (r.value.startSignal ==>
                    && r.value.buffer == st.buffer + chunk && r.value.startIdx.Some?
                    && r.value.startIdx.value + cfg.tsz < |r.value.buffer|)
              && (!r.value.startSignal ==> r.value.Idle())
    // locked: windows are read only while one fits strictly inside the buffer
    ensures st.Locked() && st.startIdx.value + cfg.tsz >= |st.buffer| + |chunk| ==>
              r == Some(st.(buffer := st.buffer + chunk))
    // the buffer only grows by the chunk
    ensures r.Some? ==> |r.value.buffer| <= |st.buffer| + |chunk|
  {
    var st0 := st.(buffer := st.buffer + chunk);
    if st0.Locked() then
      var s := st0.startIdx.value;
      if |st0.buffer| > s + cfg.tsz then LockedLoop(cfg, st0, s) else Some(st0)
    else if |st0.buffer| >= cfg.tsz * 8 then
      var found := FindStartingIndex(cfg, st0.buffer);
      if found.Some? then Some(st0.(startIdx := found, startSignal := true))
      else Some(RefreshAllStates(cfg.tsz, st0))
    else Some(st0)
  }

  /** What the decoding loop from `st` leaves, `r`, against the receive loop's result
      `c`: as long as no window ends or breaks the transmission, the buffer stays, the
      lock stays and the bits are collected; once one does, the lock is cleared. */
  predicate Continues(st: Live, c: Received, r: Option<Live>) {
    && (c.last != Some(EndOut) && c.last != Some(ErrorOut) ==>
          && r.Some?
          && r.value.buffer == st.buffer
          && r.value.bits == c.bits
          && r.value.startSignal == st.startSignal
          && r.value.decoded == st.decoded)
    && (r.Some? && (c.last == Some(EndOut) || c.last == Some(ErrorOut)) ==> !r.value.startSignal)
  }

  /** The decoding loop is the receive loop over the windows that fit strictly inside the
      buffer. */
  lemma LockedLoopCollects(cfg: Config, st: Live, s: nat, last: Option<RxOutput>)
    requires cfg.tsz + cfg.gsz >= 1
    requires st.startIdx == Some(s)
    requires last != Some(EndOut) && last != Some(ErrorOut)
    ensures Continues(st, Run(st.resolver, LiveVerdicts(cfg, st.buffer), s, cfg.tsz + 1, cfg.tsz + cfg.gsz,
                              |st.buffer|, st.bits, last),
                      LockedLoop(cfg, st, s))
  {
    LoopCollects(cfg, st, s, last, Run(st.resolver, LiveVerdicts(cfg, st.buffer), s, cfg.tsz + 1, cfg.tsz + cfg.gsz,
                                       |st.buffer|, st.bits, last),
                 LockedLoop(cfg, st, s));
  }

  /** The same, for the results `c` and `r` of both loops. */
  lemma {:induction false} LoopCollects(cfg: Config, st: Live, s: nat, last: Option<RxOutput>, c: Received, r: Option<Live>)
    requires cfg.tsz + cfg.gsz >= 1
    requires st.startIdx == Some(s)
    requires last != Some(EndOut) && last != Some(ErrorOut)
    requires c == Run(st.resolver, LiveVerdicts(cfg, st.buffer), s, cfg.tsz + 1, cfg.tsz + cfg.gsz, |st.buffer|, st.bits, last)
    requires r == LockedLoop(cfg, st, s)
    ensures Continues(st, c, r)
    decreases if s < |st.buffer| then |st.buffer| - s else 0
  {
    var stride := cfg.tsz + cfg.gsz;
    var verdict := LiveVerdicts(cfg, st.buffer);
    if s + cfg.tsz < |st.buffer| {
      var step := Resolve(st.resolver, verdict(s));
      var s' := s + stride;
      if !(step.output.Some? && !step.output.value.BitOut?) {
        var st2 := st.(resolver := step.next, bits := st.bits + Emitted(step.output), startIdx := Some(s'));
        StepAgrees(cfg, st, s, last, st2, s');
        LoopCollects(cfg, st2, s', step.output, c, r);
        ContinuesStep(st, st2, c, r);
      } else {
        StepStops(cfg, st, s, last, step);
      }
    }
  }

  /** A window that neither ends nor breaks the transmission moves both loops on alike. */
  lemma StepAgrees(cfg: Config, st: Live, s: nat, last: Option<RxOutput>, st2: Live, s': nat)
    requires cfg.tsz + cfg.gsz >= 1
    requires st.startIdx == Some(s) && s + cfg.tsz < |st.buffer| && s' == s + cfg.tsz + cfg.gsz
    requires var step := Resolve(st.resolver, LiveVerdicts(cfg, st.buffer)(s));
             && !(step.output.Some? && !step.output.value.BitOut?)
             && st2 == st.(resolver := step.next, bits := st.bits + Emitted(step.output), startIdx := Some(s'))
    ensures Run(st.resolver, LiveVerdicts(cfg, st.buffer), s, cfg.tsz + 1, cfg.tsz + cfg.gsz, |st.buffer|, st.bits, last) ==
              Run(st2.resolver, LiveVerdicts(cfg, st2.buffer), s', cfg.tsz + 1, cfg.tsz + cfg.gsz, |st2.buffer|, st2.bits,
                  Resolve(st.resolver, LiveVerdicts(cfg, st.buffer)(s)).output)
    ensures LockedLoop(cfg, st, s) == LockedLoop(cfg, st2, s')
  {
    StepRuns(cfg, st, s, last, st2, s');
    StepLocks(cfg, st, s, st2, s');
  }

  /** The receive loop's half of `StepAgrees`. */
  lemma StepRuns(cfg: Config, st: Live, s: nat, last: Option<RxOutput>, st2: Live, s': nat)
    requires cfg.tsz + cfg.gsz >= 1
    requires st.startIdx == Some(s) && s + cfg.tsz < |st.buffer| && s' == s + cfg.tsz + cfg.gsz
    requires var step := Resolve(st.resolver, LiveVerdicts(cfg, st.buffer)(s));
             && !(step.output.Some? && !step.output.value.BitOut?)
             && st2 == st.(resolver := step.next, bits := st.bits + Emitted(step.output), startIdx := Some(s'))
    ensures Run(st.resolver, LiveVerdicts(cfg, st.buffer), s, cfg.tsz + 1, cfg.tsz + cfg.gsz, |st.buffer|, st.bits, last) ==
              Run(st2.resolver, LiveVerdicts(cfg, st2.buffer), s', cfg.tsz + 1, cfg.tsz + cfg.gsz, |st2.buffer|, st2.bits,
                  Resolve(st.resolver, LiveVerdicts(cfg, st.buffer)(s)).output)
  {
    var verdict := LiveVerdicts(cfg, st.buffer);
    RunStep(st.resolver, verdict, s, cfg.tsz + 1, cfg.tsz + cfg.gsz, |st.buffer|, st.bits, last, Resolve(st.resolver, verdict(s)));
  }

  /** The decoding loop's half of `StepAgrees`. */
  lemma StepLocks(cfg: Config, st: Live, s: nat, st2: Live, s': nat)
    requires cfg.tsz + cfg.gsz >= 1
    requires st.startIdx == Some(s) && s + cfg.tsz < |st.buffer| && s' == s + cfg.tsz + cfg.gsz
    requires var step := Resolve(st.resolver, LiveVerdicts(cfg, st.buffer)(s));
             && !(step.output.Some? && !step.output.value.BitOut?)
             && st2 == st.(resolver := step.next, bits := st.bits + Emitted(step.output), startIdx := Some(s'))
    ensures LockedLoop(cfg, st, s) == LockedLoop(cfg, st2, s')
  {
    var step := Resolve(st.resolver, LiveVerdicts(cfg, st.buffer)(s));
    LockedStepHandles(cfg, st, s, step);
    HandledKeeps(cfg, st, s, step, st2);
    LockedLoopUnfold(cfg, st, s);
  }

  lemma LockedStepHandles(cfg: Config, st: Live, s: nat, step: Resolved)
    requires st.startIdx == Some(s)
    requires step == Resolve(st.resolver, LiveVerdicts(cfg, st.buffer)(s))
    ensures LockedStep(cfg, st, s) == Handled(cfg, st, s, step)
  {
  }

  lemma HandledKeeps(cfg: Config, st: Live, s: nat, step: Resolved, st2: Live)
    requires st.startIdx == Some(s)
    requires !(step.output.Some? && !step.output.value.BitOut?)
    requires st2 == st.(resolver := step.next, bits := st.bits + Emitted(step.output), startIdx := Some(s + cfg.tsz + cfg.gsz))
    ensures Handled(cfg, st, s, step) == Some(st2)
  {
  }

  /** A window that ends or breaks the transmission stops the receive loop and clears
      the lock. */
  lemma StepStops(cfg: Config, st: Live, s: nat, last: Option<RxOutput>, step: Resolved)
    requires cfg.tsz + cfg.gsz >= 1
    requires st.startIdx == Some(s) && s + cfg.tsz < |st.buffer|
    requires step == Resolve(st.resolver, LiveVerdicts(cfg, st.buffer)(s))
    requires step.output.Some? && !step.output.value.BitOut?
    ensures Run(st.resolver, LiveVerdicts(cfg, st.buffer), s, cfg.tsz + 1, cfg.tsz + cfg.gsz, |st.buffer|, st.bits, last) ==
              Received(st.bits, step.output)
    ensures LockedLoop(cfg, st, s).Some? ==> !LockedLoop(cfg, st, s).value.startSignal
  {
    RunStop(st.resolver, LiveVerdicts(cfg, st.buffer), s, cfg.tsz + 1, cfg.tsz + cfg.gsz, |st.buffer|, st.bits, last, step);
    LockedStepHandles(cfg, st, s, step);
    LockedLoopUnfold(cfg, st, s);
  }

  lemma ContinuesStep(st: Live, st2: Live, c: Received, r: Option<Live>)
    requires Continues(st2, c, r)
    requires st2.buffer == st.buffer && st2.startSignal == st.startSignal && st2.decoded == st.decoded
    ensures Continues(st, c, r)
  {
  }

  /** One window of the decoding loop. */
  lemma LockedLoopUnfold(cfg: Config, st: Live, s: nat)
    requires cfg.tsz + cfg.gsz >= 1
    requires st.startIdx == Some(s) && s + cfg.tsz < |st.buffer|
    ensures var step := LockedStep(cfg, st, s);
            LockedLoop(cfg, st, s) == if step.None? then None else LockedLoop(cfg, step.value, s + cfg.tsz + cfg.gsz)
  {
  }

  /** A window of silence-level tones: every tone 100 dB down, so nothing is accepted. */
  function Quiet(c: seq<real>): FileReceiver.ToneMagnitudes {
    FileReceiver.ToneMagnitudes(-100.0, -100.0, -100.0, -100.0, -100.0)
  }

  /** After a reset inside the decoding loop the loop goes on with its old offset: with
      one-sample windows two samples apart and nothing audible, a receiver locked at
      sample 1 of seven samples resets twice, drains the buffer to its last three
      samples, and is left with the offset 5, past the end of what remains, while its
      start signal is cleared. */
  lemma StaleOffsetAfterReset()
    ensures var cfg := NewConfig(1, 1, 1, Quiet);
            var st := Live([0.0, 1.0, 2.0, 3.0, 4.0, 5.0], [], Initial, Some(1), true, []);
            AddSamples(cfg, st, [6.0]) == Some(Live([4.0, 5.0, 6.0], [], Initial, Some(5), false, []))
  {
    var cfg := NewConfig(1, 1, 1, Quiet);
    var buffer := [0.0, 1.0, 2.0, 3.0, 4.0, 5.0, 6.0];
    var st := Live([0.0, 1.0, 2.0, 3.0, 4.0, 5.0], [], Initial, Some(1), true, []);
    assert st.buffer + [6.0] == buffer;
    var st0 := Live(buffer, [], Initial, Some(1), true, []);
    assert AddSamples(cfg, st, [6.0]) == LockedLoop(cfg, st0, 1);
    var w := LiveVerdicts(cfg, buffer)(1);
    assert w == FileReceiver.GetMagnitudes(Quiet(Chunk(buffer, 1, 1))).Verdict();
    assert !w.start;
    assert Resolve(Initial, w).output == Some(ErrorOut);
    var st1 := Live(buffer[1..], [], Initial, Some(3), false, []);
    assert LockedLoop(cfg, st0, 1) == LockedLoop(cfg, st1, 3);
    var w' := LiveVerdicts(cfg, buffer[1..])(3);
    assert w' == FileReceiver.GetMagnitudes(Quiet(Chunk(buffer[1..], 3, 1))).Verdict();
    assert !w'.start;
    assert Resolve(Initial, w').output == Some(ErrorOut);
    var st2 := Live(buffer[4..], [], Initial, Some(5), false, []);
    assert buffer[1..][3..] == buffer[4..];
    assert LockedLoop(cfg, st1, 3) == LockedLoop(cfg, st2, 5);
    assert buffer[4..] == [4.0, 5.0, 6.0];
    assert LockedLoop(cfg, st2, 5) == Some(st2);
  }
}
