/** The end-to-end property of the link: a receiver whose windows each hear exactly the
    tone the transmitter sent in that slot recovers the payload. Every transmitter of the
    crate sends `Symbols(data)` (their `Create` contracts say so); the resolver turns
    windows into bits (`ResolverTrace.Collect`, which every receive loop is proved to
    run); `bits_to_bytes` packs them (`BitPacking.Pack`). */
module Link {
  import opened Optional
  import opened Bytes
  import opened Framing
  import opened Resolver
  import opened ResolverTrace
  import BitPacking

  /** The `u8` a receiver reports for a bit. */
  function BitValue(b: bool): (v: bv8)
    ensures v == 1 <==> b
    ensures v == 0 <==> !b
  {
    if b then 1 else 0
  }

  /** A window hears symbol `s` when exactly the symbol's tone is acceptable and, for a
      bit, the louder bit tone is the one sent. */
  predicate Hears(w: Window, s: Symbol) {
    match s
    case StartMark => w.start && !w.end && !w.next && !w.bit
    case EndMark => w.end && !w.start && !w.next && !w.bit
    case NextMark => w.next && !w.start && !w.end && !w.bit
    case BitMark(b) => w.bit && !w.start && !w.end && !w.next && w.value == BitValue(b)
  }

  /** Window `i` hears symbol `i`. */
  predicate HearsAll(ws: seq<Window>, syms: seq<Symbol>) {
    |ws| == |syms| && forall i :: 0 <= i < |ws| ==> Hears(ws[i], syms[i])
  }

  /** Tone magnitudes whose verdict hears `s`: the symbol's tone within the threshold,
      every other tone outside it, and for a bit the sent tone the louder one. */
  predicate Clear(m: RxMagnitudes, s: Symbol) {
    && (m.WithinThreshold(m.start) <==> s == StartMark)
    && (m.WithinThreshold(m.end) <==> s == EndMark)
    && (m.WithinThreshold(m.next) <==> s == NextMark)
    && (m.WithinThreshold(m.high) || m.WithinThreshold(m.low) <==> s.BitMark?)
    && (s.BitMark? ==> (m.high > m.low <==> s.bit))
  }

  lemma ClearMagnitudesAreHeard(m: RxMagnitudes, s: Symbol)
    requires Clear(m, s)
    ensures Hears(m.Verdict(), s)
  {
  }

  /** After the start marker and its next marker, waiting for the first bit. */
  const AfterStart: RxResolver := RxResolver(Some(Start), Bit, None, None)

  /** After a bit and its next marker, waiting for the following bit or the end. */
  const BetweenBits: RxResolver := RxResolver(Some(Bit), Bit, None, None)

  /** Symbols that alternate a bit and a next marker. */
  predicate BitPairs(syms: seq<Symbol>) {
    && |syms| % 2 == 0
    && forall k :: 0 <= k < |syms| / 2 ==> syms[2 * k].BitMark? && syms[2 * k + 1] == NextMark
  }

  /** The bits such a run carries. */
  function PairBits(syms: seq<Symbol>): (bits: seq<bv8>)
    requires BitPairs(syms)
    ensures |bits| == |syms| / 2
  {
    seq(|syms| / 2, k requires 0 <= k < |syms| / 2 => BitValue(syms[2 * k].bit))
  }

  /** A heard bit and next marker emit the bit and leave the resolver between bits. */
  lemma HeardPair(r: RxResolver, ws: seq<Window>, b: bool, last: Option<RxOutput>)
    requires r == AfterStart || r == BetweenBits
    requires |ws| >= 2 && Hears(ws[0], BitMark(b)) && Hears(ws[1], NextMark)
    ensures Collect(r, ws, last) ==
              Received([BitValue(b)] + Collect(BetweenBits, ws[2..], None).bits, Collect(BetweenBits, ws[2..], None).last)
  {
    var mid := RxResolver(Some(Bit), Next, None, None);
    assert Resolve(r, ws[0]) == Resolved(mid, Some(BitOut(BitValue(b))));
    assert Resolve(mid, ws[1]) == Resolved(BetweenBits, None);
    assert ws[1..][1..] == ws[2..];
  }

  /** Dropping the first pair of a run leaves a run carrying the remaining bits. */
  lemma PairsRest(syms: seq<Symbol>)
    requires BitPairs(syms) && |syms| >= 2
    ensures syms[0].BitMark? && syms[1] == NextMark
    ensures BitPairs(syms[2..])
    ensures PairBits(syms) == [BitValue(syms[0].bit)] + PairBits(syms[2..])
  {
    var rest := syms[2..];
    assert syms[0] == syms[2 * 0];
    forall k | 0 <= k < |rest| / 2
      ensures rest[2 * k].BitMark? && rest[2 * k + 1] == NextMark
    {
      assert rest[2 * k] == syms[2 * (k + 1)] && rest[2 * k + 1] == syms[2 * (k + 1) + 1];
    }
    forall k | 0 <= k < |rest| / 2
      ensures PairBits(syms)[k + 1] == PairBits(rest)[k]
    {
      assert rest[2 * k] == syms[2 * (k + 1)];
    }
  }

  /** Hearing a run means hearing its rest after the first pair. */
  lemma HearsRest(ws: seq<Window>, syms: seq<Symbol>)
    requires |syms| >= 2 && HearsAll(ws, syms)
    ensures HearsAll(ws[2..], syms[2..])
  {
    forall i | 0 <= i < |syms| - 2
      ensures Hears(ws[2..][i], syms[2..][i])
    {
      assert ws[2..][i] == ws[i + 2] && syms[2..][i] == syms[i + 2];
    }
  }

  /** A heard run of bits emits them in order, whatever follows. */
  lemma {:induction false} HeardBits(r: RxResolver, ws: seq<Window>, syms: seq<Symbol>, tail: seq<Window>, last: Option<RxOutput>)
    requires r == AfterStart || r == BetweenBits
    requires BitPairs(syms) && |syms| >= 2 && HearsAll(ws, syms)
    ensures Collect(r, ws + tail, last) ==
              Received(PairBits(syms) + Collect(BetweenBits, tail, None).bits, Collect(BetweenBits, tail, None).last)
    decreases |syms|
  {
    var all := ws + tail;
    var c := Collect(BetweenBits, tail, None);
    PairsRest(syms);
    var rest := syms[2..];
    assert Hears(all[0], syms[0]) && Hears(all[1], syms[1]);
    HeardPair(r, all, syms[0].bit, last);
    var head := [BitValue(syms[0].bit)];
    if |syms| == 2 {
      assert all[2..] == tail;
      assert PairBits(syms) == head;
    } else {
      assert all[2..] == ws[2..] + tail;
      HearsRest(ws, syms);
      HeardBits(BetweenBits, ws[2..], rest, tail, None);
      Prepend(Collect(r, all, last), head, Collect(BetweenBits, all[2..], None), PairBits(rest), c);
    }
  }

  /** Bits emitted before a run that emits `bits` and then `z`'s. */
  lemma Prepend(x: Received, head: seq<bv8>, y: Received, bits: seq<bv8>, z: Received)
    requires x == Received(head + y.bits, y.last) && y == Received(bits + z.bits, z.last)
    ensures x == Received((head + bits) + z.bits, z.last)
  {
    assert head + (bits + z.bits) == (head + bits) + z.bits;
  }

  /** A heard end marker and next marker between bits report the end. */
  lemma HeardEnd(ws: seq<Window>, last: Option<RxOutput>)
    requires |ws| >= 2 && Hears(ws[0], EndMark) && Hears(ws[1], NextMark)
    ensures Collect(BetweenBits, ws, last) == Received([], Some(EndOut))
  {
    var pending := RxResolver(Some(Bit), Bit, Some(End), Some(Next));
    assert Resolve(BetweenBits, ws[0]) == Resolved(pending, None);
    assert Resolve(pending, ws[1]).output == Some(EndOut);
  }

  /** Bit `k` of the payload is the `k`-th pair of its data symbols. */
  lemma DataPairAt(data: seq<bv8>, k: nat)
    requires k < 8 * |data|
    ensures 2 * k + 1 < |DataSymbols(data)| && k < |Expand(data)|
    ensures DataSymbols(data)[2 * k] == BitMark(MsbSet(data[k / 8], k % 8))
    ensures DataSymbols(data)[2 * k + 1] == NextMark
    ensures Expand(data)[k] == BitValue(MsbSet(data[k / 8], k % 8))
  {
    var (j, i) := (k / 8, k % 8);
    assert 8 * j + i == k;
    DataSymbolsAt(data, j, i);
    ExpandAt(data, j, i);
  }

  /** The data symbols alternate bits and next markers, and carry the payload's bits. */
  lemma DataPairs(data: seq<bv8>)
    ensures BitPairs(DataSymbols(data))
    ensures PairBits(DataSymbols(data)) == Expand(data)
  {
    var syms := DataSymbols(data);
    forall k | 0 <= k < |syms| / 2
      ensures syms[2 * k].BitMark? && syms[2 * k + 1] == NextMark
    {
      DataPairAt(data, k);
    }
    forall k | 0 <= k < |syms| / 2
      ensures PairBits(syms)[k] == Expand(data)[k]
    {
      DataPairAt(data, k);
    }
  }

  /** The frame start leaves the resolver waiting for the first bit. */
  lemma HeardStart(ws: seq<Window>, last: Option<RxOutput>)
    requires |ws| >= 2 && Hears(ws[0], StartMark) && Hears(ws[1], NextMark)
    ensures Collect(Initial, ws, last) == Collect(AfterStart, ws[2..], None)
  {
    var started := RxResolver(Some(Start), Next, None, None);
    assert Resolve(Initial, ws[0]) == Resolved(started, None);
    assert Resolve(started, ws[1]) == Resolved(AfterStart, None);
    assert ws[1..][1..] == ws[2..];
  }

  /** Windows that hear a frame of a non-empty payload, followed by anything at all,
      yield the payload's bits and the end of the transmission. */
  lemma {:induction false} FrameIsReceived(data: seq<bv8>, ws: seq<Window>, tail: seq<Window>)
    requires |data| > 0 && HearsAll(ws, Symbols(data))
    ensures Collect(Initial, ws + tail, None) == Received(Expand(data), Some(EndOut))
  {
    var syms := Symbols(data);
    var n := |syms|;
    var all := ws + tail;
    assert Hears(all[0], syms[0]) && Hears(all[1], syms[1]);
    HeardStart(all, None);
    DataPairs(data);
    var body := ws[2..n - 2];
    assert HearsAll(body, DataSymbols(data)) by {
      forall i | 0 <= i < |body|
        ensures Hears(body[i], DataSymbols(data)[i])
      {
        assert body[i] == ws[i + 2] && DataSymbols(data)[i] == syms[i + 2];
      }
    }
    var ending := ws[n - 2..] + tail;
    assert all[2..] == body + ending;
    assert Hears(ending[0], syms[n - 2]) && Hears(ending[1], syms[n - 1]);
    HeardBits(AfterStart, body, DataSymbols(data), ending, None);
    HeardEnd(ending, None);
  }

  /** The headline property: `bits_to_bytes` of what the receiver collects is the
      payload sent. */
  lemma PayloadRoundTrip(data: seq<bv8>, ws: seq<Window>, tail: seq<Window>)
    requires |data| > 0 && HearsAll(ws, Symbols(data))
    ensures Collect(Initial, ws + tail, None).last == Some(EndOut)
    ensures BitPacking.Pack(Collect(Initial, ws + tail, None).bits) == data
  {
    FrameIsReceived(data, ws, tail);
    BitPacking.PackExpand(data);
  }

  /** An empty payload cannot be received: the end marker arrives while the resolver
      still waits for a first bit, which it reports as an error. */
  lemma EmptyFrameIsError(ws: seq<Window>, tail: seq<Window>)
    requires HearsAll(ws, Symbols([]))
    ensures Collect(Initial, ws + tail, None) == Received([], Some(ErrorOut))
  {
    var all := ws + tail;
    assert Symbols([]) == [StartMark, NextMark, EndMark, NextMark];
    assert Hears(all[0], StartMark) && Hears(all[1], NextMark) && Hears(all[2], EndMark);
    HeardStart(all, None);
    assert Resolve(AfterStart, all[2]).output == Some(ErrorOut);
  }
}
