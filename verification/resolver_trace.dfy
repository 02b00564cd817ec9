/** The resolver over a sequence of windows: the states it passes through, the receive
    loop every receiver runs on top of it, and what those runs guarantee about the end
    of a transmission. */
module ResolverTrace {
  import opened Optional
  import opened Resolver

  /** The resolver after the first `n` windows. */
  function After(r: RxResolver, ws: seq<Window>, n: nat): (r': RxResolver)
    requires n <= |ws|
    ensures Valid(r) ==> Valid(r')
    decreases n
  {
    if n == 0 then r else Resolve(After(r, ws, n - 1), ws[n - 1]).next
  }

  /** The output for window `i`. */
  function OutputAt(r: RxResolver, ws: seq<Window>, i: nat): Option<RxOutput>
    requires i < |ws|
  {
    Resolve(After(r, ws, i), ws[i]).output
  }

  predicate IsBit(o: Option<RxOutput>) {
    o.Some? && o.value.BitOut?
  }

  /** A resolver only selects a bit by emitting one. */
  lemma SelectingBitEmitsIt(r: RxResolver, w: Window)
    requires Valid(r) && r.selection != Some(Bit)
    requires Resolve(r, w).next.selection == Some(Bit)
    ensures IsBit(Resolve(r, w).output)
  {
  }

  /** An end marker stays pending past a window that does not report the end only when
      that window captured it. */
  lemma PendingEndWasCaptured(r: RxResolver, w: Window)
    requires Resolve(r, w).next.endExpectation.Some?
    requires Resolve(r, w).output != Some(EndOut)
    ensures EndCaptured(r, w)
  {
  }

  /** Having selected a bit from the initial state means a bit was emitted before. */
  lemma {:induction false} SelectionMeansBitEmitted(ws: seq<Window>, n: nat)
    requires n <= |ws|
    requires After(Initial, ws, n).selection == Some(Bit)
    ensures exists j :: 0 <= j < n && IsBit(OutputAt(Initial, ws, j))
  {
    if n > 0 {
      var p := After(Initial, ws, n - 1);
      if p.selection == Some(Bit) {
        SelectionMeansBitEmitted(ws, n - 1);
        var j :| 0 <= j < n - 1 && IsBit(OutputAt(Initial, ws, j));
        assert IsBit(OutputAt(Initial, ws, j));
      } else {
        SelectingBitEmitsIt(p, ws[n - 1]);
        assert IsBit(OutputAt(Initial, ws, n - 1));
      }
    }
  }

  /** The end is never reported before the first bit. */
  lemma EndNeedsBit(ws: seq<Window>, i: nat)
    requires i < |ws| && OutputAt(Initial, ws, i) == Some(EndOut)
    ensures exists j :: 0 <= j < i && IsBit(OutputAt(Initial, ws, j))
  {
    SelectionMeansBitEmitted(ws, i);
  }

  /** The first end is reported on the window right after an end marker that was heard
      while a bit was expected after a bit. */
  lemma FirstEndFollowsCapture(ws: seq<Window>, i: nat)
    requires i < |ws| && OutputAt(Initial, ws, i) == Some(EndOut)
    requires forall j :: 0 <= j < i ==> OutputAt(Initial, ws, j) != Some(EndOut)
    ensures i >= 1
    ensures var p := After(Initial, ws, i - 1);
            p.expectation == Bit && p.selection == Some(Bit) && ws[i - 1].end
  {
    assert After(Initial, ws, i).endExpectation.Some?;
    assert OutputAt(Initial, ws, i - 1) != Some(EndOut);
    PendingEndWasCaptured(After(Initial, ws, i - 1), ws[i - 1]);
  }

  /** What a receive loop yields: the bits collected and the last output. */
  datatype Received = Received(bits: seq<bv8>, last: Option<RxOutput>)

  /** The receive loop: resolve windows in order, collecting every bit, until the
      resolver reports the end or an error or the windows run out; `last` is the output
      of the last window resolved. */
  function Collect(r: RxResolver, ws: seq<Window>, last: Option<RxOutput>): (res: Received)
    ensures |res.bits| <= |ws|
    decreases |ws|
  {
    if |ws| == 0 then Received([], last)
    else
      var step := Resolve(r, ws[0]);
      match step.output
      case Some(BitOut(b)) =>
        var rest := Collect(step.next, ws[1..], step.output);
        Received([b] + rest.bits, rest.last)
      case Some(_) => Received([], step.output)
      case None => Collect(step.next, ws[1..], None)
  }

  /** A run that ends cleanly from a state that has not selected a bit collected one. */
  lemma {:induction false} EndedRunHasBits(r: RxResolver, ws: seq<Window>, last: Option<RxOutput>)
    requires Valid(r) && last != Some(EndOut)
    requires Collect(r, ws, last).last == Some(EndOut)
    ensures r.selection == Some(Bit) || |Collect(r, ws, last).bits| >= 1
    decreases |ws|
  {
    if |ws| > 0 {
      var step := Resolve(r, ws[0]);
      if step.output == None {
        EndedRunHasBits(step.next, ws[1..], None);
        if r.selection != Some(Bit) && step.next.selection == Some(Bit) {
          SelectingBitEmitsIt(r, ws[0]);
        }
      }
    }
  }

  /** Windows after the one that stops the loop are never looked at. */
  lemma {:induction false} CollectIgnoresTail(r: RxResolver, ws: seq<Window>, tail: seq<Window>, last: Option<RxOutput>)
    requires Collect(r, ws, last).last in {Some(EndOut), Some(ErrorOut)}
    requires last !in {Some(EndOut), Some(ErrorOut)}
    ensures Collect(r, ws + tail, last) == Collect(r, ws, last)
    decreases |ws|
  {
    assert |ws| > 0;
    assert (ws + tail)[0] == ws[0];
    assert (ws + tail)[1..] == ws[1..] + tail;
    var step := Resolve(r, ws[0]);
    if step.output.Some? && step.output.value.BitOut? {
      CollectIgnoresTail(step.next, ws[1..], tail, step.output);
    } else if step.output == None {
      CollectIgnoresTail(step.next, ws[1..], tail, None);
    }
  }
}
