/** An earlier unfinished resolver. Markers hold an explicit `Unset` state instead of an
    `Option`, and `resolve` always answers: every window that does not yield a bit or
    the end yields `Error`, including accepted start and next windows. */
module UnsetResolver {
  import Resolver

  datatype RxState = Start | End | Next | Bit | Unset

  type RxOutput = Resolver.RxOutput

  datatype RxMagnitudes = RxMagnitudes(start: real, end: real, next: real, high: real, low: real, threshold: real) {

    function ProminentBitMagnitude(): real {
      if Resolver.ProminentBit(high, low) == 1 then high else low
    }

    predicate WithinThreshold(value: real) {
      -threshold <= value <= threshold
    }

    /** `Unset` is never within the threshold. */
    predicate WithinThresholdFromState(s: RxState)
      ensures s == Unset ==> !WithinThresholdFromState(s)
    {
      match s
      case Start => WithinThreshold(start)
      case End => WithinThreshold(end)
      case Next => WithinThreshold(next)
      case Bit => WithinThreshold(ProminentBitMagnitude())
      case Unset => false
    }
  }

  datatype RxMarker = RxMarker(selection: RxState, expectation: RxState)

  datatype RxResolver = RxResolver(current: RxMarker, end: RxMarker)

  /** The state `new` builds and `reset` restores. */
  const Initial: RxResolver := RxResolver(RxMarker(Unset, Start), RxMarker(Unset, Unset))

  datatype Resolved = Resolved(next: RxResolver, output: RxOutput)

  /** The positions the resolver can be in, and the two forms of the end marker. */
  predicate Valid(r: RxResolver) {
    && (r.current.selection, r.current.expectation) in
         {(Unset, Start), (Start, Next), (Start, Bit), (Bit, Next), (Bit, Bit)}
    && r.end in {RxMarker(Unset, Unset), RxMarker(End, Next)}
  }

  function SetExpectation(c: RxMarker): (c': RxMarker)
    ensures c.expectation in {Start, Bit} ==> c' == RxMarker(c.expectation, Next)
    ensures c.expectation == Next && c.selection in {Start, Bit} ==> c' == c.(expectation := Bit)
  {
    if c.expectation == Start || c.expectation == Bit then RxMarker(c.expectation, Next)
    else if c.expectation == Next && (c.selection == Start || c.selection == Bit) then c.(expectation := Bit)
    else c
  }

  /** `evaluate_end`. */
  predicate EndCaptured(r: RxResolver, m: RxMagnitudes) {
    r.current.expectation == Bit && r.current.selection == Bit && m.WithinThresholdFromState(End)
  }

  /** `RxResolver::resolve`. */
  function Resolve(r: RxResolver, m: RxMagnitudes): (res: Resolved)
    ensures Valid(r) ==> Valid(res.next)
    // a bit exactly for an accepted bit window
    ensures Valid(r) ==>
              (res.output.BitOut? <==> r.current.expectation == Bit && m.WithinThresholdFromState(Bit))
    ensures res.output.BitOut? ==>
              res.output.bit == Resolver.ProminentBit(m.high, m.low) && res.next.current == RxMarker(Bit, Next)
    // the end exactly when a pending end marker's next tone arrives in place of the expected marker
    ensures Valid(r) ==>
              (res.output.EndOut? <==>
                 && !EndCaptured(r, m) && r.end.expectation == Next
                 && m.WithinThresholdFromState(Next) && !m.WithinThresholdFromState(r.current.expectation))
    // accepted start and next windows still answer with an error
    ensures Valid(r) && r.current.expectation in {Start, Next} && m.WithinThresholdFromState(r.current.expectation) ==>
              res.output.ErrorOut?
    // a window that neither captures nor reports the end clears the end marker
    ensures !EndCaptured(r, m) && !res.output.EndOut? ==> res.next.end == RxMarker(Unset, Unset)
    // an end marker is only ever captured after a bit, with the end tone in range
    ensures res.next.end == RxMarker(End, Next) && !res.output.EndOut? ==>
              r.current == RxMarker(Bit, Bit) && m.WithinThresholdFromState(End)
  {
    var evaluation := m.WithinThresholdFromState(r.current.expectation);
    var captured := EndCaptured(r, m);
    var r1 := if captured then r.(end := RxMarker(End, Next)) else r;
    if !captured && m.WithinThresholdFromState(r1.end.expectation) && !evaluation then
      Resolved(r1, Resolver.EndOut)
    else
      var r2 := if !captured then r1.(end := RxMarker(Unset, Unset)) else r1;
      if evaluation then
        var r3 := r2.(current := SetExpectation(r2.current));
        if r3.current.expectation == Next && r3.current.selection == Bit then
          Resolved(r3, Resolver.BitOut(Resolver.ProminentBit(m.high, m.low)))
        else Resolved(r3, Resolver.ErrorOut)
      else Resolved(r2, Resolver.ErrorOut)
  }

  /** The window that captures the end marker is itself answered with an error (unless it
      also passes as a bit), so a receive loop that stops at the first error never sees
      the end this draft was meant to report. */
  lemma CaptureWindowReportsError(r: RxResolver, m: RxMagnitudes)
    requires r.current == RxMarker(Bit, Bit) && m.WithinThresholdFromState(End)
    requires !m.WithinThresholdFromState(Bit)
    ensures Resolve(r, m).output == Resolver.ErrorOut
    ensures Resolve(r, m).next.end == RxMarker(End, Next)
  {
  }
}
