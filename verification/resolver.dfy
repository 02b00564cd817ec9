/** The receiver's state machine (`RxResolver`): it consumes one analysis window at a
    time and emits a bit, the end of a transmission, an error, or nothing.

    The machine only needs to know, per window, which tones are acceptably present and
    which bit the window favours; that is the `Window` record. How a generation of the
    crate computes it from tone magnitudes is stated next to it (`RxMagnitudes` here,
    and in the modules of the older resolvers). */
module Resolver {
  import opened Optional

  datatype RxState = Start | End | Next | Bit

  datatype RxOutput = BitOut(bit: bv8) | EndOut | ErrorOut

  /** The verdicts on one window: whether the start, end, next and bit tones are
      acceptably present, and the bit the window favours. */
  datatype Window = Window(start: bool, end: bool, next: bool, bit: bool, value: bv8) {

    /** Whether the window is acceptable as the marker of `state`. */
    predicate Accepts(state: RxState) {
      match state
      case Start => start
      case End => end
      case Next => next
      case Bit => bit
    }
  }

  /** `get_prominent_bit` of every resolver: 1 when the high tone is the louder, so a tie
      reads as 0. */
  function ProminentBit(high: real, low: real): (b: bv8)
    ensures b == 1 <==> high > low
    ensures b == 0 <==> high <= low
  {
    if high > low then 1 else 0
  }

  /** Tone magnitudes of one window in decibels relative to the loudest bin, and the
      acceptance threshold. */
  datatype RxMagnitudes = RxMagnitudes(start: real, end: real, next: real, high: real, low: real, threshold: real) {

    predicate WithinThreshold(value: real) {
      -threshold <= value <= threshold
    }

    /** A bit window is acceptable when either bit tone is within the threshold. */
    predicate StateWithinThreshold(state: RxState) {
      match state
      case Start => WithinThreshold(start)
      case End => WithinThreshold(end)
      case Next => WithinThreshold(next)
      case Bit => WithinThreshold(high) || WithinThreshold(low)
    }

    function Verdict(): (w: Window)
      ensures forall s :: w.Accepts(s) <==> StateWithinThreshold(s)
      ensures w.value == 1 <==> high > low
      ensures w.value == 0 <==> high <= low
    {
      Window(StateWithinThreshold(Start), StateWithinThreshold(End), StateWithinThreshold(Next),
             StateWithinThreshold(Bit), ProminentBit(high, low))
    }
  }

  /** The position in the frame (`selection`, `expectation`) and a pending end marker
      (`endSelection`, `endExpectation`). */
  datatype RxResolver = RxResolver(
    selection: Option<RxState>,
    expectation: RxState,
    endSelection: Option<RxState>,
    endExpectation: Option<RxState>)

  /** The state `new` builds and `reset` restores. */
  const Initial: RxResolver := RxResolver(None, Start, None, None)

  datatype Resolved = Resolved(next: RxResolver, output: Option<RxOutput>)

  /** The positions a resolver can be in: waiting for the start marker, after it, and
      between bits; a pending end marker only ever follows a bit. */
  predicate Valid(r: RxResolver) {
    && (match r.selection
        case None => r.expectation == Start
        case Some(Start) => r.expectation == Next || r.expectation == Bit
        case Some(Bit) => r.expectation == Next || r.expectation == Bit
        case Some(_) => false)
    && (r.endExpectation.Some? ==>
          r.endExpectation == Some(Next) && r.endSelection == Some(End) && r.selection == Some(Bit))
    && (r.endExpectation.None? ==> r.endSelection.None?)
  }

  /** Advancing after an accepted window: a start or bit becomes the selection and a next
      marker is expected; after a next marker that follows a start or a bit, a bit is
      expected. */
  function SetExpectation(r: RxResolver): (r': RxResolver)
    ensures r'.endSelection == r.endSelection && r'.endExpectation == r.endExpectation
    ensures r.expectation == Start || r.expectation == Bit ==> r'.selection == Some(r.expectation) && r'.expectation == Next
    ensures r.expectation == Next && (r.selection == Some(Start) || r.selection == Some(Bit)) ==>
              r'.selection == r.selection && r'.expectation == Bit
  {
    if r.expectation == Start || r.expectation == Bit then
      r.(selection := Some(r.expectation), expectation := Next)
    else if r.expectation == Next && (r.selection == Some(Start) || r.selection == Some(Bit)) then
      r.(expectation := Bit)
    else r
  }

  /** `evaluate_end`: an end marker heard while a bit is expected after a bit. */
  predicate EndCaptured(r: RxResolver, w: Window) {
    r.expectation == Bit && r.selection == Some(Bit) && w.end
  }

  /** `resolve`: one window through the machine. */
  function Resolve(r: RxResolver, w: Window): (res: Resolved)
    ensures Valid(r) ==> Valid(res.next)
    // a window that is not the expected marker never moves the position
    ensures !w.Accepts(r.expectation) ==>
              res.next.selection == r.selection && res.next.expectation == r.expectation
    ensures Valid(r) ==> (res.output.Some? && res.output.value.BitOut? <==> r.expectation == Bit && w.bit)
    ensures res.output.Some? && res.output.value.BitOut? ==>
              res.output.value.bit == w.value && res.next.selection == Some(Bit) && res.next.expectation == Next
    ensures Valid(r) ==>
              (res.output == Some(EndOut) <==>
                 r.endExpectation.Some? && w.next && !w.Accepts(r.expectation) && !EndCaptured(r, w))
    ensures Valid(r) ==>
              (res.output == Some(ErrorOut) <==>
                 !w.Accepts(r.expectation) && !EndCaptured(r, w) && !(r.endExpectation.Some? && w.next))
  {
    var captured := EndCaptured(r, w);
    var r1 := if captured then r.(endSelection := Some(End), endExpectation := Some(Next)) else r;
    var evaluation := w.Accepts(r.expectation);
    if !captured && r1.endExpectation.Some? && w.Accepts(r1.endExpectation.value) && !evaluation then
      Resolved(r1, Some(EndOut))
    else
      var r2 := if !captured && r1.endExpectation.Some? then r1.(endSelection := None, endExpectation := None) else r1;
      if evaluation then
        var r3 := SetExpectation(r2);
        if r3.expectation == Next && r3.selection == Some(Bit) then Resolved(r3, Some(BitOut(w.value)))
        else Resolved(r3, None)
      else if !captured then Resolved(r2, Some(ErrorOut))
      else Resolved(r2, None)
  }

  /** `RxResolver::resolve` on the magnitudes of a window. */
  function ResolveMagnitudes(r: RxResolver, m: RxMagnitudes): (res: Resolved)
    ensures Valid(r) ==>
              (res.output.Some? && res.output.value.BitOut? <==> r.expectation == Bit && m.StateWithinThreshold(Bit))
    ensures res.output.Some? && res.output.value.BitOut? ==> (res.output.value.bit == 1 <==> m.high > m.low)
    ensures Valid(r) ==>
              (res.output == Some(ErrorOut) <==>
                 && !m.StateWithinThreshold(r.expectation)
                 && !(r.selection == Some(Bit) && r.expectation == Bit && m.WithinThreshold(m.end))
                 && !(r.endExpectation.Some? && m.WithinThreshold(m.next)))
  {
    Resolve(r, m.Verdict())
  }
}
