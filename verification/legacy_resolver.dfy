/** The resolver of the older crate layout (`rx::states` and `rx::resolver`): the same
    machine as `Resolver`, with the decibel threshold fixed to `DB_THRESHOLD`. */
module LegacyResolver {
  import opened Optional
  import opened Resolver

  const DB_THRESHOLD: real := 8.0

  datatype RxMagnitudes = RxMagnitudes(start: real, end: real, next: real, high: real, low: real) {

    predicate WithinRange(value: real) {
      -DB_THRESHOLD <= value <= DB_THRESHOLD
    }

    predicate Evaluate(state: RxState) {
      match state
      case Start => WithinRange(start)
      case End => WithinRange(end)
      case Next => WithinRange(next)
      case Bit => WithinRange(high) || WithinRange(low)
    }

    function GetBit(): bv8 {
      if high > low then 1 else 0
    }

    /** The verdicts are those of the newer magnitudes with the threshold set to 8 dB. */
    function Verdict(): (w: Window)
      ensures w == Resolver.RxMagnitudes(start, end, next, high, low, DB_THRESHOLD).Verdict()
    {
      Window(Evaluate(Start), Evaluate(End), Evaluate(Next), Evaluate(Bit), GetBit())
    }
  }

  /** `RxResolver::resolve`. */
  function Resolve(r: RxResolver, m: RxMagnitudes): (res: Resolved)
    ensures Valid(r) ==> Valid(res.next)
    ensures Valid(r) ==>
              (res.output.Some? && res.output.value.BitOut? <==> r.expectation == Bit && m.Evaluate(Bit))
    ensures res.output.Some? && res.output.value.BitOut? ==> (res.output.value.bit == 1 <==> m.high > m.low)
    ensures Valid(r) ==>
              (res.output == Some(EndOut) <==>
                 && r.endExpectation.Some? && m.WithinRange(m.next) && !m.Evaluate(r.expectation)
                 && !(r.selection == Some(Bit) && r.expectation == Bit && m.WithinRange(m.end)))
    ensures Valid(r) ==>
              (res.output == Some(ErrorOut) <==>
                 && !m.Evaluate(r.expectation)
                 && !(r.selection == Some(Bit) && r.expectation == Bit && m.WithinRange(m.end))
                 && !(r.endExpectation.Some? && m.WithinRange(m.next)))
  {
    Resolver.Resolve(r, m.Verdict())
  }
}
