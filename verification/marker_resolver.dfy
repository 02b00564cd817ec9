/** An unfinished rewrite of the resolver that keeps the position and the pending end
    marker in two small records (`RxCurrentMarker`, `RxEndMarker`). It differs from the
    compiled resolver in one respect: a bit window is judged by the louder bit tone only,
    so an in-range quieter tone does not make the window acceptable. */
module MarkerResolver {
  import opened Optional
  import Resolver

  type RxState = Resolver.RxState
  type RxOutput = Resolver.RxOutput

  predicate IsStart(s: RxState) { s == Resolver.Start }
  predicate IsBit(s: RxState) { s == Resolver.Bit }
  predicate IsNext(s: RxState) { s == Resolver.Next }

  predicate IsStartOrBit(s: RxState) {
    IsStart(s) || IsBit(s)
  }

  lemma StatePredicates(s: RxState)
    ensures IsStartOrBit(s) <==> s in {Resolver.Start, Resolver.Bit}
    ensures IsNext(s) <==> s == Resolver.Next
    ensures !(IsStartOrBit(s) && IsNext(s))
  {
  }

  datatype RxMagnitudes = RxMagnitudes(start: real, end: real, next: real, high: real, low: real, threshold: real) {

    /** The magnitude of the louder bit tone (the low one on a tie). */
    function ProminentBitMagnitude(): (v: real)
      ensures v == high || v == low
      ensures v >= high && v >= low
    {
      if Resolver.ProminentBit(high, low) == 1 then high else low
    }

    predicate WithinThreshold(value: real) {
      -threshold <= value <= threshold
    }

    predicate WithinThresholdFromState(s: RxState) {
      WithinThreshold(match s
        case Start => start
        case End => end
        case Next => next
        case Bit => ProminentBitMagnitude())
    }

    function Verdict(): (w: Resolver.Window)
      ensures forall s :: w.Accepts(s) <==> WithinThresholdFromState(s)
      ensures w.value == Resolver.ProminentBit(high, low)
    {
      Resolver.Window(WithinThresholdFromState(Resolver.Start), WithinThresholdFromState(Resolver.End),
                      WithinThresholdFromState(Resolver.Next), WithinThresholdFromState(Resolver.Bit), Resolver.ProminentBit(high, low))
    }
  }

  /** Accepting a bit window by its louder tone is stricter than the compiled resolver's
      rule that either tone may be in range. */
  lemma ProminentRuleIsStricter(m: RxMagnitudes)
    ensures m.WithinThresholdFromState(Resolver.Bit) ==>
              Resolver.RxMagnitudes(m.start, m.end, m.next, m.high, m.low, m.threshold).StateWithinThreshold(Resolver.Bit)
  {
  }

  /** A loud out-of-range high tone over an in-range low tone: the compiled resolver
      accepts the window as a 0 bit, this one rejects it. */
  lemma ProminentRuleRejectsQuieterTone()
    ensures var m := RxMagnitudes(-100.0, -100.0, -100.0, 20.0, 0.0, 8.0);
            && !m.WithinThresholdFromState(Resolver.Bit)
            && Resolver.RxMagnitudes(m.start, m.end, m.next, m.high, m.low, m.threshold).StateWithinThreshold(Resolver.Bit)
  {
  }

  datatype RxCurrentMarker = RxCurrentMarker(selection: Option<RxState>, expectation: RxState)

  datatype RxEndMarker = RxEndMarker(selection: Option<RxState>, expectation: Option<RxState>)

  datatype RxResolver = RxResolver(current: RxCurrentMarker, end: RxEndMarker)

  /** The state `new` builds and `reset` restores. */
  const Initial: RxResolver := RxResolver(RxCurrentMarker(None, Resolver.Start), RxEndMarker(None, None))

  datatype Resolved = Resolved(next: RxResolver, output: Option<RxOutput>)

  /** The same position and pending end as a state of the compiled resolver. */
  function AsCompiled(r: RxResolver): Resolver.RxResolver {
    Resolver.RxResolver(r.current.selection, r.current.expectation, r.end.selection, r.end.expectation)
  }

  function SetExpectation(c: RxCurrentMarker): (c': RxCurrentMarker)
    ensures IsStartOrBit(c.expectation) ==> c' == RxCurrentMarker(Some(c.expectation), Resolver.Next)
    ensures IsNext(c.expectation) && c.selection.Some? && IsStartOrBit(c.selection.value) ==>
              c' == c.(expectation := Resolver.Bit)
    ensures !IsStartOrBit(c.expectation) && !(IsNext(c.expectation) && c.selection.Some? && IsStartOrBit(c.selection.value)) ==>
              c' == c
  {
    if IsStartOrBit(c.expectation) then RxCurrentMarker(Some(c.expectation), Resolver.Next)
    else if IsNext(c.expectation) && c.selection.Some? && IsStartOrBit(c.selection.value) then
      c.(expectation := Resolver.Bit)
    else c
  }

  /** `RxResolver::resolve`: the evaluation of the expected marker happens before the end
      check, which does not change it. */
  function Resolve(r: RxResolver, m: RxMagnitudes): (res: Resolved)
    // step for step the compiled resolver run on this draft's verdicts
    ensures var compiled := Resolver.Resolve(AsCompiled(r), m.Verdict());
            AsCompiled(res.next) == compiled.next && res.output == compiled.output
  {
    var evaluation := m.WithinThresholdFromState(r.current.expectation);
    var captured := IsBit(r.current.expectation) && r.current.selection == Some(Resolver.Bit)
                    && m.WithinThresholdFromState(Resolver.End);
    var r1 := if captured then r.(end := RxEndMarker(Some(Resolver.End), Some(Resolver.Next))) else r;
    if !captured && r1.end.expectation.Some? && m.WithinThresholdFromState(r1.end.expectation.value) && !evaluation then
      Resolved(r1, Some(Resolver.EndOut))
    else
      var r2 := if !captured && r1.end.expectation.Some? then r1.(end := RxEndMarker(None, None)) else r1;
      if evaluation then
        var r3 := r2.(current := SetExpectation(r2.current));
        if IsNext(r3.current.expectation) && r3.current.selection.Some? && IsBit(r3.current.selection.value) then
          Resolved(r3, Some(Resolver.BitOut(Resolver.ProminentBit(m.high, m.low))))
        else Resolved(r3, None)
      else if !captured then Resolved(r2, Some(Resolver.ErrorOut))
      else Resolved(r2, None)
  }

  /** The compiled resolver's guarantees carry over: valid positions are kept, a bit is
      reported exactly for an accepted bit window, and an error exactly when the expected
      marker is missing with no end captured and none pending. */
  lemma ResolveKeepsGuarantees(r: RxResolver, m: RxMagnitudes)
    requires Resolver.Valid(AsCompiled(r))
    ensures Resolver.Valid(AsCompiled(Resolve(r, m).next))
    ensures var o := Resolve(r, m).output;
            o.Some? && o.value.BitOut? <==> IsBit(r.current.expectation) && m.WithinThresholdFromState(Resolver.Bit)
    ensures Resolve(r, m).output == Some(Resolver.ErrorOut) <==>
              && !m.WithinThresholdFromState(r.current.expectation)
              && !(IsBit(r.current.expectation) && r.current.selection == Some(Resolver.Bit) && m.WithinThresholdFromState(Resolver.End))
              && !(r.end.expectation.Some? && m.WithinThresholdFromState(Resolver.Next))
    ensures Resolve(r, m).output == Some(Resolver.EndOut) ==>
              r.end.expectation == Some(Resolver.Next) && r.current.selection == Some(Resolver.Bit)
              && m.WithinThresholdFromState(Resolver.Next) && !m.WithinThresholdFromState(r.current.expectation)
  {
    var compiled := Resolver.Resolve(AsCompiled(r), m.Verdict());
  }
}
