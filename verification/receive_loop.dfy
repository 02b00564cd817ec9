/** The decoding loop every file receiver runs once the start is found (`receive_bits`):
    windows of `tsz` samples, `tsz + gsz` samples apart, are resolved until the resolver
    reports the end or an error or the samples run out. `verdict(i)` is the resolver's
    view of the window starting at sample `i`. */
module ReceiveLoop {
  import opened Optional
  import opened Resolver
  import opened ResolverTrace

  /** The windows the loop visits from sample `idx` on, in order. */
  function WindowsFrom(verdict: nat -> Window, idx: nat, tsz: nat, stride: nat, len: nat): (ws: seq<Window>)
    requires stride >= 1
    ensures |ws| > 0 <==> idx + tsz <= len
    ensures |ws| > 0 ==> ws[0] == verdict(idx)
    decreases len - idx
  {
    if idx + tsz > len then [] else [verdict(idx)] + WindowsFrom(verdict, idx + stride, tsz, stride, len)
  }

  /** The bit an output carries, if any. */
  function Emitted(out: Option<RxOutput>): (bits: seq<bv8>)
    ensures |bits| <= 1
    ensures |bits| == 1 <==> out.Some? && out.value.BitOut?
    ensures |bits| == 1 ==> bits[0] == out.value.bit
  {
    if out.Some? && out.value.BitOut? then [out.value.bit] else []
  }

  /** The receive loop read straight off the window positions, from sample `idx` on, with
      the bits `acc` already collected and `last` the last output. */
  function Run(r: RxResolver, verdict: nat -> Window, idx: nat, tsz: nat, stride: nat, len: nat,
               acc: seq<bv8>, last: Option<RxOutput>): (res: Received)
    requires stride >= 1
    decreases len - idx
  {
    if idx + tsz > len then Received(acc, last)
    else
      var step := Resolve(r, verdict(idx));
      if step.output.Some? && !step.output.value.BitOut? then Received(acc, step.output)
      else Run(step.next, verdict, idx + stride, tsz, stride, len, acc + Emitted(step.output), step.output)
  }

  /** One window of the receive loop: the end or an error stops it, anything else adds
      its bit, if any, and goes on with the remaining windows. */
  lemma CollectUnfold(r: RxResolver, ws: seq<Window>, last: Option<RxOutput>)
    requires |ws| > 0
    ensures var step := Resolve(r, ws[0]);
            var rest := Collect(step.next, ws[1..], step.output);
            Collect(r, ws, last) ==
              if step.output.Some? && !step.output.value.BitOut? then Received([], step.output)
              else Received(Emitted(step.output) + rest.bits, rest.last)
  {
  }

  /** One position of the loop over the window positions. */
  lemma RunUnfold(r: RxResolver, verdict: nat -> Window, idx: nat, tsz: nat, stride: nat, len: nat,
                  acc: seq<bv8>, last: Option<RxOutput>)
    requires stride >= 1 && idx + tsz <= len
    ensures var step := Resolve(r, verdict(idx));
            Run(r, verdict, idx, tsz, stride, len, acc, last) ==
              if step.output.Some? && !step.output.value.BitOut? then Received(acc, step.output)
              else Run(step.next, verdict, idx + stride, tsz, stride, len, acc + Emitted(step.output), step.output)
  {
  }

  /** A window `step` that neither ends nor breaks the transmission: the loop goes on. */
  lemma RunStep(r: RxResolver, verdict: nat -> Window, idx: nat, tsz: nat, stride: nat, len: nat,
                acc: seq<bv8>, last: Option<RxOutput>, step: Resolved)
    requires stride >= 1 && idx + tsz <= len
    requires step == Resolve(r, verdict(idx)) && !(step.output.Some? && !step.output.value.BitOut?)
    ensures Run(r, verdict, idx, tsz, stride, len, acc, last) ==
              Run(step.next, verdict, idx + stride, tsz, stride, len, acc + Emitted(step.output), step.output)
  {
    RunUnfold(r, verdict, idx, tsz, stride, len, acc, last);
  }

  /** A window `step` that ends or breaks the transmission stops the loop. */
  lemma RunStop(r: RxResolver, verdict: nat -> Window, idx: nat, tsz: nat, stride: nat, len: nat,
                acc: seq<bv8>, last: Option<RxOutput>, step: Resolved)
    requires stride >= 1 && idx + tsz <= len
    requires step == Resolve(r, verdict(idx)) && step.output.Some? && !step.output.value.BitOut?
    ensures Run(r, verdict, idx, tsz, stride, len, acc, last) == Received(acc, step.output)
  {
    RunUnfold(r, verdict, idx, tsz, stride, len, acc, last);
  }

  /** The loop over the window positions is the receive loop over `WindowsFrom`, after
      the bits already collected. */
  lemma {:induction false} RunIsCollect(r: RxResolver, verdict: nat -> Window, idx: nat, tsz: nat, stride: nat,
                                        len: nat, acc: seq<bv8>, last: Option<RxOutput>)
    requires stride >= 1
    ensures var c := Collect(r, WindowsFrom(verdict, idx, tsz, stride, len), last);
            Run(r, verdict, idx, tsz, stride, len, acc, last) == Received(acc + c.bits, c.last)
    decreases len - idx
  {
    var ws := WindowsFrom(verdict, idx, tsz, stride, len);
    if idx + tsz <= len {
      assert ws[1..] == WindowsFrom(verdict, idx + stride, tsz, stride, len);
      var step := Resolve(r, verdict(idx));
      RunUnfold(r, verdict, idx, tsz, stride, len, acc, last);
      CollectUnfold(r, ws, last);
      if step.output.Some? && !step.output.value.BitOut? {
        assert acc + [] == acc;
      } else {
        var acc' := acc + Emitted(step.output);
        RunIsCollect(step.next, verdict, idx + stride, tsz, stride, len, acc', step.output);
        var rest := Collect(step.next, ws[1..], step.output);
        AppendAssociates(acc, Emitted(step.output), rest.bits);
      }
    } else {
      assert acc + [] == acc;
    }
  }

  lemma AppendAssociates(a: seq<bv8>, b: seq<bv8>, c: seq<bv8>)
    ensures (a + b) + c == a + (b + c)
  {
  }

  /** `receive_bits`. The source loops forever when `tsz + gsz` is zero. */
  method ReceiveBits(verdict: nat -> Window, idx0: nat, tsz: nat, gsz: nat, len: nat)
    returns (bits: seq<bv8>, last: Option<RxOutput>)
    requires tsz + gsz >= 1
    ensures Received(bits, last) == Collect(Initial, WindowsFrom(verdict, idx0, tsz, tsz + gsz, len), None)
    ensures last == Some(EndOut) ==> |bits| >= 1
  {
    bits := [];
    last := None;
    var resolver := Initial;
    var idx := idx0;
    ghost var goal := Run(Initial, verdict, idx0, tsz, tsz + gsz, len, [], None);
    while idx + tsz <= len
      invariant Run(resolver, verdict, idx, tsz, tsz + gsz, len, bits, last) == goal
      decreases len - idx
    {
      var step := Resolve(resolver, verdict(idx));
      resolver := step.next;
      last := step.output;
      idx := idx + tsz + gsz;
      if last.Some? && !last.value.BitOut? {
        break;
      }
      bits := bits + Emitted(last);
    }
    ghost var c := Collect(Initial, WindowsFrom(verdict, idx0, tsz, tsz + gsz, len), None);
    RunIsCollect(Initial, verdict, idx0, tsz, tsz + gsz, len, [], None);
    assert [] + c.bits == c.bits;
    if last == Some(EndOut) {
      EndedRunHasBits(Initial, WindowsFrom(verdict, idx0, tsz, tsz + gsz, len), None);
    }
  }

  /** `clamp_ending_index`. */
  function ClampEndingIndex(len: nat, index: nat): (r: nat)
    ensures r <= len && r <= index && (r == len || r == index)
  {
    if index > len then len else index
  }

  /** `mute_samples_gap`: zero the gap after the tone window at `idx`, clamped to the end
      of the samples. The source panics when the tone window itself runs past the end. */
  method MuteSamplesGap(samples: seq<real>, idx: nat, tsz: nat, gsz: nat) returns (muted: seq<real>)
    requires idx + tsz <= |samples|
    ensures |muted| == |samples|
    ensures forall k :: 0 <= k < |samples| ==>
              muted[k] == (if idx + tsz <= k < idx + tsz + gsz then 0.0 else samples[k])
  {
    var en := ClampEndingIndex(|samples|, idx + tsz + gsz);
    muted := samples;
    var k := idx + tsz;
    while k < en
      invariant idx + tsz <= k <= en
      invariant |muted| == |samples|
      invariant forall m :: 0 <= m < |samples| ==>
                  muted[m] == (if idx + tsz <= m < k then 0.0 else samples[m])
    {
      muted := muted[k := 0.0];
      k := k + 1;
    }
  }
}
