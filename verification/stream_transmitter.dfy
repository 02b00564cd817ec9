/** The library's streaming transmitter (`StreamTransmitter`): an iterator that appends
    at most `N` stages of the frame per call and hands back what it appended. Its chunks,
    concatenated, are the padded frame `Transmitter::create` renders, at the stream's fade. */
module StreamTransmitter {
  import opened Bytes
  import opened Framing
  import opened Tone
  import opened ProtocolTransmitter
  import opened Optional
  import Profile
  import AudioTypes

  datatype Stage = StartStage | DataStage | EndStage

  /** `data` is what the byte iterator has not yielded yet. The tone generator is
      represented by the segments appended to it since the last `take_samples`; its
      samples are `Rendered(trig, sampleRate, held)` (see `GeneratorHolds`). */
  datatype Stream = Stream(tx: Transmitter, sampleRate: nat, held: seq<Segment>, stage: Stage, data: seq<bv8>,
                           fade: real, close: bool)

  /** `StreamTransmitter::new`: no fade, at the start stage, nothing appended. */
  function NewStream(profile: Profile.Profile, spec: AudioTypes.AudioSpec, data: seq<bv8>): (st: Stream)
    ensures st.held == [] && st.sampleRate == spec.sr
    ensures st.stage == StartStage && st.data == data && st.fade == 0.0 && !st.close
  {
    Stream(Transmitter(profile, spec), New(spec).sampleRate, [], StartStage, data, 0.0, false)
  }

  /** `set_fade`: only the fade changes. */
  function SetFade(st: Stream, fade: real): (r: Stream)
    ensures r.fade == fade
    ensures r.(fade := st.fade) == st
  {
    st.(fade := fade)
  }

  /** The pulse train of `syms` at the stream's profile and fade. */
  function Train(st: Stream, syms: seq<Symbol>): seq<Segment> {
    PulseTrain(FrequenciesOf(st.tx.profile), syms, ToneMicros(st.tx), GapMicros(st.tx), SineFaded(st.fade))
  }

  /** One pass of `next`'s loop body: the start stage appends silence, start and next;
      the data stage appends the next byte or, once the bytes run out, moves on; the end
      stage appends end, next and silence and closes the stream. */
  function Step(st: Stream): (r: Stream)
    ensures r.tx == st.tx && r.fade == st.fade && r.sampleRate == st.sampleRate
    ensures r.close <==> (st.close || st.stage == EndStage)
  {
    match st.stage
    case StartStage =>
      st.(held := st.held + [Silence(GapMicros(st.tx))] + Train(st, [StartMark, NextMark]), stage := DataStage)
    case DataStage =>
      if |st.data| > 0 then st.(held := st.held + Train(st, ByteSymbols(st.data[0])), data := st.data[1..])
      else st.(stage := EndStage)
    case EndStage =>
      st.(held := st.held + Train(st, [EndMark, NextMark]) + [Silence(GapMicros(st.tx))], close := true)
  }

  /** The generator calls of each stage append the samples of the segments `Step` adds. */
  lemma StepMatchesGenerator(trig: Trig, st: Stream, g: ToneGenerator)
    requires g.sampleRate == st.sampleRate && g.samples == Rendered(trig, st.sampleRate, st.held)
    ensures var r := Step(st);
            match st.stage
            case StartStage =>
              var quiet := AppendSilence(trig, st.tx, g);
              AppendPair(trig, st.tx, quiet, StartMark, NextMark, st.fade).samples == Rendered(trig, st.sampleRate, r.held)
            case DataStage =>
              |st.data| > 0 ==> AppendByte(trig, st.tx, g, st.data[0], st.fade).samples == Rendered(trig, st.sampleRate, r.held)
            case EndStage =>
              var closing := AppendPair(trig, st.tx, g, EndMark, NextMark, st.fade);
              AppendSilence(trig, st.tx, closing).samples == Rendered(trig, st.sampleRate, r.held)
  {
    var (sr, silence) := (st.sampleRate, [Silence(GapMicros(st.tx))]);
    match st.stage
    case StartStage =>
      RenderedAppend(trig, sr, st.held, silence);
      RenderedAppend(trig, sr, st.held + silence, Train(st, [StartMark, NextMark]));
    case DataStage =>
      if |st.data| > 0 {
        RenderedAppend(trig, sr, st.held, Train(st, ByteSymbols(st.data[0])));
      }
    case EndStage =>
      RenderedAppend(trig, sr, st.held, Train(st, [EndMark, NextMark]));
      RenderedAppend(trig, sr, st.held + Train(st, [EndMark, NextMark]), silence);
  }

  /** `for _ in 0..N`, leaving the loop once the end stage has run. */
  function Fill(st: Stream, k: nat): (r: Stream)
    decreases k
    ensures r.tx == st.tx && r.fade == st.fade && r.sampleRate == st.sampleRate
    ensures k == 0 ==> r == st
  {
    if k == 0 then st
    else
      var s := Step(st);
      if s.close then s else Fill(s, k - 1)
  }

  /** `Iterator::next`: `None` once closed; otherwise the samples the loop appended, and
      the generator emptied. */
  function Next(trig: Trig, st: Stream, n: nat): (r: Option<(seq<real>, Stream)>)
    ensures r.None? <==> st.close
    ensures r.Some? ==> r.value.0 == Rendered(trig, st.sampleRate, Fill(st, n).held)
    ensures r.Some? ==> r.value.1 == Fill(st, n).(held := [])
  {
    if st.close then None
    else
      var s := Fill(st, n);
      Some((Rendered(trig, s.sampleRate, s.held), s.(held := [])))
  }

  /** A measure the iterator's stages strictly decrease. */
  function Progress(st: Stream): nat {
    if st.close then 0
    else match st.stage
      case StartStage => |st.data| + 3
      case DataStage => |st.data| + 2
      case EndStage => 1
  }

  lemma {:induction false} FillProgress(st: Stream, k: nat)
    decreases k
    ensures Progress(Fill(st, k)) <= Progress(st)
    ensures k >= 1 && !st.close ==> Progress(Fill(st, k)) < Progress(st)
  {
    if k > 0 && !st.close {
      var s := Step(st);
      if !s.close {
        FillProgress(s, k - 1);
      }
    }
  }

  /** Every chunk the iterator yields, concatenated, until it returns `None`. */
  function Drain(trig: Trig, st: Stream, n: nat): seq<real>
    requires n >= 1
    decreases Progress(st)
  {
    match Next(trig, st, n)
    case None => []
    case Some((chunk, rest)) =>
      FillProgress(st, n);
      chunk + Drain(trig, rest, n)
  }

  /** What the stream has still to append, by stage. */
  function Pending(st: Stream): seq<Segment> {
    if st.close then []
    else match st.stage
      case StartStage => [Silence(GapMicros(st.tx))] + Train(st, Symbols(st.data)) + [Silence(GapMicros(st.tx))]
      case DataStage => Train(st, DataSymbols(st.data) + [EndMark, NextMark]) + [Silence(GapMicros(st.tx))]
      case EndStage => Train(st, [EndMark, NextMark]) + [Silence(GapMicros(st.tx))]
  }

  /** What the stream holds, then what it has still to append. */
  function Emitted(st: Stream): seq<Segment> {
    st.held + Pending(st)
  }

  /** A closed stream has handed over all it appended. */
  predicate Valid(st: Stream) {
    st.close ==> st.held == []
  }

  lemma StepEmits(st: Stream)
    requires !st.close
    ensures Emitted(Step(st)) == Emitted(st)
  {
    match st.stage
    case StartStage => StartEmits(st);
    case DataStage =>
      if |st.data| > 0 {
        ByteEmits(st);
      } else {
        assert DataSymbols(st.data) + [EndMark, NextMark] == [EndMark, NextMark];
      }
    case EndStage =>
  }

  lemma StartEmits(st: Stream)
    requires !st.close && st.stage == StartStage
    ensures Emitted(Step(st)) == Emitted(st)
  {
    var rest := DataSymbols(st.data) + [EndMark, NextMark];
    var (quiet, head) := ([Silence(GapMicros(st.tx))], Train(st, [StartMark, NextMark]));
    PulseTrainAppend(FrequenciesOf(st.tx.profile), [StartMark, NextMark], rest, ToneMicros(st.tx), GapMicros(st.tx), SineFaded(st.fade));
    assert Symbols(st.data) == [StartMark, NextMark] + rest;
    assert Emitted(st) == st.held + (quiet + (head + Train(st, rest)) + quiet);
    assert Emitted(Step(st)) == st.held + quiet + head + (Train(st, rest) + quiet);
    Regroup(st.held, quiet, head, Train(st, rest));
  }

  lemma Regroup<T>(a: seq<T>, q: seq<T>, h: seq<T>, r: seq<T>)
    ensures a + q + h + (r + q) == a + (q + (h + r) + q)
  {
  }

  lemma ByteEmits(st: Stream)
    requires !st.close && st.stage == DataStage && |st.data| > 0
    ensures Emitted(Step(st)) == Emitted(st)
  {
    var rest := DataSymbols(st.data[1..]) + [EndMark, NextMark];
    var (quiet, byte) := ([Silence(GapMicros(st.tx))], Train(st, ByteSymbols(st.data[0])));
    PulseTrainAppend(FrequenciesOf(st.tx.profile), ByteSymbols(st.data[0]), rest, ToneMicros(st.tx), GapMicros(st.tx), SineFaded(st.fade));
    assert DataSymbols(st.data) + [EndMark, NextMark] == ByteSymbols(st.data[0]) + rest;
    var next := st.(held := st.held + byte, data := st.data[1..]);
    assert Step(st) == next;
    assert Pending(next) == Train(st, rest) + quiet;
    assert Pending(st) == byte + Train(st, rest) + quiet;
  }

  lemma {:induction false} FillEmits(st: Stream, k: nat)
    requires !st.close
    decreases k
    ensures Emitted(Fill(st, k)) == Emitted(st)
  {
    if k > 0 {
      var s := Step(st);
      if !s.close {
        FillEmits(s, k - 1);
      }
      FillEmitsStep(st, k, s);
    }
  }

  /** One stage of `FillEmits`: a step keeps what is emitted, and so does the rest of
      the fill after it. */
  lemma FillEmitsStep(st: Stream, k: nat, s: Stream)
    requires !st.close && k > 0 && s == Step(st)
    requires !s.close ==> Emitted(Fill(s, k - 1)) == Emitted(s)
    ensures Emitted(Fill(st, k)) == Emitted(st)
  {
    StepEmits(st);
    FillStep(st, k, s);
    if !s.close {
      SameEmitted(Emitted(Fill(st, k)), Emitted(Fill(s, k - 1)), Emitted(s), Emitted(st));
    } else {
      SameEmitted(Emitted(Fill(st, k)), Emitted(s), Emitted(s), Emitted(st));
    }
  }

  /** One stage of `Fill`. */
  lemma FillStep(st: Stream, k: nat, s: Stream)
    requires k > 0 && s == Step(st)
    ensures Fill(st, k) == if s.close then s else Fill(s, k - 1)
  {
  }

  lemma SameEmitted(a: seq<Segment>, b: seq<Segment>, c: seq<Segment>, d: seq<Segment>)
    requires a == b && b == c && c == d
    ensures a == d
  {
  }

  /** Draining a valid stream yields the samples of what it holds and has still to
      append. */
  lemma {:induction false} DrainEmits(trig: Trig, st: Stream, n: nat)
    requires n >= 1 && Valid(st)
    ensures Drain(trig, st, n) == Rendered(trig, st.sampleRate, Emitted(st))
    decreases Progress(st)
  {
    if !st.close {
      var s := Fill(st, n);
      var rest := s.(held := []);
      FillEmits(st, n);
      FillProgress(st, n);
      assert Next(trig, st, n) == Some((Rendered(trig, st.sampleRate, s.held), rest));
      assert Drain(trig, st, n) == Rendered(trig, st.sampleRate, s.held) + Drain(trig, rest, n);
      DrainEmits(trig, rest, n);
      assert Emitted(rest) == Pending(s);
      RenderedAppend(trig, st.sampleRate, s.held, Pending(s));
    } else {
      assert Emitted(st) == [];
    }
  }

  /** A fresh stream at any fade, drained `N >= 1` stages at a time, yields the padded
      frame rendered at that fade. */
  lemma StreamRendersFrame(trig: Trig, profile: Profile.Profile, spec: AudioTypes.AudioSpec, data: seq<bv8>, fade: real, n: nat)
    requires n >= 1
    ensures var tx := Transmitter(profile, spec);
            Drain(trig, SetFade(NewStream(profile, spec, data), fade), n) ==
              Rendered(trig, spec.sr, PaddedFrame(FrequenciesOf(profile), data, ToneMicros(tx), GapMicros(tx), SineFaded(fade)))
  {
    var st := SetFade(NewStream(profile, spec, data), fade);
    DrainEmits(trig, st, n);
    assert Emitted(st) == Pending(st);
  }

  /** With `set_fade(0.1)` the stream's chunks add up to `create`'s samples. */
  lemma StreamIsCreate(trig: Trig, profile: Profile.Profile, spec: AudioTypes.AudioSpec, data: seq<bv8>, n: nat)
    requires n >= 1
    ensures Drain(trig, SetFade(NewStream(profile, spec, data), FADE), n) == Create(trig, Transmitter(profile, spec), data)
  {
    StreamRendersFrame(trig, profile, spec, data, FADE, n);
  }

  /** With `N == 0` the loop never runs: every call yields what the generator holds and
      the stream neither advances nor closes. */
  lemma ZeroChunksNeverClose(trig: Trig, st: Stream)
    requires !st.close
    ensures var r := Next(trig, st, 0);
            r.Some? && r.value.0 == Rendered(trig, st.sampleRate, st.held) && r.value.1 == st.(held := [])
  {
  }

  /** A closed stream yields `None` from then on, whatever `N`. */
  lemma ClosedStaysClosed(trig: Trig, st: Stream, n: nat)
    requires st.close
    ensures Next(trig, st, n) == None
  {
  }
}
