/** The search for the start marker shared by the newer receivers (`find_starting_index`
    with `update_starting_index_search` and `update_starting_index`).

    Before anything is captured the search probes a coarse grid, `skip` samples apart,
    and captures the first window whose start-tone magnitude is within the threshold.
    From then on it moves one sample at a time, replacing the best window by any window
    at least as loud that is still within the threshold, and gives up after `maxFails`
    further windows in a row fail to do so. */
module StartSearch {
  import opened Optional

  /** `limit` is `samples.len() - sample_size` (the scan covers indices below it), `skip`
      the coarse step before a capture, and `startMag(i)` the start-tone magnitude of the
      window at sample `i`. */
  datatype SearchParams = SearchParams(
    limit: nat, skip: nat, maxFails: nat, threshold: real, startMag: nat -> real)

  /** The mutable search variables: best index, best magnitude, consecutive failures. */
  datatype Search = Search(bestIdx: Option<nat>, bestMagnitude: Option<real>, fails: nat)

  const Fresh: Search := Search(None, None, 0)

  datatype Update = Update(search: Search, terminate: bool)

  predicate InRange(p: SearchParams, magnitude: real) {
    -p.threshold <= magnitude <= p.threshold
  }

  /** Whether the window at `j` replaces a best window of magnitude `best`. */
  predicate Improves(p: SearchParams, j: nat, best: real) {
    p.startMag(j) >= best && p.startMag(j) <= p.threshold
  }

  /** `update_starting_index_search` for the window at `idx`. */
  function UpdateSearch(p: SearchParams, s: Search, idx: nat): (u: Update)
    // only a captured search can give up, and only after `maxFails` earlier failures
    ensures u.terminate <==>
              s.bestMagnitude.Some? && !Improves(p, idx, s.bestMagnitude.value) && s.fails == p.maxFails
    // the best magnitude is never lowered and stays within the threshold
    ensures s.bestMagnitude.Some? ==>
              u.search.bestMagnitude.Some? && u.search.bestMagnitude.value >= s.bestMagnitude.value
    ensures (s.bestMagnitude.Some? ==> InRange(p, s.bestMagnitude.value)) ==>
              (u.search.bestMagnitude.Some? ==> InRange(p, u.search.bestMagnitude.value))
    ensures u.search.bestMagnitude != s.bestMagnitude ==>
              u.search.bestIdx == Some(idx) && u.search.bestMagnitude == Some(p.startMag(idx))
    // nothing but the current window can become the best
    ensures u.search.bestIdx != s.bestIdx ==> u.search.bestIdx == Some(idx)
  {
    var magnitude := p.startMag(idx);
    match s.bestMagnitude
    case Some(best) =>
      if magnitude >= best && magnitude <= p.threshold then
        Update(Search(Some(idx), Some(magnitude), 0), false)
      else if s.fails == p.maxFails then Update(s, true)
      else Update(s.(fails := s.fails + 1), false)
    case None =>
      if InRange(p, magnitude) then Update(Search(Some(idx), Some(magnitude), s.fails), false)
      else Update(s, false)
  }

  /** `update_starting_index`: the coarse step before a capture, one sample after. */
  function Advance(p: SearchParams, s: Search, idx: nat): nat {
    if s.bestMagnitude.None? then idx + p.skip else idx + 1
  }

  /** The search loop from index `idx`. */
  function SearchFrom(p: SearchParams, idx: nat, s: Search): Option<nat>
    requires p.skip >= 1
    decreases if idx < p.limit then p.limit - idx else 0
  {
    if idx >= p.limit then s.bestIdx
    else
      var u := UpdateSearch(p, s, idx);
      if u.terminate then u.search.bestIdx
      else SearchFrom(p, Advance(p, u.search, idx), u.search)
  }

  /** The first window on the coarse grid from `idx` on whose start magnitude is within
      the threshold: the window a search starting at `idx` captures. */
  function FirstCapture(p: SearchParams, idx: nat): (c: Option<nat>)
    requires p.skip >= 1
    ensures c.Some? ==> idx <= c.value < p.limit && InRange(p, p.startMag(c.value))
    decreases if idx < p.limit then p.limit - idx else 0
  {
    if idx >= p.limit then None
    else if InRange(p, p.startMag(idx)) then Some(idx)
    else FirstCapture(p, idx + p.skip)
  }

  /** No window from `c` to `b` that is within the threshold is louder than `b`. */
  predicate Loudest(p: SearchParams, c: nat, b: nat) {
    forall j :: c <= j <= b && p.startMag(j) <= p.threshold ==> p.startMag(j) <= p.startMag(b)
  }

  /** None of the `maxFails + 1` windows after `b` replaces it. */
  predicate Unbeaten(p: SearchParams, b: nat) {
    forall j :: b < j <= b + p.maxFails + 1 && j < p.limit ==> !Improves(p, j, p.startMag(b))
  }

  /** What the search variables satisfy at the top of the loop. */
  predicate Inv(p: SearchParams, idx: nat, s: Search)
    requires p.skip >= 1
  {
    match s.bestIdx
    case None => s == Fresh && FirstCapture(p, idx) == FirstCapture(p, 0)
    case Some(b) =>
      && FirstCapture(p, 0).Some? && FirstCapture(p, 0).value <= b < idx && b < p.limit
      && s.bestMagnitude == Some(p.startMag(b)) && InRange(p, p.startMag(b))
      && idx == b + 1 + s.fails && s.fails <= p.maxFails
      && (forall j :: b < j < idx ==> !Improves(p, j, p.startMag(b)))
      && Loudest(p, FirstCapture(p, 0).value, b)
  }

  /** The search finds a window exactly when the coarse grid has a capture, and the window
      it finds is within the threshold, the loudest such window since the capture, and
      not beaten by any of the `maxFails + 1` windows after it. */
  lemma {:induction false} SearchFromSpec(p: SearchParams, idx: nat, s: Search)
    requires p.skip >= 1 && Inv(p, idx, s)
    ensures var r := SearchFrom(p, idx, s);
            && (r.None? <==> FirstCapture(p, 0).None?)
            && (r.Some? ==>
                  && r.value < p.limit && InRange(p, p.startMag(r.value))
                  && FirstCapture(p, 0).value <= r.value
                  && Loudest(p, FirstCapture(p, 0).value, r.value)
                  && Unbeaten(p, r.value))
    decreases if idx < p.limit then p.limit - idx else 0
  {
    if idx < p.limit {
      var u := UpdateSearch(p, s, idx);
      if !u.terminate {
        var next := Advance(p, u.search, idx);
        if s.bestIdx.Some? && u.search.bestIdx == Some(idx) {
          var c := FirstCapture(p, 0).value;
          assert Loudest(p, c, idx) by {
            forall j | c <= j <= idx && p.startMag(j) <= p.threshold
              ensures p.startMag(j) <= p.startMag(idx)
            {
              if j > s.bestIdx.value && j < idx {
                assert !Improves(p, j, p.startMag(s.bestIdx.value));
              }
            }
          }
        }
        assert Inv(p, next, u.search);
        SearchFromSpec(p, next, u.search);
      }
    }
  }

  /** `samples.len() - sample_size`, the end of the scan, where that does not underflow. */
  function Limit(len: nat, size: nat): (limit: nat)
    ensures size <= len ==> limit + size == len
  {
    if size <= len then len - size else 0
  }

  /** `find_starting_index` over `len` samples with windows of `size` samples. The loop
      bound `samples.len() - sample_size` panics when the samples are shorter than one
      window. */
  method FindStartingIndex(p: SearchParams, len: nat, size: nat) returns (found: Outcome<Option<nat>>)
    requires p.limit == Limit(len, size) && p.skip >= 1
    ensures found.Panics? <==> len < size
    ensures found.Returns? ==> found.value == SearchFrom(p, 0, Fresh)
    ensures found.Returns? ==> (found.value.None? <==> FirstCapture(p, 0).None?)
    ensures found.Returns? && found.value.Some? ==>
              found.value.value + size < len && InRange(p, p.startMag(found.value.value))
    ensures found.Returns? && found.value.Some? ==>
              FirstCapture(p, 0).value <= found.value.value && Loudest(p, FirstCapture(p, 0).value, found.value.value)
    ensures found.Returns? && found.value.Some? ==> Unbeaten(p, found.value.value)
  {
    if len < size {
      return Panics;
    }
    var search := Fresh;
    var idx := 0;
    SearchFromSpec(p, 0, Fresh);
    while idx < len - size
      invariant SearchFrom(p, idx, search) == SearchFrom(p, 0, Fresh)
      decreases len - size - idx
    {
      var u := UpdateSearch(p, search, idx);
      search := u.search;
      if u.terminate {
        return Returns(search.bestIdx);
      }
      idx := Advance(p, search, idx);
    }
    return Returns(search.bestIdx);
  }
}
