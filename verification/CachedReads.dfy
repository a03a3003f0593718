// When readers of the block cache need no fetch of their own: their blocks are cached, or
// another reader has just published them (docker/lancedb-go-disk-cache.rs, `get_blocks`).
module CachedReads {
  import opened Wrappers
  import opened BlockRanges
  import opened SingleFlight

  // ---------- Cached blocks ----------

  // The block that the reader looks up next starts past the end, or it is cached and read.
  ghost predicate Hits(s: State, r: Reader, hit: bool) {
    r.phase.Probing? && r.phase.next < |r.slots| && r.size.Some? && r.KeyAt(r.phase.next).1 * BLOCK_BYTES < r.size.value
    ==> hit && r.KeyAt(r.phase.next) in s.blocks
  }

  // In a step of reader i its block is there.
  ghost predicate StepHits(s: State, step: Step, i: nat) {
    step.Probe? && step.i == i && i < |s.readers| ==> Hits(s, s.readers[i], step.hit)
  }

  // The reader knows the size, has begun no fetch, and has every block it looked up.
  ghost predicate Content(r: Reader) {
    && r.size.Some? && r.started == 0 && !r.joined && r.retry.None?
    && match r.phase
       case Probing(next) => forall k | 0 <= k < next :: !r.Missing(k)
       case Deciding => r.NoneMissing()
       case Done(_) => true
       case _ => false
  }

  lemma ProbeContents(s: State, r: Reader, hit: bool)
    requires Content(r) && r.phase.Probing? && Hits(s, r, hit)
    ensures Content(Probed(s, r, hit))
  {
    var next, r' := r.phase.next, Probed(s, r, hit);
    if r'.phase.Deciding? {
      forall k | 0 <= k < |r.slots|
        ensures !r'.Missing(k)
      {
        if k < next { assert !r.Missing(k); } else { BlocksGrow(r.First() + next, r.First() + k); }
      }
    } else {
      forall k | 0 <= k < next + 1
        ensures !r'.Missing(k)
      {
        if k < next { assert !r.Missing(k); }
      }
    }
  }

  lemma BlocksGrow(a: nat, b: nat)
    requires a <= b
    ensures a * BLOCK_BYTES <= b * BLOCK_BYTES
  {
  }

  predicate Waits(r: Reader) { r.phase.Owning? || r.phase.Waiting? || r.phase.Retrying? }

  // A reader that waits for nothing moves in its own steps alone.
  lemma OthersStay(s: State, step: Step, s': State, i: nat)
    requires Next(s, step, s') && i < |s.readers| && !Waits(s.readers[i])
    requires step.Probe? || step.Decide? ==> step.i != i
    ensures i < |s'.readers| && s'.readers[i] == s.readers[i]
  {
    hide Arrival, Published, Unpublished, Filling, Finishing, Decided, Probed;
    if step.Decide? { DecidesAlone(s, step.i, step.lo, step.hi, s'); }
  }

  lemma DecidesAlone(s: State, i: nat, lo: nat, hi: nat, s': State)
    requires i < |s.readers| && Decided(s, i, lo, hi, s')
    ensures |s'.readers| == |s.readers| && forall j | 0 <= j < |s.readers| && j != i :: s'.readers[j] == s.readers[j]
  {
    hide AllInFlight, FoundWaits, Widen, Finishing, Published;
  }

  lemma ContentStays(s: State, step: Step, s': State, i: nat)
    requires Next(s, step, s') && i < |s.readers| && Content(s.readers[i]) && StepHits(s, step, i)
    ensures i < |s'.readers| && Content(s'.readers[i])
  {
    var r := s.readers[i];
    NeverWaits(r);
    if step.Probe? && step.i == i {
      ProbeContents(s, r, step.hit);
    } else if step.Decide? && step.i == i {
      DecideContent(s, i, step.lo, step.hi, s');
    } else {
      hide Next;
      OthersStay(s, step, s', i);
    }
    hide Content, Probed, Hits, Decided;
  }

  lemma NeverWaits(r: Reader)
    requires Content(r)
    ensures !Waits(r)
  {
  }

  lemma DecideContent(s: State, i: nat, lo: nat, hi: nat, s': State)
    requires i < |s.readers| && s.readers[i].phase.Deciding? && Decided(s, i, lo, hi, s') && Content(s.readers[i])
    ensures |s'.readers| == |s.readers| && Content(s'.readers[i])
  {
    hide Assemble;
  }

  // A reader that knows the object's size on arrival, and finds each block it looks up in the
  // cache, begins no fetch and waits for none, whatever the others do meanwhile.
  lemma {:induction false} CachedReadsFetchNothing(states: seq<State>, steps: seq<Step>, a: nat, n: nat)
    requires Run(states, steps) && a < n < |states| && steps[a].Arrive? && steps[a].reader.size.Some?
    requires forall m | a < m < n :: StepHits(states[m], steps[m], |states[a].readers|)
    ensures var i := |states[a].readers|;
      && i < |states[n].readers| && Content(states[n].readers[i])
      && states[n].readers[i].started == 0 && states[n].readers[i].retry.None? && !states[n].readers[i].joined
    decreases n
  {
    hide Next, StepHits, Init;
    var i := |states[a].readers|;
    assert Next(states[n - 1], steps[n - 1], states[n - 1 + 1]);
    if n == a + 1 {
      ArrivesContent(states[a], steps[a], states[n]);
    } else {
      CachedReadsFetchNothing(states, steps, a, n - 1);
      assert StepHits(states[n - 1], steps[n - 1], i);
      ContentStays(states[n - 1], steps[n - 1], states[n], i);
    }
  }

  lemma ArrivesContent(s: State, step: Step, s': State)
    requires Next(s, step, s') && step.Arrive? && step.reader.size.Some?
    ensures |s'.readers| == |s.readers| + 1 && Content(s'.readers[|s.readers|])
  {
  }

  // ---------- Published blocks ----------

  // A reader that decides to fetch and shares has every block it misses, and all of its widened
  // span, in flight afterwards; what was in flight stays so, and the rest is its own fetch.
  lemma DecidersPublish(states: seq<State>, steps: seq<Step>, n: nat, i: nat, lo: nat, hi: nat)
    requires Run(states, steps) && n < |steps| && steps[n] == Decide(i, lo, hi) && i < |states[n].readers|
    requires states[n].readers[i].share && states[n + 1].readers[i].phase.Owning?
    ensures var s, s', r := states[n], states[n + 1], states[n].readers[i];
            var f := |s.fetches|;
      && (forall k | 0 <= k < |r.slots| && r.Missing(k) :: r.KeyAt(k) in s'.inflight)
      && |s'.fetches| == f + 1 && s'.fetches[f].owner == i && s'.fetches[f].location == r.location
      && (forall b: nat | s'.fetches[f].lo <= b <= s'.fetches[f].hi :: (r.location, b) in s'.inflight)
      && (forall key: Key :: key in s.inflight ==> key in s'.inflight && s'.inflight[key] == s.inflight[key])
      && (forall key: Key :: key in s'.inflight && key !in s.inflight ==> s'.inflight[key] == f)
  {
    var s, r := states[n], states[n].readers[i];
    assert Next(states[n], steps[n], states[n + 1]);
    hide Run;
    WidenCovers(s.promote, r, lo, hi);
    hide Widen, Filled, Assemble, FoundWaits, AllInFlight;
    assert r.AllMissingWithin(lo, hi);
  }

  lemma WidenCovers(promote: nat, r: Reader, lo: nat, hi: nat)
    requires r.start < r.end
    ensures var span := Widen(promote, r.location, r.size, r.start, r.end, lo, hi); span.0 <= lo && span.1 == hi
  {
  }

  // A reader that decides while everything it misses is in flight waits for those fetches and
  // begins none.
  lemma InFlightIsJoined(states: seq<State>, steps: seq<Step>, n: nat, i: nat, lo: nat, hi: nat)
    requires Run(states, steps) && n < |steps| && steps[n] == Decide(i, lo, hi) && i < |states[n].readers|
    requires !states[n].readers[i].NoneMissing() && AllInFlight(states[n], states[n].readers[i])
    ensures var r, r' := states[n].readers[i], states[n + 1].readers[i];
      && r'.joined && r'.started == r.started && states[n + 1].fetches == states[n].fetches
      && r'.phase.Waiting?
      && forall k | 0 <= k < |r.slots| && r.Missing(k) :: states[n].inflight[r.KeyAt(k)] in r'.phase.fetches
  {
    assert Next(states[n], steps[n], states[n + 1]);
    hide Widen;
  }
}
