// Every reader of the block cache finishes: each step of a reader or of a fetch uses up some
// of a fixed amount of work (docker/lancedb-go-disk-cache.rs, `get_blocks` and `fetch_span`).
module FetchProgress {
  import opened Wrappers
  import opened BlockRanges
  import opened SingleFlight

  // ---------- The work that is left ----------

  // The last block of a reader's range.
  ghost function LastBlock(r: Reader): nat { if r.end == 0 then 0 else (r.end - 1) / BLOCK_BYTES }

  // The steps of a fetch: its answer, its body, and each of its blocks.
  ghost function FetchWork(fetch: Fetch): nat {
    match fetch.status
    case Requested => Max(fetch.hi + 1 - fetch.lo, 0) + 3
    case Reading(_) => Max(fetch.hi + 1 - fetch.lo, 0) + 2
    case Storing(_, next) => Max(fetch.hi + 1 - next, 0) + 1
    case Finished(_) => 0
  }

  // More than any fetch of the reader takes.
  ghost function FetchCost(r: Reader): nat { LastBlock(r) + 5 }

  // The steps of a reader, with room for its shared and its direct fetch.
  ghost function ReaderWork(r: Reader): nat {
    match r.phase
    case Probing(next) => 2 * FetchCost(r) + |r.slots| + Max(|r.slots| - next, 0) + 5
    case Deciding => 2 * FetchCost(r) + |r.slots| + 4
    case Owning(_) => FetchCost(r) + 3
    case Waiting(waits) => FetchCost(r) + |waits| + 2
    case Retrying(_) => 1
    case Done(_) => 0
  }

  ghost function Sum(xs: seq<nat>): nat { if xs == [] then 0 else Sum(xs[..|xs| - 1]) + xs[|xs| - 1] }

  ghost function FetchWorks(fetches: seq<Fetch>): seq<nat> {
    seq(|fetches|, f requires 0 <= f < |fetches| => FetchWork(fetches[f]))
  }

  ghost function ReaderWorks(readers: seq<Reader>): seq<nat> {
    seq(|readers|, i requires 0 <= i < |readers| => ReaderWork(readers[i]))
  }

  // The steps that readers and fetches may still take.
  ghost function Left(s: State): nat { Sum(FetchWorks(s.fetches)) + Sum(ReaderWorks(s.readers)) }

  lemma {:induction false} SumUpdate(xs: seq<nat>, i: nat, x: nat)
    requires i < |xs|
    ensures Sum(xs[i := x]) + xs[i] == Sum(xs) + x
  {
    var n := |xs| - 1;
    if i == n {
      assert xs[i := x][..n] == xs[..n];
    } else {
      assert xs[i := x][..n] == xs[..n][i := x];
      SumUpdate(xs[..n], i, x);
    }
  }

  lemma SumAppend(xs: seq<nat>, x: nat)
    ensures Sum(xs + [x]) == Sum(xs) + x
  {
    assert (xs + [x])[..|xs|] == xs;
  }

  lemma {:induction false} SumAtLeast(xs: seq<nat>, i: nat)
    requires i < |xs|
    ensures Sum(xs) >= xs[i]
  {
    if i < |xs| - 1 { SumAtLeast(xs[..|xs| - 1], i); }
  }

  lemma ReaderChanges(s: State, i: nat, r: Reader)
    requires i < |s.readers|
    ensures Left(WithReader(s, i, r)) + ReaderWork(s.readers[i]) == Left(s) + ReaderWork(r)
  {
    hide ReaderWork, FetchWork;
    assert ReaderWorks(s.readers[i := r]) == ReaderWorks(s.readers)[i := ReaderWork(r)];
    SumUpdate(ReaderWorks(s.readers), i, ReaderWork(r));
  }

  lemma FetchChanges(s: State, s': State, f: nat, fetch: Fetch)
    requires f < |s.fetches| && s'.fetches == s.fetches[f := fetch] && s'.readers == s.readers
    ensures Left(s') + FetchWork(s.fetches[f]) == Left(s) + FetchWork(fetch)
  {
    hide ReaderWork, FetchWork;
    assert FetchWorks(s.fetches[f := fetch]) == FetchWorks(s.fetches)[f := FetchWork(fetch)];
    SumUpdate(FetchWorks(s.fetches), f, FetchWork(fetch));
  }

  lemma FetchBegins(s: State, s': State, fetch: Fetch)
    requires s'.fetches == s.fetches + [fetch] && s'.readers == s.readers
    ensures Left(s') == Left(s) + FetchWork(fetch)
  {
    hide ReaderWork, FetchWork;
    assert FetchWorks(s.fetches + [fetch]) == FetchWorks(s.fetches) + [FetchWork(fetch)];
    SumAppend(FetchWorks(s.fetches), FetchWork(fetch));
  }

  lemma ReaderArrives(s: State, s': State, r: Reader)
    requires s'.readers == s.readers + [r] && s'.fetches == s.fetches
    ensures Left(s') == Left(s) + ReaderWork(r)
  {
    hide ReaderWork, FetchWork;
    assert ReaderWorks(s.readers + [r]) == ReaderWorks(s.readers) + [ReaderWork(r)];
    SumAppend(ReaderWorks(s.readers), ReaderWork(r));
  }

  // ---------- Each step uses up work ----------

  lemma AnswerLowers(s: State, f: nat, fault: bool, keepSize: bool)
    requires f < |s.fetches| && s.fetches[f].status.Requested?
    ensures Left(Answered(s, f, fault, keepSize)) < Left(s)
  {
    hide Left;
    FetchChanges(s, Answered(s, f, fault, keepSize), f, Answered(s, f, fault, keepSize).fetches[f]);
  }

  lemma ReadLowers(s: State, f: nat, lost: bool)
    requires f < |s.fetches| && s.fetches[f].status.Reading?
    ensures Left(Received(s, f, lost)) < Left(s)
  {
    hide Left;
    FetchChanges(s, Received(s, f, lost), f, Received(s, f, lost).fetches[f]);
  }

  lemma StoreLowers(s: State, f: nat, stored: bool)
    requires f < |s.fetches| && s.fetches[f].status.Storing?
    ensures Left(Stored(s, f, stored)) < Left(s)
  {
    hide Left;
    FetchChanges(s, Stored(s, f, stored), f, Stored(s, f, stored).fetches[f]);
  }

  // A reader that begins a fetch of blocks of its range has reserved more than it takes.
  lemma BeginningLowers(s: State, i: nat, r: Reader, fetch: Fetch, s': State)
    requires i < |s.readers| && r.end == s.readers[i].end && fetch.status.Requested? && fetch.hi <= LastBlock(r)
    requires ReaderWork(s.readers[i]) >= FetchCost(r) + ReaderWork(r)
    requires s'.readers == s.readers[i := r] && s'.fetches == s.fetches + [fetch]
    ensures Left(s') < Left(s)
  {
    var t := WithReader(s, i, r);
    ReaderChanges(s, i, r);
    FetchBegins(t, s', fetch);
    hide Left;
  }

  lemma MissingIsInRange(objects: Objects, r: Reader, lo: nat, hi: nat)
    requires KnowledgeOk(objects, r) && r.MissingSpan(lo, hi)
    ensures hi <= LastBlock(r)
  {
    hide SlotsOf;
  }

  lemma FinishingWork(r: Reader)
    ensures ReaderWork(Finishing(r)) == 0
  {
  }

  lemma FillingSlots(r: Reader, answer: Option<Span>)
    ensures |Filling(r, answer).slots| == |r.slots| && Filling(r, answer).end == r.end
  {
  }

  lemma JoinLowers(s: State, i: nat)
    requires i < |s.readers| && s.readers[i].phase.Deciding?
    ensures var waits := FoundWaits(s, s.readers[i], 0);
      Left(WithReader(s, i, s.readers[i].(phase := Waiting(waits), joined := true, awaited := waits))) < Left(s)
  {
    hide Left, FoundWaits;
    var waits := FoundWaits(s, s.readers[i], 0);
    ReaderChanges(s, i, s.readers[i].(phase := Waiting(waits), joined := true, awaited := waits));
  }

  lemma OwnLowers(s: State, i: nat, fetch: Fetch, s': State)
    requires i < |s.readers| && s.readers[i].phase.Deciding?
    requires fetch.status.Requested? && fetch.hi <= LastBlock(s.readers[i])
    requires s'.readers ==
      s.readers[i :=
                s.readers[i].(phase := Owning(|s.fetches|), started := s.readers[i].started + 1,
                              awaited := [|s.fetches|])]
    requires s'.fetches == s.fetches + [fetch]
    ensures Left(s') < Left(s)
  {
    hide Left;
    BeginningLowers(s, i, s'.readers[i], fetch, s');
  }

  lemma DecideLowers(s: State, i: nat, lo: nat, hi: nat, s': State)
    requires i < |s.readers| && s.readers[i].phase.Deciding? && KnowledgeOk(s.objects, s.readers[i])
    requires Decided(s, i, lo, hi, s')
    ensures Left(s') < Left(s)
  {
    hide Left, Finishing, FoundWaits, AllInFlight, Published, KnowledgeOk, Widen, LastBlock, ReaderWork;
    var r := s.readers[i];
    if r.NoneMissing() {
      FinishingLowers(s, i);
    } else if AllInFlight(s, r) {
      JoinLowers(s, i);
    } else {
      MissingIsInRange(s.objects, r, lo, hi);
      OwnLowers(s, i, s'.fetches[|s.fetches|], s');
    }
  }

  lemma FinishingLowers(s: State, i: nat)
    requires i < |s.readers| && !s.readers[i].phase.Done?
    ensures Left(WithReader(s, i, Finishing(s.readers[i]))) < Left(s)
  {
    hide Left, Finishing;
    FinishingWork(s.readers[i]);
    ReaderChanges(s, i, Finishing(s.readers[i]));
  }

  lemma CheckLowers(s: State, i: nat, lo: nat, hi: nat, s': State)
    requires Next(s, Check(i, lo, hi), s') && KnowledgeOk(s.objects, s.readers[i])
    ensures Left(s') < Left(s)
  {
    hide Left, Finishing, KnowledgeOk;
    var r := s.readers[i];
    if r.NoneMissing() {
      FinishingLowers(s, i);
    } else {
      MissingIsInRange(s.objects, r, lo, hi);
      BeginningLowers(s, i, s'.readers[i], s'.fetches[|s.fetches|], s');
    }
  }

  // A reader goes on, and no fetch begins.
  lemma ReaderGoesOn(s: State, i: nat, s': State)
    requires i < |s.readers| && |s'.readers| == |s.readers| && s'.fetches == s.fetches
    requires s'.readers == s.readers[i := s'.readers[i]] && ReaderWork(s'.readers[i]) < ReaderWork(s.readers[i])
    ensures Left(s') < Left(s)
  {
    hide Left, ReaderWork;
    ReaderChanges(s, i, s'.readers[i]);
    SameWork(s', WithReader(s, i, s'.readers[i]));
  }

  lemma AwaitLowers(s: State, step: Step, s': State)
    requires Next(s, step, s') && (step.OwnFinished? || step.WaitFinished? || step.RetryFinished?)
    ensures Left(s') < Left(s)
  {
    hide Left, Finishing, Filling;
    var r := s.readers[step.i];
    if step.WaitFinished? {
      FillingSlots(r, s.fetches[r.phase.fetches[0]].status.answer);
    } else {
      FillingSlots(r, s.fetches[r.phase.fetch].status.answer);
      FinishingWork(Filling(r, s.fetches[r.phase.fetch].status.answer));
    }
    ReaderGoesOn(s, step.i, s');
  }

  lemma SameWork(s: State, s': State)
    requires s'.fetches == s.fetches && s'.readers == s.readers
    ensures Left(s') == Left(s)
  {
  }

  lemma Knows(s: State, i: nat)
    requires Inv(s) && i < |s.readers|
    ensures KnowledgeOk(s.objects, s.readers[i])
  {
    assert ReaderOk(s.objects, s.fetches, i, s.readers[i]);
    hide PhaseOk;
  }

  lemma StepLowers(s: State, step: Step, s': State)
    requires Inv(s) && Next(s, step, s') && IsProgress(step)
    ensures Left(s') < Left(s)
  {
    hide Left, Decided, Finishing, Filling, ReaderOk, CacheOk, EntryOk, FetchOk, Answered, Received, Stored;
    match step {
      case Probe(i, hit) =>
        ProbeLowers(s, i, hit);
      case Decide(i, lo, hi) =>
        Knows(s, i);
        DecideLowers(s, i, lo, hi, s');
      case Answer(f, fault, keepSize) => AnswerLowers(s, f, fault, keepSize);
      case Read(f, lost) => ReadLowers(s, f, lost);
      case Store(f, stored) => StoreLowers(s, f, stored);
      case Check(i, lo, hi) =>
        Knows(s, i);
        CheckLowers(s, i, lo, hi, s');
      case OwnFinished(i) => AwaitLowers(s, step, s');
      case WaitFinished(i) => AwaitLowers(s, step, s');
      case RetryFinished(i) => AwaitLowers(s, step, s');
      case _ =>
    }
  }

  lemma ProbeLowers(s: State, i: nat, hit: bool)
    requires i < |s.readers| && s.readers[i].phase.Probing?
    ensures Left(WithReader(s, i, Probed(s, s.readers[i], hit))) < Left(s)
  {
    hide Left;
    ReaderChanges(s, i, Probed(s, s.readers[i], hit));
  }

  // ---------- Whole runs ----------

  ghost function Progresses(steps: seq<Step>, m: nat, n: nat): nat
    requires m <= n <= |steps|
  {
    if m == n then 0 else Progresses(steps, m, n - 1) + (if IsProgress(steps[n - 1]) then 1 else 0)
  }

  // Between two arrivals, readers and fetches take no more steps than there was work left.
  lemma {:induction false} ProgressIsBounded(states: seq<State>, steps: seq<Step>, m: nat, n: nat)
    requires Run(states, steps) && m <= n <= |steps| && forall k | m <= k < n :: !steps[k].Arrive?
    ensures Progresses(steps, m, n) + Left(states[n]) <= Left(states[m])
  {
    hide Next, Left;
    if m < n {
      ProgressIsBounded(states, steps, m, n - 1);
      var s, step, s' := states[n - 1], steps[n - 1], states[n];
      assert Next(s, step, states[n - 1 + 1]);
      if IsProgress(step) {
        RunKeepsInv(states, steps, n - 1);
        StepLowers(s, step, s');
      } else {
        IdleIsFree(s, step, s');
      }
    }
  }

  lemma IdleIsFree(s: State, step: Step, s': State)
    requires Next(s, step, s') && !IsProgress(step) && !step.Arrive?
    ensures Left(s') == Left(s)
  {
    hide Left;
    SameWork(s, s');
  }

  ghost predicate AllDone(s: State) { forall i | 0 <= i < |s.readers| :: s.readers[i].phase.Done? }

  lemma NoWorkLeft(s: State)
    requires Left(s) == 0
    ensures AllDone(s)
  {
    forall i | 0 <= i < |s.readers|
      ensures s.readers[i].phase.Done?
    {
      SumAtLeast(ReaderWorks(s.readers), i);
      assert ReaderWorks(s.readers)[i] == ReaderWork(s.readers[i]);
    }
  }

  // So once that many of their steps have been taken, every reader has finished.
  lemma AllFinish(states: seq<State>, steps: seq<Step>, m: nat, n: nat)
    requires Run(states, steps) && m <= n <= |steps| && forall k | m <= k < n :: !steps[k].Arrive?
    requires Progresses(steps, m, n) >= Left(states[m])
    ensures AllDone(states[n])
  {
    ProgressIsBounded(states, steps, m, n);
    NoWorkLeft(states[n]);
  }

  // And every run can be continued, by steps of readers and fetches alone, until they have.
  lemma {:induction false} CanFinish(states: seq<State>, steps: seq<Step>) returns (more: seq<State>, moves: seq<Step>)
    requires Run(states, steps)
    ensures Run(states + more, steps + moves) && AllDone((states + more)[|steps + moves|])
    ensures forall step | step in moves :: IsProgress(step)
    decreases Left(states[|steps|])
  {
    hide Next, Left, Init;
    var s := states[|steps|];
    more, moves := [], [];
    if i :| 0 <= i < |s.readers| && !s.readers[i].phase.Done? {
      NoDeadlock(states, steps, |steps|, i);
      RunKeepsInv(states, steps, |steps|);
      var step: Step, s': State :| IsProgress(step) && Next(s, step, s');
      StepLowers(s, step, s');
      OneMore(states, steps, step, s');
      more, moves := CanFinish(states + [s'], steps + [step]);
      assert states + ([s'] + more) == (states + [s']) + more;
      assert steps + ([step] + moves) == (steps + [step]) + moves;
      more, moves := [s'] + more, [step] + moves;
    } else {
      assert states + [] == states && steps + [] == steps;
    }
  }

  lemma OneMore(states: seq<State>, steps: seq<Step>, step: Step, s': State)
    requires Run(states, steps) && Next(states[|steps|], step, s')
    ensures Run(states + [s'], steps + [step])
  {
    hide Next, Init;
    var all, moves := states + [s'], steps + [step];
    forall n | 0 <= n < |moves|
      ensures Next(all[n], moves[n], all[n + 1])
    {
      if n < |steps| { assert Next(states[n], steps[n], states[n + 1]); }
    }
  }
}
