// Exactly when a range past the end of its object is not refused while fetches are shared:
// a condition on the requests that the reader decided to wait for
// (docker/lancedb-go-disk-cache.rs, `get_blocks`).
module PastEndReads {
  import opened Wrappers
  import opened BlockRanges
  import opened SingleFlight

  // ---------- What a reader's awaited fetches tell ----------

  ghost predicate StartsInside(fetch: Fetch, size: nat) { fetch.lo * BLOCK_BYTES < size }

  // The reader has still to look at the fetch's answer.
  predicate Pending(r: Reader, f: nat) {
    match r.phase
    case Owning(g) => f == g
    case Waiting(waits) => f in waits
    case _ => false
  }

  ghost predicate Awaits(fetches: seq<Fetch>, r: Reader, f: nat) { f in r.awaited && f < |fetches| }

  ghost predicate SomeAnswered(fetches: seq<Fetch>, r: Reader) {
    exists f: nat :: Awaits(fetches, r, f) && Answers(fetches[f], r.location)
  }

  ghost predicate RetryAnswered(fetches: seq<Fetch>, r: Reader) {
    r.retry.Some? && r.retry.value < |fetches| && Answers(fetches[r.retry.value], r.location)
  }

  // Awaited fetches are of the reader's object. Those looked at are finished, and an answer
  // told the size; a size that lies before the range was told by one of them.
  ghost predicate AwaitedOk(fetches: seq<Fetch>, r: Reader) {
    && (forall f: nat :: f in r.awaited ==> f < |fetches| && fetches[f].location == r.location)
    && (forall f: nat :: Pending(r, f) ==> f in r.awaited)
    && (forall f: nat :: Awaits(fetches, r, f) && !Pending(r, f) ==>
          fetches[f].status.Finished? && (fetches[f].status.answer.Some? ==> r.size.Some?))
    && (r.phase.Probing? || r.phase.Deciding? ==> r.awaited == [])
    && (r.size.Some? && r.start >= r.size.value ==>
          Refused(r) || SomeAnswered(fetches, r) || RetryAnswered(fetches, r))
  }

  // Until it fetches directly, what a reader misses is covered by the fetches it awaited. A
  // direct fetch starts no earlier than one of those, and inside the object if one answered.
  ghost predicate RetryOk(objects: Objects, fetches: seq<Fetch>, r: Reader) {
    && (r.phase.Owning? || r.phase.Waiting? ==>
          forall k :: 0 <= k < |r.slots| && r.Missing(k) ==> CoveredBy(fetches, r.awaited, r.First() + k))
    && (r.retry.Some? ==> r.retry.value < |fetches| && (r.phase.Retrying? || r.phase.Done?))
    && (r.retry.Some? && r.retry.value < |fetches| ==>
          && CoversStart(fetches, r.awaited, fetches[r.retry.value].lo)
          && (SomeAnswered(fetches, r) ==>
                r.location in objects && StartsInside(fetches[r.retry.value], |objects[r.location]|)))
  }

  ghost predicate CoversStart(fetches: seq<Fetch>, awaited: seq<nat>, lo: nat) {
    exists j :: 0 <= j < |awaited| && awaited[j] < |fetches| && fetches[awaited[j]].lo <= lo
  }

  // The first block that a reader asks for when it knows no size.
  function WidenedStart(promote: nat, r: Reader): nat
    requires r.start < r.end
  {
    Widen(promote, r.location, None, r.start, r.end, r.start / BLOCK_BYTES, (r.end - 1) / BLOCK_BYTES).0
  }

  // A reader that did not join awaited a fetch of its own.
  ghost predicate OwnOk(promote: nat, fetches: seq<Fetch>, i: nat, r: Reader) {
    r.awaited != [] && !r.joined ==>
      && |r.awaited| == 1 && r.awaited[0] < |fetches| && fetches[r.awaited[0]].owner == i
      && (r.start < r.end && (r.size.None? || r.start >= r.size.value) ==>
            fetches[r.awaited[0]].lo == WidenedStart(promote, r))
  }

  ghost predicate TrackOk(promote: nat, objects: Objects, fetches: seq<Fetch>, i: nat, r: Reader) {
    AwaitedOk(fetches, r) && RetryOk(objects, fetches, r) && OwnOk(promote, fetches, i, r)
  }

  ghost predicate Tracked(s: State) {
    forall i :: 0 <= i < |s.readers| ==> TrackOk(s.promote, s.objects, s.fetches, i, s.readers[i])
  }

  // ---------- Steps of others ----------

  lemma SameAnswers(fetches: seq<Fetch>, fetches': seq<Fetch>, r: Reader)
    requires Extends(fetches, fetches') && AwaitedOk(fetches, r)
    ensures SomeAnswered(fetches, r) ==> SomeAnswered(fetches', r)
    ensures RetryAnswered(fetches, r) ==> RetryAnswered(fetches', r)
    ensures (forall f: nat :: !Pending(r, f)) && SomeAnswered(fetches', r) ==> SomeAnswered(fetches, r)
  {
    if f: nat :| Awaits(fetches, r, f) && Answers(fetches[f], r.location) {
      assert SameRequest(fetches[f], fetches'[f]);
      assert Awaits(fetches', r, f) && Answers(fetches'[f], r.location);
    }
    if RetryAnswered(fetches, r) { assert SameRequest(fetches[r.retry.value], fetches'[r.retry.value]); }
    if (forall f: nat :: !Pending(r, f)) && SomeAnswered(fetches', r) {
      var f: nat :| Awaits(fetches', r, f) && Answers(fetches'[f], r.location);
      assert Awaits(fetches, r, f);
      assert SameRequest(fetches[f], fetches'[f]);
    }
  }

  lemma AwaitedStable(fetches: seq<Fetch>, fetches': seq<Fetch>, r: Reader)
    requires Extends(fetches, fetches') && AwaitedOk(fetches, r)
    ensures AwaitedOk(fetches', r)
  {
    SameAnswers(fetches, fetches', r);
    hide SomeAnswered, RetryAnswered, Refused, Pending;
    forall f: nat | f in r.awaited
      ensures f < |fetches'| && SameRequest(fetches[f], fetches'[f])
    {
    }
    assert forall f: nat :: Awaits(fetches', r, f) ==> Awaits(fetches, r, f);
  }

  lemma CoveredStable(fetches: seq<Fetch>, fetches': seq<Fetch>, awaited: seq<nat>, b: nat)
    requires Extends(fetches, fetches')
    ensures CoveredBy(fetches, awaited, b) ==> CoveredBy(fetches', awaited, b)
    ensures CoversStart(fetches, awaited, b) ==> CoversStart(fetches', awaited, b)
  {
    if j :| 0 <= j < |awaited| && awaited[j] < |fetches| && fetches[awaited[j]].lo <= b <= fetches[awaited[j]].hi {
      assert SameRequest(fetches[awaited[j]], fetches'[awaited[j]]);
    }
    if j :| 0 <= j < |awaited| && awaited[j] < |fetches| && fetches[awaited[j]].lo <= b {
      assert SameRequest(fetches[awaited[j]], fetches'[awaited[j]]);
    }
  }

  lemma RetryStable(objects: Objects, objects': Objects, fetches: seq<Fetch>, fetches': seq<Fetch>, r: Reader)
    requires Extends(fetches, fetches') && Grown(objects, objects') && AwaitedOk(fetches, r)
    requires RetryOk(objects, fetches, r)
    ensures RetryOk(objects', fetches', r)
  {
    SameAnswers(fetches, fetches', r);
    hide SomeAnswered, AwaitedOk, CoveredBy, CoversStart;
    if r.retry.Some? {
      assert SameRequest(fetches[r.retry.value], fetches'[r.retry.value]);
      CoveredStable(fetches, fetches', r.awaited, fetches[r.retry.value].lo);
    }
    forall k | 0 <= k < |r.slots| && r.Missing(k)
      ensures CoveredBy(fetches, r.awaited, r.First() + k) ==> CoveredBy(fetches', r.awaited, r.First() + k)
    {
      CoveredStable(fetches, fetches', r.awaited, r.First() + k);
    }
  }

  lemma TrackStable(promote: nat, objects: Objects, objects': Objects, fetches: seq<Fetch>, fetches': seq<Fetch>,
                    i: nat, r: Reader)
    requires Extends(fetches, fetches') && Grown(objects, objects') && TrackOk(promote, objects, fetches, i, r)
    ensures TrackOk(promote, objects', fetches', i, r)
  {
    AwaitedStable(fetches, fetches', r);
    RetryStable(objects, objects', fetches, fetches', r);
    hide AwaitedOk, RetryOk, WidenedStart;
    if r.awaited != [] && !r.joined { assert SameRequest(fetches[r.awaited[0]], fetches'[r.awaited[0]]); }
  }

  lemma OthersTracked(s: State, s': State, i: nat)
    requires Tracked(s) && Extends(s.fetches, s'.fetches) && Grown(s.objects, s'.objects) && s'.promote == s.promote
    requires |s'.readers| == |s.readers| && i < |s.readers|
    requires forall j :: 0 <= j < |s.readers| && j != i ==> s'.readers[j] == s.readers[j]
    requires TrackOk(s.promote, s'.objects, s'.fetches, i, s'.readers[i])
    ensures Tracked(s')
  {
    hide TrackOk;
    forall j | 0 <= j < |s.readers|
      ensures TrackOk(s'.promote, s'.objects, s'.fetches, j, s'.readers[j])
    {
      if j != i { TrackStable(s.promote, s.objects, s'.objects, s.fetches, s'.fetches, j, s.readers[j]); }
    }
  }

  // ---------- Steps of the reader itself ----------

  // The reader looks at a finished fetch and goes on waiting for the rest.
  lemma LooksAt(promote: nat, objects: Objects, fetches: seq<Fetch>, i: nat, r: Reader, f: nat, rest: seq<nat>)
    requires KnowledgeOk(objects, r) && TrackOk(promote, objects, fetches, i, r) && r.retry.None?
    requires f < |fetches| && FetchOk(objects, fetches[f]) && fetches[f].status.Finished? && Pending(r, f)
    requires forall g :: g in rest ==> Pending(r, g)
    requires forall g: nat :: Pending(r, g) ==> g == f || g in rest
    ensures TrackOk(promote, objects, fetches, i, Filling(r, fetches[f].status.answer).(phase := Waiting(rest)))
  {
    var answer := fetches[f].status.answer;
    FillingOk(objects, r, fetches[f]);
    FillingKeeps(r, answer);
    var filled := Filling(r, answer);
    hide Filling, KnowledgeOk, FetchOk, CoveredBy, WidenedStart;
    var r' := filled.(phase := Waiting(rest));
    assert forall k :: r'.Missing(k) <==> filled.Missing(k);
    assert forall g: nat :: Awaits(fetches, r', g) <==> Awaits(fetches, r, g);
    assert SomeAnswered(fetches, r) ==> SomeAnswered(fetches, r');
    if answer.Some? { assert Awaits(fetches, r', f) && Answers(fetches[f], r'.location); }
  }

  lemma DoneTrack(promote: nat, objects: Objects, fetches: seq<Fetch>, i: nat, r: Reader, r': Reader)
    requires TrackOk(promote, objects, fetches, i, r) && forall f: nat :: !Pending(r, f)
    requires r'.phase.Done? && (r' == r.(phase := r'.phase) || r' == r.(phase := r'.phase, failed := true))
    ensures TrackOk(promote, objects, fetches, i, r')
  {
    assert forall g: nat :: Awaits(fetches, r', g) <==> Awaits(fetches, r, g);
    assert SomeAnswered(fetches, r) <==> SomeAnswered(fetches, r');
    assert r'.start < r'.end ==> WidenedStart(promote, r') == WidenedStart(promote, r);
    hide WidenedStart, CoveredBy, CoversStart;
    assert AwaitedOk(fetches, r');
    assert RetryOk(objects, fetches, r');
  }

  lemma FinishingIsDone(r: Reader)
    ensures Finishing(r).phase.Done? && Finishing(r) == r.(phase := Finishing(r).phase)
  {
  }

  lemma CoverStarts(fetches: seq<Fetch>, awaited: seq<nat>, b: nat)
    requires CoveredBy(fetches, awaited, b)
    ensures CoversStart(fetches, awaited, b)
  {
  }

  // A fetch that answered told the size, so that what is still missing is inside the object.
  lemma RetryIsInside(objects: Objects, fetches: seq<Fetch>, r: Reader, lo: nat, hi: nat)
    requires KnowledgeOk(objects, r) && AwaitedOk(fetches, r) && r.phase == Waiting([]) && r.MissingSpan(lo, hi)
    ensures SomeAnswered(fetches, r) ==> r.location in objects && lo * BLOCK_BYTES < |objects[r.location]|
  {
    hide SlotsOf;
    if f: nat :| Awaits(fetches, r, f) && Answers(fetches[f], r.location) {
      assert !Pending(r, f);
      assert r.Missing(lo - r.First());
    }
  }

  lemma AwaitedAfter(fetches: seq<Fetch>, r: Reader, f: nat)
    requires AwaitedOk(fetches, r) && r.phase == Waiting([]) && (r.joined || r.started > 0) && r.retry.None?
    ensures AwaitedOk(fetches, r.(phase := Retrying(f), started := r.started + 1, retry := Some(f)))
    ensures SomeAnswered(fetches, r.(phase := Retrying(f), started := r.started + 1, retry := Some(f))) <==>
      SomeAnswered(fetches, r)
  {
    var r' := r.(phase := Retrying(f), started := r.started + 1, retry := Some(f));
    assert forall g: nat :: Awaits(fetches, r', g) <==> Awaits(fetches, r, g);
    assert SomeAnswered(fetches, r') <==> SomeAnswered(fetches, r);
    hide SomeAnswered;
  }

  lemma OwnAfter(promote: nat, fetches: seq<Fetch>, i: nat, r: Reader, f: nat)
    requires OwnOk(promote, fetches, i, r)
    ensures OwnOk(promote, fetches, i, r.(phase := Retrying(f), started := r.started + 1, retry := Some(f)))
  {
  }

  // What is still missing is fetched directly.
  lemma RetryTrack(promote: nat, objects: Objects, fetches: seq<Fetch>, i: nat, r: Reader, lo: nat, hi: nat)
    requires KnowledgeOk(objects, r) && TrackOk(promote, objects, fetches, i, r) && r.phase == Waiting([])
    requires (r.joined || r.started > 0) && r.retry.None? && r.MissingSpan(lo, hi)
    ensures TrackOk(promote, objects, fetches + [Fetch(r.location, lo, hi, i, Requested)], i,
                    r.(phase := Retrying(|fetches|), started := r.started + 1, retry := Some(|fetches|)))
  {
    var fetches' := fetches + [Fetch(r.location, lo, hi, i, Requested)];
    SameExtends(fetches, fetches');
    TrackStable(promote, objects, objects, fetches, fetches', i, r);
    assert r.Missing(lo - r.First()) && CoveredBy(fetches', r.awaited, r.First() + (lo - r.First()));
    hide KnowledgeOk, OwnOk, CoveredBy, CoversStart, Reader.MissingSpan, Extends, AwaitedOk, SomeAnswered;
    RetryIsInside(objects, fetches', r, lo, hi);
    CoverStarts(fetches', r.awaited, lo);
    AwaitedAfter(fetches', r, |fetches|);
    OwnAfter(promote, fetches', i, r, |fetches|);
  }

  // The direct fetch has answered.
  lemma RetriedTrack(promote: nat, objects: Objects, fetches: seq<Fetch>, i: nat, r: Reader)
    requires KnowledgeOk(objects, r) && TrackOk(promote, objects, fetches, i, r)
    requires r.phase.Retrying? && r.retry == Some(r.phase.fetch) && r.phase.fetch < |fetches|
    requires var fetch := fetches[r.phase.fetch];
      FetchOk(objects, fetch) && fetch.location == r.location && fetch.status.Finished? && fetch.status.answer.Some?
    ensures TrackOk(promote, objects, fetches, i, Finishing(Filling(r, fetches[r.phase.fetch].status.answer)))
  {
    var fetch := fetches[r.phase.fetch];
    FillingOk(objects, r, fetch);
    FillingKeeps(r, fetch.status.answer);
    var filled := Filling(r, fetch.status.answer);
    FinishingIsDone(filled);
    hide Filling, Finishing, KnowledgeOk, FetchOk, CoveredBy, CoversStart, WidenedStart;
    assert forall g: nat :: Awaits(fetches, filled, g) <==> Awaits(fetches, r, g);
    assert SomeAnswered(fetches, r) <==> SomeAnswered(fetches, filled);
    assert RetryAnswered(fetches, filled);
    DoneTrack(promote, objects, fetches, i, filled, Finishing(filled));
  }

  // A reader decides to wait for fetches of others.
  lemma JoinTrack(s: State, i: nat)
    requires forall key: Key :: key in s.inflight ==> EntryOk(s, key)
    requires i < |s.readers| && s.readers[i].phase.Deciding? && AllInFlight(s, s.readers[i])
    requires s.readers[i].retry.None? && (s.readers[i].size.Some? ==> s.readers[i].start < s.readers[i].size.value)
    ensures var waits := FoundWaits(s, s.readers[i], 0);
      TrackOk(s.promote, s.objects, s.fetches, i,
              s.readers[i].(phase := Waiting(waits), joined := true, awaited := waits))
  {
    hide FoundWaits, AllInFlight, WidenedStart, CoveredBy, CoversStart, EntryOk;
    var r, waits := s.readers[i], FoundWaits(s, s.readers[i], 0);
    var r' := r.(phase := Waiting(waits), joined := true, awaited := waits);
    forall f: nat | f in waits
      ensures f < |s.fetches| && s.fetches[f].location == r.location
    {
      var j :| 0 <= j < |waits| && waits[j] == f;
      WaitsAreOurs(s, r, j);
    }
    forall k | 0 <= k < |r'.slots| && r'.Missing(k)
      ensures CoveredBy(s.fetches, waits, r'.First() + k)
    {
      assert r.Missing(k);
      WaitsCover(s, r, k);
    }
  }

  // A reader decides to begin a fetch.
  lemma OwnTrack(s: State, i: nat, lo: nat, hi: nat, span: (nat, nat))
    requires i < |s.readers| && s.readers[i].phase.Deciding? && ReaderOk(s.objects, s.fetches, i, s.readers[i])
    requires TrackOk(s.promote, s.objects, s.fetches, i, s.readers[i]) && s.readers[i].MissingSpan(lo, hi)
    requires var r := s.readers[i]; span == Widen(s.promote, r.location, r.size, r.start, r.end, lo, hi)
    ensures var r := s.readers[i];
      TrackOk(s.promote, s.objects, s.fetches + [Fetch(r.location, span.0, span.1, i, Requested)], i,
              r.(phase := Owning(|s.fetches|), started := r.started + 1, awaited := [|s.fetches|]))
  {
    var r, n := s.readers[i], |s.fetches|;
    var fetches' := s.fetches + [Fetch(r.location, span.0, span.1, i, Requested)];
    var r' := r.(phase := Owning(n), started := r.started + 1, awaited := [n]);
    forall k | 0 <= k < |r'.slots| && r'.Missing(k)
      ensures CoveredBy(fetches', [n], r'.First() + k)
    {
      assert r.Missing(k);
      assert [n][0] == n;
    }
    if r.size.None? {
      assert r.Missing(0) && r.Missing(|r.slots| - 1);
      assert lo == r.First() && hi == (r.end - 1) / BLOCK_BYTES;
    }
    hide Widen, KnowledgeOk, OutcomeOk, CoveredBy, CoversStart;
  }

  lemma ProbedTrack(s: State, i: nat, hit: bool)
    requires Inv(s) && i < |s.readers| && s.readers[i].phase.Probing?
    requires TrackOk(s.promote, s.objects, s.fetches, i, s.readers[i])
    ensures TrackOk(s.promote, s.objects, s.fetches, i, Probed(s, s.readers[i], hit))
  {
    assert ReaderOk(s.objects, s.fetches, i, s.readers[i]);
    hide KnowledgeOk, OutcomeOk, WidenedStart, CoveredBy, CoversStart;
  }

  // Readers stay as they are.
  lemma SameReaders(s: State, s': State)
    requires Tracked(s) && Extends(s.fetches, s'.fetches) && Grown(s.objects, s'.objects) && s'.promote == s.promote
    requires s'.readers == s.readers
    ensures Tracked(s')
  {
    hide TrackOk;
    forall j | 0 <= j < |s.readers|
      ensures TrackOk(s'.promote, s'.objects, s'.fetches, j, s'.readers[j])
    {
      TrackStable(s.promote, s.objects, s'.objects, s.fetches, s'.fetches, j, s.readers[j]);
    }
  }

  lemma ArrivalTrack(s: State, r: Reader, i: nat)
    requires Arrival(s, r)
    ensures TrackOk(s.promote, s.objects, s.fetches, i, r)
  {
  }

  lemma OneFetchMoves(fetches: seq<Fetch>, f: nat, fetch: Fetch)
    requires f < |fetches| && SameRequest(fetches[f], fetch)
    ensures Extends(fetches, fetches[f := fetch])
  {
  }

  lemma SurroundingsTrack(s: State, step: Step, s': State)
    requires Tracked(s) && Next(s, step, s')
    requires step.Create? || step.LoseBlock? || step.LoseSize? || step.Arrive?
    ensures Tracked(s')
  {
    hide TrackOk, Arrival;
    if step.Arrive? {
      ArrivalTrack(s, step.reader, |s.readers|);
    } else {
      SameReaders(s, s');
    }
  }

  lemma FetchTracks(s: State, step: Step, s': State)
    requires Tracked(s) && Next(s, step, s') && (step.Answer? || step.Read? || step.Store?)
    ensures Tracked(s')
  {
    hide Tracked;
    OneFetchMoves(s.fetches, step.f, s'.fetches[step.f]);
    SameReaders(s, s');
  }

  lemma AwaitTracks(s: State, step: Step, s': State)
    requires Inv(s) && Tracked(s) && Next(s, step, s') && (step.OwnFinished? || step.WaitFinished?)
    ensures Tracked(s')
  {
    var r := s.readers[step.i];
    assert ReaderOk(s.objects, s.fetches, step.i, r) && TrackOk(s.promote, s.objects, s.fetches, step.i, r);
    hide Tracked, KnowledgeOk, OutcomeOk, TrackOk, FetchOk, CacheOk, Filling;
    if step.OwnFinished? {
      LooksAt(s.promote, s.objects, s.fetches, step.i, r, r.phase.fetch, []);
    } else {
      LooksAt(s.promote, s.objects, s.fetches, step.i, r, r.phase.fetches[0], r.phase.fetches[1..]);
    }
    OthersTracked(s, s', step.i);
  }

  lemma SameExtends(fetches: seq<Fetch>, fetches': seq<Fetch>)
    ensures fetches' == fetches || (|fetches'| == |fetches| + 1 && fetches' == fetches + [fetches'[|fetches|]]) ==>
      Extends(fetches, fetches')
  {
  }

  lemma FinishTracks(s: State, i: nat)
    requires Tracked(s) && i < |s.readers| && forall f: nat :: !Pending(s.readers[i], f)
    ensures Tracked(WithReader(s, i, Finishing(s.readers[i])))
  {
    var r := s.readers[i];
    assert TrackOk(s.promote, s.objects, s.fetches, i, r);
    hide Tracked, TrackOk, Finishing, Extends;
    FinishingIsDone(r);
    DoneTrack(s.promote, s.objects, s.fetches, i, r, Finishing(r));
    SameExtends(s.fetches, s.fetches);
    OthersTracked(s, WithReader(s, i, Finishing(r)), i);
  }

  lemma WaitedFor(s: State, i: nat)
    requires Inv(s) && Tracked(s) && i < |s.readers| && s.readers[i].phase.Waiting?
    ensures var r := s.readers[i];
      && KnowledgeOk(s.objects, r) && TrackOk(s.promote, s.objects, s.fetches, i, r)
      && (r.joined || r.started > 0) && r.retry.None?
  {
    assert ReaderOk(s.objects, s.fetches, i, s.readers[i]);
    hide KnowledgeOk, TrackOk, OutcomeOk, CoveredBy;
  }

  lemma CheckTracks(s: State, i: nat, lo: nat, hi: nat, s': State)
    requires Inv(s) && Tracked(s) && Next(s, Check(i, lo, hi), s')
    ensures Tracked(s')
  {
    hide Inv, Tracked, KnowledgeOk, TrackOk, Finishing, Extends;
    var r := s.readers[i];
    WaitedFor(s, i);
    SameExtends(s.fetches, s'.fetches);
    if r.NoneMissing() {
      FinishTracks(s, i);
    } else {
      RetryTrack(s.promote, s.objects, s.fetches, i, r, lo, hi);
      OthersTracked(s, s', i);
    }
  }

  lemma RetryTracks(s: State, i: nat, s': State)
    requires Inv(s) && Tracked(s) && Next(s, RetryFinished(i), s')
    ensures Tracked(s')
  {
    var r := s.readers[i];
    assert ReaderOk(s.objects, s.fetches, i, r) && TrackOk(s.promote, s.objects, s.fetches, i, r);
    assert FetchOk(s.objects, s.fetches[r.phase.fetch]);
    hide Tracked, KnowledgeOk, OutcomeOk, TrackOk, FetchOk, CacheOk, Finishing, Filling;
    if s.fetches[r.phase.fetch].status.answer.None? {
      DoneTrack(s.promote, s.objects, s.fetches, i, r, s'.readers[i]);
    } else {
      RetriedTrack(s.promote, s.objects, s.fetches, i, r);
    }
    OthersTracked(s, s', i);
  }

  lemma Decides(s: State, i: nat)
    requires Inv(s) && i < |s.readers| && s.readers[i].phase.Deciding?
    ensures forall key: Key :: key in s.inflight ==> EntryOk(s, key)
    ensures s.readers[i].retry.None? && (s.readers[i].size.Some? ==> s.readers[i].start < s.readers[i].size.value)
  {
    assert ReaderOk(s.objects, s.fetches, i, s.readers[i]);
    hide KnowledgeOk, OutcomeOk, CoveredBy, EntryOk;
  }

  lemma JoinTracks(s: State, i: nat, s': State)
    requires Inv(s) && Tracked(s) && i < |s.readers| && s.readers[i].phase.Deciding? && AllInFlight(s, s.readers[i])
    requires var waits := FoundWaits(s, s.readers[i], 0);
      s' == WithReader(s, i, s.readers[i].(phase := Waiting(waits), joined := true, awaited := waits))
    ensures Tracked(s')
  {
    hide Inv, Tracked, TrackOk, FoundWaits, AllInFlight, Extends;
    Decides(s, i);
    JoinTrack(s, i);
    SameExtends(s.fetches, s'.fetches);
    OthersTracked(s, s', i);
  }

  lemma OwnTracks(s: State, i: nat, lo: nat, hi: nat, s': State)
    requires Inv(s) && Tracked(s) && i < |s.readers| && s.readers[i].phase.Deciding? && s.readers[i].MissingSpan(lo, hi)
    requires s.readers[i].start < s.readers[i].end && s'.objects == s.objects && s'.promote == s.promote
    requires s'.readers ==
      s.readers[i :=
                s.readers[i].(phase := Owning(|s.fetches|), started := s.readers[i].started + 1,
                              awaited := [|s.fetches|])]
    requires var r := s.readers[i];
             var span := Widen(s.promote, r.location, r.size, r.start, r.end, lo, hi);
      s'.fetches == s.fetches + [Fetch(r.location, span.0, span.1, i, Requested)]
    ensures Tracked(s')
  {
    var r := s.readers[i];
    assert ReaderOk(s.objects, s.fetches, i, r) && TrackOk(s.promote, s.objects, s.fetches, i, r);
    hide Inv, Tracked, ReaderOk, TrackOk, Widen, Extends;
    OwnTrack(s, i, lo, hi, Widen(s.promote, r.location, r.size, r.start, r.end, lo, hi));
    SameExtends(s.fetches, s'.fetches);
    OthersTracked(s, s', i);
  }

  lemma DecideTracks(s: State, i: nat, lo: nat, hi: nat, s': State)
    requires Inv(s) && Tracked(s) && i < |s.readers| && s.readers[i].phase.Deciding? && Decided(s, i, lo, hi, s')
    ensures Tracked(s')
  {
    hide Inv, Tracked, Finishing, FoundWaits, AllInFlight, Published, Widen, Reader.MissingSpan, Reader.NoneMissing;
    if s.readers[i].NoneMissing() {
      FinishTracks(s, i);
    } else if AllInFlight(s, s.readers[i]) {
      JoinTracks(s, i, s');
    } else {
      OwnTracks(s, i, lo, hi, s');
    }
  }

  lemma StepTracks(s: State, step: Step, s': State)
    requires Inv(s) && Tracked(s) && Next(s, step, s')
    ensures Tracked(s')
  {
    hide Tracked, Decided, Finishing, Filling, Answered, Received, Stored, Arrival, ReaderOk, TrackOk, Unpublished, Inv;
    match step {
      case Probe(i, hit) =>
        ProbeTracks(s, i, hit);
      case Decide(i, lo, hi) => DecideTracks(s, i, lo, hi, s');
      case Check(i, lo, hi) => CheckTracks(s, i, lo, hi, s');
      case RetryFinished(i) => RetryTracks(s, i, s');
      case OwnFinished(_) => AwaitTracks(s, step, s');
      case WaitFinished(_) => AwaitTracks(s, step, s');
      case Answer(_, _, _) => FetchTracks(s, step, s');
      case Read(_, _) => FetchTracks(s, step, s');
      case Store(_, _) => FetchTracks(s, step, s');
      case _ => SurroundingsTrack(s, step, s');
    }
  }

  lemma ProbeTracks(s: State, i: nat, hit: bool)
    requires Inv(s) && Tracked(s) && i < |s.readers| && s.readers[i].phase.Probing?
    ensures Tracked(WithReader(s, i, Probed(s, s.readers[i], hit)))
  {
    hide Inv, TrackOk, Probed;
    ProbedTrack(s, i, hit);
    OthersTracked(s, WithReader(s, i, Probed(s, s.readers[i], hit)), i);
  }

  // ---------- Runs in which an object's fetches fare well ----------

  // The step does not disturb a fetch of the object: its request finds the object, and its
  // body arrives.
  ghost predicate Calm(s: State, step: Step, location: Location) {
    && (step.Answer? && step.f < |s.fetches| && s.fetches[step.f].location == location ==>
          !step.fault && location in s.objects)
    && (step.Read? && step.f < |s.fetches| && s.fetches[step.f].location == location ==> !step.lost)
  }

  ghost predicate Undisturbed(states: seq<State>, steps: seq<Step>, n: nat, location: Location)
    requires n <= |steps| < |states|
  {
    forall m | 0 <= m < n :: Calm(states[m], steps[m], location)
  }

  // The object's fetches fail only past its end.
  ghost predicate Settled(s: State, location: Location) {
    forall f | 0 <= f < |s.fetches| && s.fetches[f].location == location && s.fetches[f].status == Finished(None) ::
      location in s.objects && !StartsInside(s.fetches[f], |s.objects[location]|)
  }

  ghost predicate SettledAt(objects: Objects, fetch: Fetch, location: Location) {
    fetch.location == location && fetch.status == Finished(None) ==>
      location in objects && !StartsInside(fetch, |objects[location]|)
  }

  lemma AnswerSettles(s: State, f: nat, fault: bool, keepSize: bool, location: Location)
    requires f < |s.fetches| && s.fetches[f].status.Requested? && s.fetches[f].lo <= s.fetches[f].hi
    requires Calm(s, Answer(f, fault, keepSize), location)
    ensures SettledAt(s.objects, Answered(s, f, fault, keepSize).fetches[f], location)
  {
  }

  lemma BodySettles(s: State, step: Step, s': State, location: Location)
    requires Next(s, step, s') && Calm(s, step, location) && (step.Read? || step.Store?)
    ensures SettledAt(s.objects, s'.fetches[step.f], location)
  {
    hide StartsInside;
  }

  // Other steps leave the fetches alone or request one.
  lemma OtherFetches(s: State, step: Step, s': State, f: nat)
    requires Next(s, step, s') && f < |s'.fetches|
    requires !step.Answer? && !step.Read? && !step.Store?
    ensures s'.fetches[f].status.Requested? || (f < |s.fetches| && s'.fetches[f] == s.fetches[f])
  {
    hide Probed, Finishing, Filling, Unpublished, Published, FoundWaits, Widen, Arrival;
  }

  lemma StepSettles(s: State, step: Step, s': State, location: Location, f: nat)
    requires Next(s, step, s') && Calm(s, step, location) && f < |s'.fetches|
    requires step.Answer? ==> s.fetches[step.f].lo <= s.fetches[step.f].hi
    requires f < |s.fetches| ==> SettledAt(s.objects, s.fetches[f], location)
    ensures SettledAt(s'.objects, s'.fetches[f], location)
  {
    ObjectsGrow(s, step, s');
    hide StartsInside, Decided, Finishing, Filling, Probed, Unpublished, Arrival;
    if step.Answer? {
      AnswerSettles(s, step.f, step.fault, step.keepSize, location);
    } else if step.Read? || step.Store? {
      BodySettles(s, step, s', location);
    } else {
      OtherFetches(s, step, s', f);
      hide Next;
    }
  }

  lemma CalmSettles(s: State, step: Step, s': State, location: Location)
    requires Inv(s) && Next(s, step, s') && Calm(s, step, location) && Settled(s, location)
    ensures Settled(s', location)
  {
    if step.Answer? { assert FetchOk(s.objects, s.fetches[step.f]); }
    hide Next, Inv, Calm;
    forall f | 0 <= f < |s'.fetches|
      ensures SettledAt(s'.objects, s'.fetches[f], location)
    {
      if f < |s.fetches| { assert SettledAt(s.objects, s.fetches[f], location); }
      StepSettles(s, step, s', location, f);
    }
  }

  lemma {:induction false} RunTracks(states: seq<State>, steps: seq<Step>, n: nat, location: Location)
    requires Run(states, steps) && n < |states|
    ensures Tracked(states[n])
    ensures Undisturbed(states, steps, n, location) ==> Settled(states[n], location)
    decreases n
  {
    hide Next, Tracked, Settled, Calm;
    if n == 0 {
      NothingTracked(states[0], location);
    } else {
      RunTracks(states, steps, n - 1, location);
      RunKeepsInv(states, steps, n - 1);
      assert Next(states[n - 1], steps[n - 1], states[n - 1 + 1]);
      StepTracks(states[n - 1], steps[n - 1], states[n]);
      if Undisturbed(states, steps, n, location) { CalmSettles(states[n - 1], steps[n - 1], states[n], location); }
    }
  }

  lemma NothingTracked(s: State, location: Location)
    requires Init(s)
    ensures Tracked(s) && Settled(s, location)
  {
  }

  // One of the fetches that the reader decided to wait for starts inside the object.
  ghost predicate AwaitsInside(fetches: seq<Fetch>, r: Reader, size: nat) {
    exists f: nat :: Awaits(fetches, r, f) && StartsInside(fetches[f], size)
  }

  // A finished read past the end of its object was refused, on arrival or by its direct
  // fetch, exactly when it knew the size on arrival or none of the fetches it decided to wait
  // for starts inside the object. A fetch of its own starts where the widened range does.
  lemma PastEndIff(states: seq<State>, steps: seq<Step>, n: nat, i: nat)
    requires Run(states, steps) && n < |states| && i < |states[n].readers|
    requires states[n].readers[i].phase.Done? && states[n].readers[i].location in states[n].objects
    requires states[n].readers[i].start >= |states[n].objects[states[n].readers[i].location]|
    requires Undisturbed(states, steps, n, states[n].readers[i].location)
    ensures var s, r := states[n], states[n].readers[i];
            var size := |s.objects[r.location]|;
      && r.start < r.end
      && (if Refused(r) || !AwaitsInside(s.fetches, r, size) then r.phase.outcome == Errored
          else r.phase.outcome == if r.start == size then Served(size, []) else Panicked)
      && (!Refused(r) && !r.joined ==>
            (AwaitsInside(s.fetches, r, size) <==> WidenedStart(s.promote, r) * BLOCK_BYTES < size))
  {
    var s, r := states[n], states[n].readers[i];
    RunKeepsInv(states, steps, n);
    RunTracks(states, steps, n, r.location);
    assert ReaderOk(s.objects, s.fetches, i, r) && TrackOk(s.promote, s.objects, s.fetches, i, r);
    assert forall f | 0 <= f < |s.fetches| :: FetchOk(s.objects, s.fetches[f]);
    FinishedPastEnd(states, steps, n, i);
    hide Inv, Tracked, Undisturbed;
    AnswersAreInside(s, r);
    if !Refused(r) {
      if OwnFetchFailed(s.fetches, i, r) {
        InsideAnswers(s, i, r);
        NoneAnswered(s, i, r);
      } else {
        KnownFromInside(s, i, r);
      }
      if !r.joined { OwnIsWidened(s, i, r); }
    }
  }

  lemma AnswersAreInside(s: State, r: Reader)
    requires r.location in s.objects && forall f | 0 <= f < |s.fetches| :: FetchOk(s.objects, s.fetches[f])
    ensures SomeAnswered(s.fetches, r) ==> AwaitsInside(s.fetches, r, |s.objects[r.location]|)
    ensures RetryAnswered(s.fetches, r) ==> StartsInside(s.fetches[r.retry.value], |s.objects[r.location]|)
  {
    if f: nat :| Awaits(s.fetches, r, f) && Answers(s.fetches[f], r.location) {
      assert FetchOk(s.objects, s.fetches[f]);
      assert StartsInside(s.fetches[f], |s.objects[r.location]|);
    }
    if RetryAnswered(s.fetches, r) { assert FetchOk(s.objects, s.fetches[r.retry.value]); }
  }

  // An awaited fetch that starts inside has answered.
  lemma InsideAnswers(s: State, i: nat, r: Reader)
    requires r.location in s.objects && Settled(s, r.location) && r.phase.Done?
    requires TrackOk(s.promote, s.objects, s.fetches, i, r)
    ensures AwaitsInside(s.fetches, r, |s.objects[r.location]|) ==> SomeAnswered(s.fetches, r)
  {
    hide OwnOk, RetryOk;
    if f: nat :| Awaits(s.fetches, r, f) && StartsInside(s.fetches[f], |s.objects[r.location]|) {
      assert !Pending(r, f) && s.fetches[f].status.Finished?;
      assert s.fetches[f].status != Finished(None);
      assert Answers(s.fetches[f], r.location);
    }
  }

  // None has when the direct fetch failed.
  lemma NoneAnswered(s: State, i: nat, r: Reader)
    requires r.location in s.objects && Settled(s, r.location)
    requires TrackOk(s.promote, s.objects, s.fetches, i, r) && OwnFetchFailed(s.fetches, i, r)
    ensures !SomeAnswered(s.fetches, r)
  {
    hide OwnOk, AwaitedOk, SomeAnswered;
  }

  // It learnt the size: then one did.
  lemma KnownFromInside(s: State, i: nat, r: Reader)
    requires r.location in s.objects && KnowledgeOk(s.objects, r) && r.start >= |s.objects[r.location]| && r.size.Some?
    requires TrackOk(s.promote, s.objects, s.fetches, i, r) && !Refused(r)
    requires SomeAnswered(s.fetches, r) ==> AwaitsInside(s.fetches, r, |s.objects[r.location]|)
    requires RetryAnswered(s.fetches, r) ==> StartsInside(s.fetches[r.retry.value], |s.objects[r.location]|)
    ensures AwaitsInside(s.fetches, r, |s.objects[r.location]|)
  {
    hide SomeAnswered, OwnOk, SlotsOf;
    if !SomeAnswered(s.fetches, r) {
      assert CoversStart(s.fetches, r.awaited, s.fetches[r.retry.value].lo);
      var j :| 0 <= j < |r.awaited| && r.awaited[j] < |s.fetches|
        && s.fetches[r.awaited[j]].lo <= s.fetches[r.retry.value].lo;
      assert Awaits(s.fetches, r, r.awaited[j]);
      assert StartsInside(s.fetches[r.awaited[j]], |s.objects[r.location]|);
    }
  }

  lemma OwnIsWidened(s: State, i: nat, r: Reader)
    requires r.location in s.objects && KnowledgeOk(s.objects, r) && r.start >= |s.objects[r.location]| && r.phase.Done?
    requires TrackOk(s.promote, s.objects, s.fetches, i, r) && !r.joined && !Refused(r)
    requires PhaseOk(s.objects, s.fetches, i, r)
    ensures AwaitsInside(s.fetches, r, |s.objects[r.location]|) <==>
      WidenedStart(s.promote, r) * BLOCK_BYTES < |s.objects[r.location]|
  {
    hide SlotsOf, WidenedStart;
    assert r.awaited != [];
    var f := r.awaited[0];
    assert Awaits(s.fetches, r, f);
    assert forall g: nat :: Awaits(s.fetches, r, g) ==> g == f;
  }
}
