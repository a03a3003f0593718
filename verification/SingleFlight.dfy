// Many readers of one block cache: fetches are shared through the in-flight map, and each
// reader's awaits interleave with all the others' (docker/lancedb-go-disk-cache.rs,
// `get_blocks` and `fetch_span`). Objects are written once; the cache may lose any entry.
module SingleFlight {
  import opened Wrappers
  import opened BlockRanges

  type Objects = map<Location, seq<byte>>

  // A request for blocks lo..=hi made by one reader. Requested waits for the backing store,
  // Reading for the body of its answer, and Storing copies it into the cache block by block.
  datatype Status = Requested | Reading(span: Span) | Storing(span: Span, next: nat) | Finished(answer: Option<Span>)

  datatype Fetch = Fetch(location: Location, lo: nat, hi: nat, owner: nat, status: Status)

  datatype Outcome = Served(size: nat, bytes: seq<byte>) | Errored | Panicked

  // Where a reader is between two awaits.
  datatype Phase =
    | Probing(next: nat)
    | Deciding
    | Owning(fetch: nat)
    | Waiting(fetches: seq<nat>)
    | Retrying(fetch: nat)
    | Done(outcome: Outcome)

  // `share` is off for warm-up reads. `joined`: every missing block was in flight;
  // `failed`: an awaited fetch failed; `started`: the fetches this reader began; `awaited`: the
  // shared fetches it decided to wait for, its own or the joined ones; `retry`: the direct
  // fetch it began for what those left missing.
  datatype Reader = Reader(location: Location, start: nat, end: nat, share: bool, size: Option<nat>, slots: Slots,
                           phase: Phase, joined: bool, failed: bool, started: nat, awaited: seq<nat>,
                           retry: Option<nat>)
  {
    function First(): nat { start / BLOCK_BYTES }

    // The in-flight key of slot k's block.
    function KeyAt(k: nat): Key { (location, First() + k) }

    ghost predicate Missing(k: nat) {
      k < |slots| && slots[k].None? && (size.None? || (First() + k) * BLOCK_BYTES < size.value)
    }

    ghost predicate NoneMissing() { forall k :: 0 <= k < |slots| ==> !Missing(k) }

    ghost predicate AllMissingWithin(lo: nat, hi: nat) {
      forall k :: 0 <= k < |slots| && Missing(k) ==> lo <= First() + k <= hi
    }

    // lo and hi are the first and the last missing block.
    ghost predicate MissingSpan(lo: nat, hi: nat) {
      && First() <= lo <= hi < First() + |slots|
      && Missing(lo - First()) && Missing(hi - First()) && AllMissingWithin(lo, hi)
    }
  }

  type Key = (Location, nat)

  datatype State = State(
    promote: nat,
    objects: Objects,
    sizes: map<Location, nat>,
    blocks: map<Key, seq<byte>>,
    inflight: map<Key, nat>,
    fetches: seq<Fetch>,
    readers: seq<Reader>)

  ghost predicate Init(s: State) {
    s.inflight == map[] && s.fetches == [] && s.readers == [] && CacheOk(s)
  }

  // ---------- Steps ----------

  datatype Step =
    | Create(location: Location, data: seq<byte>)
    | LoseBlock(key: Key)
    | LoseSize(location: Location)
    | Arrive(reader: Reader)
    | Probe(i: nat, hit: bool)
    | Decide(i: nat, lo: nat, hi: nat)
    | Answer(f: nat, fault: bool, keepSize: bool)
    | Read(f: nat, lost: bool)
    | Store(f: nat, stored: bool)
    | OwnFinished(i: nat)
    | WaitFinished(i: nat)
    | Check(i: nat, lo: nat, hi: nat)
    | RetryFinished(i: nat)

  ghost predicate Next(s: State, step: Step, s': State) {
    match step
    case Create(location, data) => location !in s.objects && s' == s.(objects := s.objects[location := data])
    case LoseBlock(key) => s' == s.(blocks := s.blocks - {key})
    case LoseSize(location) => s' == s.(sizes := s.sizes - {location})
    case Arrive(reader) => Arrival(s, reader) && s' == s.(readers := s.readers + [reader])
    case Probe(i, hit) =>
      && i < |s.readers| && s.readers[i].phase.Probing?
      && s' == WithReader(s, i, Probed(s, s.readers[i], hit))
    case Decide(i, lo, hi) => i < |s.readers| && s.readers[i].phase.Deciding? && Decided(s, i, lo, hi, s')
    case Answer(f, fault, keepSize) =>
      f < |s.fetches| && s.fetches[f].status.Requested? && s' == Answered(s, f, fault, keepSize)
    case Read(f, lost) => f < |s.fetches| && s.fetches[f].status.Reading? && s' == Received(s, f, lost)
    case Store(f, stored) => f < |s.fetches| && s.fetches[f].status.Storing? && s' == Stored(s, f, stored)
    case OwnFinished(i) =>
      && i < |s.readers| && s.readers[i].phase.Owning? && s.readers[i].phase.fetch < |s.fetches|
      && var f := s.readers[i].phase.fetch;
      && s.fetches[f].status.Finished?
      && s' == WithReader(s.(inflight := Unpublished(s.inflight, s.fetches[f], f)), i,
                          Filling(s.readers[i], s.fetches[f].status.answer).(phase := Waiting([])))
    case WaitFinished(i) =>
      && i < |s.readers| && s.readers[i].phase.Waiting? && s.readers[i].phase.fetches != []
      && var waits := s.readers[i].phase.fetches;
      && waits[0] < |s.fetches| && s.fetches[waits[0]].status.Finished?
      && s' == WithReader(s, i, Filling(s.readers[i], s.fetches[waits[0]].status.answer).(phase := Waiting(waits[1..])))
    case Check(i, lo, hi) =>
      && i < |s.readers| && s.readers[i].phase == Waiting([])
      && if s.readers[i].NoneMissing() then s' == WithReader(s, i, Finishing(s.readers[i]))
         else
           && s.readers[i].MissingSpan(lo, hi)
           && s' == WithReader(s, i, s.readers[i].(phase := Retrying(|s.fetches|), started := s.readers[i].started + 1,
                                                      retry := Some(|s.fetches|)))
                    .(fetches := s.fetches + [Fetch(s.readers[i].location, lo, hi, i, Requested)])
    case RetryFinished(i) =>
      && i < |s.readers| && s.readers[i].phase.Retrying? && s.readers[i].phase.fetch < |s.fetches|
      && var status := s.fetches[s.readers[i].phase.fetch].status;
      && status.Finished?
      && s' == WithReader(s, i,
                          if status.answer.None? then s.readers[i].(phase := Done(Errored), failed := true)
                          else Finishing(Filling(s.readers[i], status.answer)))
  }

  ghost function WithReader(s: State, i: nat, r: Reader): State
    requires i < |s.readers|
  {
    s.(readers := s.readers[i := r])
  }

  // A reader enters, having looked the object's size up in the cache. A range past a known
  // end is passed on to the backing store, which refuses it.
  ghost predicate Arrival(s: State, r: Reader) {
    && r.start < r.end && !r.joined && !r.failed && r.started == 0 && r.awaited == [] && r.retry.None?
    && r.slots == seq((r.end - 1) / BLOCK_BYTES - r.start / BLOCK_BYTES + 1, _ => None)
    && (r.size.Some? ==> r.location in s.sizes && r.size.value == s.sizes[r.location])
    && r.phase == (if r.size.None? then Deciding else if r.start >= r.size.value then Done(Errored) else Probing(0))
  }

  ghost function Probed(s: State, r: Reader, hit: bool): Reader
    requires r.phase.Probing?
  {
    var k := r.phase.next;
    var key := r.KeyAt(k);
    if k >= |r.slots| || r.size.None? || key.1 * BLOCK_BYTES >= r.size.value then r.(phase := Deciding)
    else r.(phase := Probing(k + 1),
            slots := if hit && key in s.blocks then r.slots[k := Some(s.blocks[key])] else r.slots)
  }

  // Under the map's lock: join when every missing block is in flight, else start a widened
  // fetch and publish it for the blocks nobody has published.
  ghost predicate Decided(s: State, i: nat, lo: nat, hi: nat, s': State)
    requires i < |s.readers|
  {
    var r := s.readers[i];
    if r.NoneMissing() then s' == WithReader(s, i, Finishing(r))
    else
      && r.MissingSpan(lo, hi) && r.start < r.end
      && if AllInFlight(s, r) then
           var waits := FoundWaits(s, r, 0);
           s' == WithReader(s, i, r.(phase := Waiting(waits), joined := true, awaited := waits))
         else
           var span := Widen(s.promote, r.location, r.size, r.start, r.end, lo, hi);
           s' == WithReader(s, i, r.(phase := Owning(|s.fetches|), started := r.started + 1, awaited := [|s.fetches|]))
                 .(fetches := s.fetches + [Fetch(r.location, span.0, span.1, i, Requested)],
                   inflight :=
                     if r.share then Published(s.inflight, r.location, span.0, span.1, |s.fetches|) else s.inflight)
  }

  // Every block the reader is missing has been published.
  ghost predicate AllInFlight(s: State, r: Reader) {
    forall k :: 0 <= k < |r.slots| && r.Missing(k) ==> r.KeyAt(k) in s.inflight
  }

  ghost predicate FoundAt(s: State, r: Reader, k: nat, f: nat) {
    r.Missing(k) && r.KeyAt(k) in s.inflight && f == s.inflight[r.KeyAt(k)]
  }

  // The futures found in the map, one for each missing block from slot k on.
  ghost function FoundWaits(s: State, r: Reader, k: nat): (waits: seq<nat>)
    requires k <= |r.slots|
    ensures |waits| <= |r.slots| - k
    ensures forall f :: f in waits ==> exists m :: k <= m < |r.slots| && FoundAt(s, r, m, f)
    ensures forall m :: k <= m < |r.slots| && r.Missing(m) && r.KeyAt(m) in s.inflight ==>
      s.inflight[r.KeyAt(m)] in waits
    decreases |r.slots| - k
  {
    if k == |r.slots| then []
    else if r.Missing(k) && r.KeyAt(k) in s.inflight then
      assert FoundAt(s, r, k, s.inflight[r.KeyAt(k)]);
      [s.inflight[r.KeyAt(k)]] + FoundWaits(s, r, k + 1)
    else FoundWaits(s, r, k + 1)
  }

  ghost function Published(inflight: map<Key, nat>, location: Location, lo: nat, hi: nat, f: nat): map<Key, nat> {
    (map b: nat | lo <= b <= hi :: (location, b) := f) + inflight
  }

  // The owner removes the entries of its own span that still point to its fetch.
  ghost function Unpublished(inflight: map<Key, nat>, fetch: Fetch, f: nat): map<Key, nat> {
    map key | key in inflight && !(key.0 == fetch.location && fetch.lo <= key.1 <= fetch.hi && inflight[key] == f) ::
      inflight[key]
  }

  ghost function Answered(s: State, f: nat, fault: bool, keepSize: bool): State
    requires f < |s.fetches|
  {
    var fetch := s.fetches[f];
    if fault || fetch.location !in s.objects || fetch.lo * BLOCK_BYTES >= |s.objects[fetch.location]|
      || fetch.hi < fetch.lo then
      s.(fetches := s.fetches[f := fetch.(status := Finished(None))])
    else
      var data := s.objects[fetch.location];
      var end := Min((fetch.hi + 1) * BLOCK_BYTES, |data|);
      var span := Span(|data|, fetch.lo * BLOCK_BYTES, end, data[fetch.lo * BLOCK_BYTES..end]);
      s.(fetches := s.fetches[f := fetch.(status := Reading(span))],
         sizes := if keepSize then s.sizes[fetch.location := |data|] else s.sizes)
  }

  // The body arrives, or is lost although the size is known by now.
  ghost function Received(s: State, f: nat, lost: bool): State
    requires f < |s.fetches| && s.fetches[f].status.Reading?
  {
    var fetch := s.fetches[f];
    s.(fetches :=
       s.fetches[f := fetch.(status := if lost then Finished(None) else Storing(fetch.status.span, fetch.lo))])
  }

  ghost function Stored(s: State, f: nat, stored: bool): State
    requires f < |s.fetches| && s.fetches[f].status.Storing?
  {
    var fetch := s.fetches[f];
    var span, b := fetch.status.span, fetch.status.next;
    if b < fetch.lo || b > fetch.hi || b * BLOCK_BYTES >= span.end || b * BLOCK_BYTES < span.start
      || |span.bytes| != span.end - span.start then
      s.(fetches := s.fetches[f := fetch.(status := Finished(Some(span)))])
    else
      var start := b * BLOCK_BYTES;
      var chunk := span.bytes[start - span.start..Min(start + BLOCK_BYTES, span.end) - span.start];
      s.(fetches := s.fetches[f := fetch.(status := Storing(span, b + 1))],
         blocks := if stored then s.blocks[(fetch.location, b) := chunk] else s.blocks)
  }

  // An awaited fetch's answer: its size and its blocks.
  ghost function Filling(r: Reader, answer: Option<Span>): Reader {
    if answer.None? || answer.value.start > answer.value.end
      || |answer.value.bytes| != answer.value.end - answer.value.start then
      r.(failed := true)
    else
      r.(size := if r.size.Some? then r.size else Some(answer.value.size),
         slots := Filled(r.First(), r.slots, answer.value))
  }

  // The assembly of the result.
  ghost function Finishing(r: Reader): Reader {
    if r.size.None? then r.(phase := Done(Panicked))
    else
      match Assemble(r.slots, r.First(), r.start, Min(r.end, r.size.value))
      case Assembled(bytes) => r.(phase := Done(Served(r.size.value, bytes)))
      case Unpopulated(_) => r.(phase := Done(Errored))
      case SlicePanic => r.(phase := Done(Panicked))
  }

  // ---------- The invariant ----------

  ghost predicate CacheOk(s: State) {
    && (forall location :: location in s.sizes ==> location in s.objects && s.sizes[location] == |s.objects[location]|)
    && (forall key: Key :: key in s.blocks ==>
          && key.0 in s.objects && key.1 * BLOCK_BYTES < |s.objects[key.0]|
          && s.blocks[key] == BlockOf(s.objects[key.0], key.1))
  }

  ghost predicate FetchOk(objects: Objects, fetch: Fetch) {
    && fetch.lo <= fetch.hi
    && match fetch.status {
         case Requested => true
         case Reading(span) =>
           fetch.location in objects && SpanOf(objects[fetch.location], fetch.lo, fetch.hi, span)
         case Storing(span, next) =>
           fetch.location in objects && SpanOf(objects[fetch.location], fetch.lo, fetch.hi, span) && fetch.lo <= next
         case Finished(answer) =>
           answer.Some? ==>
             fetch.location in objects && SpanOf(objects[fetch.location], fetch.lo, fetch.hi, answer.value)
       }
  }

  // A published entry leads to a fetch of its object whose span covers its block and whose
  // owner is still there to remove it.
  ghost predicate EntryOk(s: State, key: Key)
    requires key in s.inflight
  {
    var f := s.inflight[key];
    && f < |s.fetches| && s.fetches[f].location == key.0 && s.fetches[f].lo <= key.1 <= s.fetches[f].hi
    && s.fetches[f].owner < |s.readers| && s.readers[s.fetches[f].owner].phase == Owning(f)
  }

  ghost predicate CoveredBy(fetches: seq<Fetch>, waits: seq<nat>, b: nat) {
    exists j :: 0 <= j < |waits| && waits[j] < |fetches| && fetches[waits[j]].lo <= b <= fetches[waits[j]].hi
  }

  // The answer assembled from an object's own blocks: its bytes; from the very end on nothing
  // can be assembled, and from beyond it the assembly panics.
  ghost function AssembledAnswer(data: seq<byte>, start: nat, end: nat): Outcome
    requires start < end
  {
    if start < |data| then Served(|data|, data[start..Min(end, |data|)])
    else if start == |data| then Served(|data|, [])
    else Panicked
  }

  // A reader that knew on arrival that its range starts past the end was refused.
  ghost predicate Refused(r: Reader) {
    r.size.Some? && r.start >= r.size.value && !r.joined && r.started == 0
  }

  // The reader's own direct fetch failed.
  ghost predicate OwnFetchFailed(fetches: seq<Fetch>, i: nat, r: Reader) {
    && r.retry.Some? && r.retry.value < |fetches|
    && fetches[r.retry.value].owner == i && fetches[r.retry.value].location == r.location
    && fetches[r.retry.value].status == Finished(None)
  }

  ghost predicate AnsweredFetch(fetches: seq<Fetch>, location: Location) {
    exists f :: 0 <= f < |fetches| && Answers(fetches[f], location)
  }

  ghost predicate Answers(fetch: Fetch, location: Location) {
    fetch.location == location && fetch.status.Finished? && fetch.status.answer.Some?
  }

  // What a finished read has answered: an error exactly when it was refused or its own
  // direct fetch failed, and else what the object's blocks give.
  ghost predicate OutcomeOk(objects: Objects, fetches: seq<Fetch>, i: nat, r: Reader, outcome: Outcome)
    requires r.start < r.end
  {
    if outcome.Errored? then Refused(r) || OwnFetchFailed(fetches, i, r)
    else
      && r.size.Some? && !Refused(r) && !OwnFetchFailed(fetches, i, r)
      && r.location in objects && outcome == AssembledAnswer(objects[r.location], r.start, r.end)
  }

  // What a reader knows: the object's size, and blocks with the object's own bytes.
  ghost predicate KnowledgeOk(objects: Objects, r: Reader) {
    && r.start < r.end && |r.slots| == (r.end - 1) / BLOCK_BYTES - r.start / BLOCK_BYTES + 1
    && (r.size.Some? ==> r.location in objects && r.size.value == |objects[r.location]|)
    && (r.location in objects ==> SlotsOf(objects[r.location], r.First(), r.slots))
    && (r.size.None? ==> forall k :: 0 <= k < |r.slots| ==> r.slots[k].None?)
  }

  // What a reader is waiting for.
  ghost predicate PhaseOk(objects: Objects, fetches: seq<Fetch>, i: nat, r: Reader)
    requires r.start < r.end
  {
    && (r.joined && !r.failed ==> r.started == 0)
    && (r.size.Some? && r.start >= r.size.value ==> Refused(r) || AnsweredFetch(fetches, r.location))
    && match r.phase {
         case Probing(next) => !r.joined && r.started == 0 && r.retry.None? && r.size.Some? && r.start < r.size.value
         case Deciding => !r.joined && r.started == 0 && r.retry.None? && (r.size.Some? ==> r.start < r.size.value)
         case Owning(f) =>
           && r.started > 0 && r.retry.None?
           && !r.joined && f < |fetches| && fetches[f].location == r.location && fetches[f].owner == i
           && r.AllMissingWithin(fetches[f].lo, fetches[f].hi)
         case Waiting(waits) =>
           && (r.joined || r.started > 0) && r.retry.None?
           && (forall j :: 0 <= j < |waits| ==> waits[j] < |fetches| && fetches[waits[j]].location == r.location)
           && (!r.failed ==>
               forall k :: 0 <= k < |r.slots| && r.Missing(k) ==> CoveredBy(fetches, waits, r.First() + k))
         case Retrying(f) =>
           && r.failed && (r.joined || r.started > 0) && r.retry == Some(f)
           && f < |fetches| && fetches[f].location == r.location && fetches[f].owner == i
           && r.AllMissingWithin(fetches[f].lo, fetches[f].hi)
         case Done(outcome) =>
           && (r.retry.Some? ==> r.retry.value < |fetches| && fetches[r.retry.value].status.Finished?)
           && OutcomeOk(objects, fetches, i, r, outcome)
       }
  }

  ghost predicate ReaderOk(objects: Objects, fetches: seq<Fetch>, i: nat, r: Reader) {
    KnowledgeOk(objects, r) && PhaseOk(objects, fetches, i, r)
  }

  ghost predicate Inv(s: State) {
    && CacheOk(s)
    && (forall f :: 0 <= f < |s.fetches| ==> FetchOk(s.objects, s.fetches[f]))
    && (forall key: Key :: key in s.inflight ==> EntryOk(s, key))
    && (forall i :: 0 <= i < |s.readers| ==> ReaderOk(s.objects, s.fetches, i, s.readers[i]))
  }

  // ---------- Every step keeps the invariant ----------

  ghost predicate Grown(objects: Objects, objects': Objects) {
    forall l :: l in objects ==> l in objects' && objects'[l] == objects[l]
  }

  ghost predicate SameRequest(a: Fetch, b: Fetch) {
    a.location == b.location && a.lo == b.lo && a.hi == b.hi && a.owner == b.owner
      && (a.status.Finished? ==> b.status == a.status)
  }

  ghost predicate Extends(fetches: seq<Fetch>, fetches': seq<Fetch>) {
    |fetches| <= |fetches'| && forall f :: 0 <= f < |fetches| ==> SameRequest(fetches[f], fetches'[f])
  }

  lemma ReaderStable(objects: Objects, objects': Objects, fetches: seq<Fetch>, fetches': seq<Fetch>, i: nat, r: Reader)
    requires ReaderOk(objects, fetches, i, r) && Grown(objects, objects') && Extends(fetches, fetches')
    ensures ReaderOk(objects', fetches', i, r)
  {
    if AnsweredFetch(fetches, r.location) {
      var f :| 0 <= f < |fetches| && Answers(fetches[f], r.location);
      assert SameRequest(fetches[f], fetches'[f]);
      assert Answers(fetches'[f], r.location);
    }
    if r.retry.Some? && r.retry.value < |fetches| {
      assert SameRequest(fetches[r.retry.value], fetches'[r.retry.value]);
    }
    if r.phase.Waiting? {
      var waits := r.phase.fetches;
      forall k | 0 <= k < |r.slots| && r.Missing(k) && !r.failed
        ensures CoveredBy(fetches', waits, r.First() + k)
      {
        assert CoveredBy(fetches, waits, r.First() + k);
        var j :| 0 <= j < |waits| && waits[j] < |fetches|
          && fetches[waits[j]].lo <= r.First() + k <= fetches[waits[j]].hi;
        assert SameRequest(fetches[waits[j]], fetches'[waits[j]]);
      }
    }
  }

  lemma ReadersStable(s: State, s': State)
    requires Inv(s) && Grown(s.objects, s'.objects) && Extends(s.fetches, s'.fetches)
    ensures forall i :: 0 <= i < |s.readers| ==> ReaderOk(s'.objects, s'.fetches, i, s.readers[i])
  {
    hide ReaderOk;
    forall i | 0 <= i < |s.readers|
      ensures ReaderOk(s'.objects, s'.fetches, i, s.readers[i])
    {
      ReaderStable(s.objects, s'.objects, s.fetches, s'.fetches, i, s.readers[i]);
    }
  }

  // A step of reader i that leaves the map alone and does not take it out of Owning.
  lemma ReplaceReader(s: State, s': State, i: nat, r': Reader)
    requires Inv(s) && i < |s.readers| && CacheOk(s') && s'.objects == s.objects && Extends(s.fetches, s'.fetches)
    requires forall f :: 0 <= f < |s'.fetches| ==> FetchOk(s'.objects, s'.fetches[f])
    requires s'.readers == s.readers[i := r'] && ReaderOk(s'.objects, s'.fetches, i, r')
    requires forall key: Key :: key in s'.inflight ==> EntryOk(s', key)
    ensures Inv(s')
  {
    hide ReaderOk, FetchOk, EntryOk, CacheOk;
    ReadersStable(s, s');
  }

  lemma EntriesStable(s: State, s': State, i: nat)
    requires Inv(s) && i < |s.readers| && !s.readers[i].phase.Owning? && Extends(s.fetches, s'.fetches)
    requires s'.inflight == s.inflight && |s'.readers| == |s.readers|
    requires forall j :: 0 <= j < |s.readers| && j != i ==> s'.readers[j] == s.readers[j]
    ensures forall key: Key :: key in s'.inflight ==> EntryOk(s', key)
  {
    hide ReaderOk, FetchOk, CacheOk;
    forall key: Key | key in s'.inflight
      ensures EntryOk(s', key)
    {
      assert EntryOk(s, key);
      var f := s.inflight[key];
      assert SameRequest(s.fetches[f], s'.fetches[f]);
    }
  }

  lemma CacheSteps(s: State, step: Step, s': State)
    requires Inv(s) && Next(s, step, s') && (step.Create? || step.LoseBlock? || step.LoseSize? || step.Arrive?)
    ensures Inv(s')
  {
    hide ReaderOk, Arrival, SpanOf, BlockOf;
    ReadersStable(s, s');
    if step.Arrive? { ArrivalOk(s, step.reader, |s.readers|); }
    forall key: Key | key in s'.inflight
      ensures EntryOk(s', key)
    {
      assert EntryOk(s, key);
    }
    forall f | 0 <= f < |s'.fetches|
      ensures FetchOk(s'.objects, s'.fetches[f])
    {
      assert FetchOk(s.objects, s.fetches[f]);
    }
  }

  lemma ArrivalOk(s: State, r: Reader, i: nat)
    requires CacheOk(s) && Arrival(s, r)
    ensures ReaderOk(s.objects, s.fetches, i, r)
  {
  }

  // A step of fetch f alone.
  lemma ReplaceFetch(s: State, s': State, f: nat, fetch': Fetch)
    requires Inv(s) && f < |s.fetches| && CacheOk(s') && s'.objects == s.objects
    requires s'.fetches == s.fetches[f := fetch'] && SameRequest(s.fetches[f], fetch') && FetchOk(s.objects, fetch')
    requires s'.readers == s.readers && s'.inflight == s.inflight
    ensures Inv(s')
  {
    hide ReaderOk, FetchOk, CacheOk;
    ReadersStable(s, s');
    forall key: Key | key in s'.inflight
      ensures EntryOk(s', key)
    {
      assert EntryOk(s, key);
      assert SameRequest(s.fetches[s.inflight[key]], s'.fetches[s.inflight[key]]);
    }
  }

  lemma AnswerStep(s: State, f: nat, fault: bool, keepSize: bool)
    requires Inv(s) && f < |s.fetches| && s.fetches[f].status.Requested?
    ensures Inv(Answered(s, f, fault, keepSize))
  {
    hide ReaderOk, EntryOk;
    assert FetchOk(s.objects, s.fetches[f]);
    ReplaceFetch(s, Answered(s, f, fault, keepSize), f, Answered(s, f, fault, keepSize).fetches[f]);
  }

  lemma ReadStep(s: State, f: nat, lost: bool)
    requires Inv(s) && f < |s.fetches| && s.fetches[f].status.Reading?
    ensures Inv(Received(s, f, lost))
  {
    hide ReaderOk, EntryOk, CacheOk;
    assert FetchOk(s.objects, s.fetches[f]);
    SameCache(s, Received(s, f, lost));
    ReplaceFetch(s, Received(s, f, lost), f, Received(s, f, lost).fetches[f]);
  }

  lemma StoreStep(s: State, f: nat, stored: bool)
    requires Inv(s) && f < |s.fetches| && s.fetches[f].status.Storing?
    ensures Inv(Stored(s, f, stored))
  {
    hide ReaderOk, EntryOk, CacheOk, FetchOk;
    assert FetchOk(s.objects, s.fetches[f]);
    StoredOk(s, f, stored);
    ReplaceFetch(s, Stored(s, f, stored), f, Stored(s, f, stored).fetches[f]);
  }

  lemma ChunkIsBlock(data: seq<byte>, lo: nat, hi: nat, span: Span, b: nat)
    requires SpanOf(data, lo, hi, span) && lo <= b <= hi && span.start <= b * BLOCK_BYTES < span.end
    ensures b * BLOCK_BYTES < |data|
    ensures span.bytes[b * BLOCK_BYTES - span.start..Min(b * BLOCK_BYTES + BLOCK_BYTES, span.end) - span.start] ==
      BlockOf(data, b)
  {
    var start := b * BLOCK_BYTES;
    SliceOfSlice(data, span.start, span.end, start - span.start, Min(start + BLOCK_BYTES, span.end) - span.start);
  }

  lemma StoredOk(s: State, f: nat, stored: bool)
    requires CacheOk(s) && f < |s.fetches| && s.fetches[f].status.Storing? && FetchOk(s.objects, s.fetches[f])
    ensures CacheOk(Stored(s, f, stored)) && FetchOk(s.objects, Stored(s, f, stored).fetches[f])
  {
    hide CacheOk, BlockOf, SpanOf;
    var fetch := s.fetches[f];
    var span, b := fetch.status.span, fetch.status.next;
    SpanFits(s.objects[fetch.location], fetch.lo, fetch.hi, span);
    if fetch.lo <= b <= fetch.hi && span.start <= b * BLOCK_BYTES < span.end {
      ChunkIsBlock(s.objects[fetch.location], fetch.lo, fetch.hi, span, b);
      var chunk := span.bytes[b * BLOCK_BYTES - span.start..Min(b * BLOCK_BYTES + BLOCK_BYTES, span.end) - span.start];
      PutBlockOk(s, Stored(s, f, stored), (fetch.location, b), chunk, stored);
    } else {
      SameCache(s, Stored(s, f, stored));
    }
  }

  lemma SpanFits(data: seq<byte>, lo: nat, hi: nat, span: Span)
    requires SpanOf(data, lo, hi, span)
    ensures span.start <= span.end && |span.bytes| == span.end - span.start && span.start == lo * BLOCK_BYTES
  {
  }

  lemma PutBlockOk(s: State, s': State, key: Key, chunk: seq<byte>, stored: bool)
    requires CacheOk(s) && s'.objects == s.objects && s'.sizes == s.sizes
    requires s'.blocks == if stored then s.blocks[key := chunk] else s.blocks
    requires key.0 in s.objects && key.1 * BLOCK_BYTES < |s.objects[key.0]| && chunk == BlockOf(s.objects[key.0], key.1)
    ensures CacheOk(s')
  {
    hide BlockOf;
  }

  lemma ProbedOk(s: State, i: nat, r: Reader, hit: bool)
    requires CacheOk(s) && ReaderOk(s.objects, s.fetches, i, r) && r.phase.Probing?
    ensures ReaderOk(s.objects, s.fetches, i, Probed(s, r, hit))
  {
    hide OutcomeOk, CoveredBy, BlockOf;
  }

  lemma ProbeStep(s: State, i: nat, hit: bool)
    requires Inv(s) && i < |s.readers| && s.readers[i].phase.Probing?
    ensures Inv(WithReader(s, i, Probed(s, s.readers[i], hit)))
  {
    hide FetchOk, EntryOk, ReaderOk;
    var s' := WithReader(s, i, Probed(s, s.readers[i], hit));
    ProbedOk(s, i, s.readers[i], hit);
    EntriesStable(s, s', i);
    ReplaceReader(s, s', i, Probed(s, s.readers[i], hit));
  }

  // With no block missing the assembled answer is right.
  lemma FinishingOutcome(objects: Objects, r: Reader)
    requires KnowledgeOk(objects, r) && r.NoneMissing()
    ensures r.location in objects && r.size.Some?
    ensures Finishing(r) == r.(phase := Done(AssembledAnswer(objects[r.location], r.start, r.end)))
  {
    assert !r.Missing(0);
    var data := objects[r.location];
    forall k | 0 <= k < |r.slots| && (r.First() + k) * BLOCK_BYTES < |data|
      ensures r.slots[k].Some?
    {
      assert !r.Missing(k);
    }
    hide SlotsOf, Assemble;
    if r.start < |data| {
      AssembleIsExact(data, r.slots, r.First(), r.start, r.end);
    } else {
      AssembleBeyondEnd(data, r.slots, r.First(), r.start, r.end);
    }
  }

  lemma FinishingOk(objects: Objects, fetches: seq<Fetch>, i: nat, r: Reader)
    requires KnowledgeOk(objects, r) && r.NoneMissing() && (r.joined && !r.failed ==> r.started == 0)
    requires !Refused(r) && (r.size.Some? && r.start >= r.size.value ==> AnsweredFetch(fetches, r.location))
    requires r.retry.Some? ==> r.retry.value < |fetches| && fetches[r.retry.value].status.Finished?
    requires !OwnFetchFailed(fetches, i, r)
    ensures ReaderOk(objects, fetches, i, Finishing(r))
  {
    assert r.start < r.end;
    hide Assemble, KnowledgeOk, AnsweredFetch;
    FinishingOutcome(objects, r);
    SameKnowledge(objects, r, Finishing(r));
  }

  // A finished fetch adds the object's own blocks of its span, and nothing in it stays missing.
  lemma FillingOk(objects: Objects, r: Reader, fetch: Fetch)
    requires KnowledgeOk(objects, r) && FetchOk(objects, fetch) && fetch.location == r.location
      && fetch.status.Finished?
    ensures var r' := Filling(r, fetch.status.answer);
      && KnowledgeOk(objects, r') && |r'.slots| == |r.slots|
      && (r'.failed <==> r.failed || fetch.status.answer.None?)
      && (fetch.status.answer.None? ==> r' == r.(failed := true))
      && (forall k :: 0 <= k < |r.slots| && r'.Missing(k) ==> r.Missing(k))
      && (fetch.status.answer.Some? ==> r'.size.Some?)
      && (fetch.status.answer.Some? ==>
            forall k :: 0 <= k < |r.slots| && r'.Missing(k) ==> !(fetch.lo <= r.First() + k <= fetch.hi))
  {
    if fetch.status.answer.Some? {
      FillKeepsBlocks(objects[r.location], fetch.lo, fetch.hi, fetch.status.answer.value, r.First(), r.slots);
    }
  }

  lemma OwnFinishedStep(s: State, i: nat, s': State)
    requires Inv(s) && Next(s, OwnFinished(i), s')
    ensures Inv(s')
  {
    hide CacheOk, KnowledgeOk, OutcomeOk, Filling, FetchOk, CoveredBy;
    var r := s.readers[i];
    var f := r.phase.fetch;
    assert ReaderOk(s.objects, s.fetches, i, r) && FetchOk(s.objects, s.fetches[f]);
    FillingOk(s.objects, r, s.fetches[f]);
    var r' := Filling(r, s.fetches[f].status.answer).(phase := Waiting([]));
    assert s.fetches[f].status.answer.Some? ==> Answers(s.fetches[f], r.location);
    SameKnowledge(s.objects, Filling(r, s.fetches[f].status.answer), r');
    FillingKeeps(r, s.fetches[f].status.answer);
    hide EntryOk, Unpublished, ReaderOk;
    UnpublishOk(s, s', i);
    SameCache(s, s');
    ReplaceReader(s, s', i, r');
  }

  // What the owner of a fetch leaves in the map belongs to others.
  lemma UnpublishOk(s: State, s': State, i: nat)
    requires Inv(s) && i < |s.readers| && s.readers[i].phase.Owning? && s.readers[i].phase.fetch < |s.fetches|
    requires var f := s.readers[i].phase.fetch; s'.inflight == Unpublished(s.inflight, s.fetches[f], f)
    requires s'.fetches == s.fetches && |s'.readers| == |s.readers|
    requires forall j :: 0 <= j < |s.readers| && j != i ==> s'.readers[j] == s.readers[j]
    ensures forall key: Key :: key in s'.inflight ==> EntryOk(s', key)
  {
    hide ReaderOk, FetchOk, CacheOk;
    forall key: Key | key in s'.inflight
      ensures EntryOk(s', key)
    {
      assert EntryOk(s, key);
    }
  }

  lemma WaitFinishedStep(s: State, i: nat, s': State)
    requires Inv(s) && Next(s, WaitFinished(i), s')
    ensures Inv(s')
  {
    hide CacheOk, KnowledgeOk, OutcomeOk, Filling, FetchOk, EntryOk;
    var r := s.readers[i];
    var waits := r.phase.fetches;
    var f := waits[0];
    assert ReaderOk(s.objects, s.fetches, i, r) && FetchOk(s.objects, s.fetches[f]);
    FillingOk(s.objects, r, s.fetches[f]);
    FillingKeeps(r, s.fetches[f].status.answer);
    var r' := Filling(r, s.fetches[f].status.answer).(phase := Waiting(waits[1..]));
    SameKnowledge(s.objects, Filling(r, s.fetches[f].status.answer), r');
    forall k | 0 <= k < |r'.slots| && r'.Missing(k) && !r'.failed
      ensures CoveredBy(s.fetches, waits[1..], r'.First() + k)
    {
      assert r.Missing(k);
      assert CoveredBy(s.fetches, waits, r.First() + k);
      var j :| 0 <= j < |waits| && waits[j] < |s.fetches|
        && s.fetches[waits[j]].lo <= r.First() + k <= s.fetches[waits[j]].hi;
      assert waits[1..][j - 1] == waits[j];
    }
    EntriesStable(s, s', i);
    SameCache(s, s');
    ReplaceReader(s, s', i, r');
  }

  lemma RetryFinishedStep(s: State, i: nat, s': State)
    requires Inv(s) && Next(s, RetryFinished(i), s')
    ensures Inv(s')
  {
    hide CacheOk, KnowledgeOk, Filling, FetchOk, EntryOk, Finishing;
    var r := s.readers[i];
    var f := r.phase.fetch;
    assert ReaderOk(s.objects, s.fetches, i, r) && FetchOk(s.objects, s.fetches[f]);
    FillingOk(s.objects, r, s.fetches[f]);
    FillingKeeps(r, s.fetches[f].status.answer);
    EntriesStable(s, s', i);
    SameCache(s, s');
    if s.fetches[f].status.answer.None? {
      var r' := r.(phase := Done(Errored), failed := true);
      SameKnowledge(s.objects, r, r');
      assert OwnFetchFailed(s.fetches, i, r');
      ReplaceReader(s, s', i, r');
    } else {
      var filled := Filling(r, s.fetches[f].status.answer);
      FinishingOk(s.objects, s.fetches, i, filled);
      ReplaceReader(s, s', i, Finishing(filled));
    }
  }

  lemma FillingKeeps(r: Reader, answer: Option<Span>)
    ensures var r' := Filling(r, answer);
      r'.location == r.location && r'.start == r.start && r'.end == r.end && r'.phase == r.phase
        && r'.joined == r.joined && r'.started == r.started
      && r'.awaited == r.awaited && r'.retry == r.retry && (r.size.Some? ==> r'.size == r.size)
      && (answer.None? ==> r'.size == r.size)
  {
  }

  lemma SameKnowledge(objects: Objects, r: Reader, r': Reader)
    requires KnowledgeOk(objects, r)
    requires r'.location == r.location && r'.start == r.start && r'.end == r.end && r'.size == r.size
      && r'.slots == r.slots
    ensures KnowledgeOk(objects, r')
    ensures forall k :: r'.Missing(k) <==> r.Missing(k)
  {
  }

  lemma SameCache(s: State, s': State)
    requires CacheOk(s) && s'.objects == s.objects && s'.sizes == s.sizes && s'.blocks == s.blocks
    ensures CacheOk(s')
  {
  }

  lemma CheckStep(s: State, i: nat, lo: nat, hi: nat, s': State)
    requires Inv(s) && Next(s, Check(i, lo, hi), s')
    ensures Inv(s')
  {
    hide CacheOk, KnowledgeOk, OutcomeOk, FetchOk, EntryOk, Finishing;
    var r := s.readers[i];
    assert ReaderOk(s.objects, s.fetches, i, r);
    if r.NoneMissing() {
      FinishStep(s, i);
    } else {
      EntriesStable(s, s', i);
      SameCache(s, s');
      assert !r.failed ==> CoveredBy(s.fetches, [], lo);
      var r' := r.(phase := Retrying(|s.fetches|), started := r.started + 1, retry := Some(|s.fetches|));
      SameKnowledge(s.objects, r, r');
      NewFetchOk(s.objects, Fetch(r.location, lo, hi, i, Requested));
      ReplaceReader(s, s', i, r');
    }
  }

  lemma NewFetchOk(objects: Objects, fetch: Fetch)
    requires fetch.lo <= fetch.hi && fetch.status.Requested?
    ensures FetchOk(objects, fetch)
  {
  }

  // A reader with every block at hand finishes.
  lemma FinishStep(s: State, i: nat)
    requires Inv(s) && i < |s.readers| && s.readers[i].NoneMissing()
    requires s.readers[i].phase.Deciding? || s.readers[i].phase == Waiting([])
    ensures Inv(WithReader(s, i, Finishing(s.readers[i])))
  {
    hide CacheOk, KnowledgeOk, OutcomeOk, FetchOk, EntryOk, Finishing;
    var s' := WithReader(s, i, Finishing(s.readers[i]));
    assert ReaderOk(s.objects, s.fetches, i, s.readers[i]);
    SameCache(s, s');
    EntriesStable(s, s', i);
    FinishingOk(s.objects, s.fetches, i, s.readers[i]);
    ReplaceReader(s, s', i, Finishing(s.readers[i]));
  }

  lemma DecideStep(s: State, i: nat, lo: nat, hi: nat, s': State)
    requires Inv(s) && i < |s.readers| && s.readers[i].phase.Deciding? && Decided(s, i, lo, hi, s')
    ensures Inv(s')
  {
    hide Inv, Finishing, Widen, FoundWaits, Published;
    var r := s.readers[i];
    if r.NoneMissing() {
      FinishStep(s, i);
    } else if AllInFlight(s, r) {
      DecideToJoin(s, i, s');
    } else {
      var span := Widen(s.promote, r.location, r.size, r.start, r.end, lo, hi);
      DecideToFetch(s, i, span.0, span.1, s');
    }
  }

  lemma DecideToJoin(s: State, i: nat, s': State)
    requires Inv(s) && i < |s.readers| && s.readers[i].phase.Deciding? && AllInFlight(s, s.readers[i])
    requires var waits := FoundWaits(s, s.readers[i], 0);
      s' == WithReader(s, i, s.readers[i].(phase := Waiting(waits), joined := true, awaited := waits))
    ensures Inv(s')
  {
    hide CacheOk, KnowledgeOk, OutcomeOk, FetchOk, EntryOk, FoundWaits;
    assert ReaderOk(s.objects, s.fetches, i, s.readers[i]);
    SameCache(s, s');
    EntriesStable(s, s', i);
    JoinOk(s, i, s.readers[i]);
    ReplaceReader(s, s', i, s'.readers[i]);
  }

  lemma DecideToFetch(s: State, i: nat, lo: nat, hi: nat, s': State)
    requires Inv(s) && i < |s.readers| && s.readers[i].phase.Deciding? && lo <= hi
      && s.readers[i].AllMissingWithin(lo, hi)
    requires s' == WithReader(s, i, s.readers[i].(phase := Owning(|s.fetches|), started := s.readers[i].started + 1,
                                                  awaited := [|s.fetches|]))
                   .(fetches := s.fetches + [Fetch(s.readers[i].location, lo, hi, i, Requested)],
                     inflight :=
                       if s.readers[i].share then Published(s.inflight, s.readers[i].location, lo, hi, |s.fetches|)
                       else s.inflight)
    ensures Inv(s')
  {
    hide CacheOk, KnowledgeOk, OutcomeOk, FetchOk, EntryOk, Published;
    assert ReaderOk(s.objects, s.fetches, i, s.readers[i]);
    SameCache(s, s');
    SameKnowledge(s.objects, s.readers[i], s'.readers[i]);
    NewFetchOk(s.objects, s'.fetches[|s.fetches|]);
    PublishOk(s, s', i, lo, hi);
    ReplaceReader(s, s', i, s'.readers[i]);
  }

  // The futures a reader joins are fetches of its object.
  lemma WaitsAreOurs(s: State, r: Reader, j: nat)
    requires (forall key: Key :: key in s.inflight ==> EntryOk(s, key)) && j < |FoundWaits(s, r, 0)|
    ensures var f := FoundWaits(s, r, 0)[j]; f < |s.fetches| && s.fetches[f].location == r.location
  {
    var waits := FoundWaits(s, r, 0);
    assert waits[j] in waits;
    var k :| 0 <= k < |r.slots| && FoundAt(s, r, k, waits[j]);
    assert EntryOk(s, r.KeyAt(k));
  }

  lemma WaitsCover(s: State, r: Reader, k: nat)
    requires (forall key: Key :: key in s.inflight ==> EntryOk(s, key)) && AllInFlight(s, r)
    requires k < |r.slots| && r.Missing(k)
    ensures CoveredBy(s.fetches, FoundWaits(s, r, 0), r.First() + k)
  {
    var waits, f := FoundWaits(s, r, 0), s.inflight[r.KeyAt(k)];
    assert EntryOk(s, r.KeyAt(k));
    assert f in waits;
    var j :| 0 <= j < |waits| && waits[j] == f;
  }

  lemma JoinOk(s: State, i: nat, r: Reader)
    requires Inv(s) && ReaderOk(s.objects, s.fetches, i, r) && r.phase.Deciding? && AllInFlight(s, r)
    ensures var waits := FoundWaits(s, r, 0);
      ReaderOk(s.objects, s.fetches, i, r.(phase := Waiting(waits), joined := true, awaited := waits))
  {
    hide KnowledgeOk, OutcomeOk, FetchOk, CacheOk, EntryOk, FoundWaits, AllInFlight, CoveredBy;
    var waits := FoundWaits(s, r, 0);
    SameKnowledge(s.objects, r, r.(phase := Waiting(waits), joined := true, awaited := waits));
    forall j | 0 <= j < |waits|
      ensures waits[j] < |s.fetches| && s.fetches[waits[j]].location == r.location
    {
      WaitsAreOurs(s, r, j);
    }
    forall k | 0 <= k < |r.slots| && r.Missing(k)
      ensures CoveredBy(s.fetches, waits, r.First() + k)
    {
      WaitsCover(s, r, k);
    }
  }

  lemma PublishOk(s: State, s': State, i: nat, lo: nat, hi: nat)
    requires Inv(s) && i < |s.readers| && s.readers[i].phase.Deciding?
    requires s'.fetches == s.fetches + [Fetch(s.readers[i].location, lo, hi, i, Requested)]
    requires s'.inflight ==
      (if s.readers[i].share then Published(s.inflight, s.readers[i].location, lo, hi, |s.fetches|) else s.inflight)
    requires |s'.readers| == |s.readers| && s'.readers[i].phase == Owning(|s.fetches|)
    requires forall j :: 0 <= j < |s.readers| && j != i ==> s'.readers[j] == s.readers[j]
    ensures forall key: Key :: key in s'.inflight ==> EntryOk(s', key)
  {
    hide ReaderOk, FetchOk, CacheOk;
    forall key: Key | key in s'.inflight
      ensures EntryOk(s', key)
    {
      if key in s.inflight { assert EntryOk(s, key); }
    }
  }

  // Objects are written once, and no step changes the promotion limit.
  lemma ObjectsGrow(s: State, step: Step, s': State)
    requires Next(s, step, s')
    ensures Grown(s.objects, s'.objects) && s'.promote == s.promote
  {
    hide Probed, Finishing, Filling, Unpublished, Published, FoundWaits, Widen, Arrival;
  }

  lemma StepKeepsInv(s: State, step: Step, s': State)
    requires Inv(s) && Next(s, step, s')
    ensures Inv(s') && Grown(s.objects, s'.objects)
  {
    ObjectsGrow(s, step, s');
    hide Inv, Grown, Answered, Received, Stored, Probed, Finishing, Filling, Unpublished, Decided;
    match step {
      case Probe(i, hit) => ProbeStep(s, i, hit);
      case Decide(i, lo, hi) => DecideStep(s, i, lo, hi, s');
      case Answer(f, fault, keepSize) => AnswerStep(s, f, fault, keepSize);
      case Read(f, lost) => ReadStep(s, f, lost);
      case Store(f, stored) => StoreStep(s, f, stored);
      case OwnFinished(i) => OwnFinishedStep(s, i, s');
      case WaitFinished(i) => WaitFinishedStep(s, i, s');
      case Check(i, lo, hi) => CheckStep(s, i, lo, hi, s');
      case RetryFinished(i) => RetryFinishedStep(s, i, s');
      case _ => CacheSteps(s, step, s');
    }
  }

  // ---------- Whole runs ----------

  ghost predicate Run(states: seq<State>, steps: seq<Step>) {
    && |states| == |steps| + 1 && Init(states[0])
    && forall n :: 0 <= n < |steps| ==> Next(states[n], steps[n], states[n + 1])
  }

  lemma {:induction false} RunKeepsInv(states: seq<State>, steps: seq<Step>, n: nat)
    requires Run(states, steps) && n < |states|
    ensures Inv(states[n])
    decreases n
  {
    if n > 0 {
      RunKeepsInv(states, steps, n - 1);
      assert Next(states[n - 1], steps[n - 1], states[n - 1 + 1]);
      StepKeepsInv(states[n - 1], steps[n - 1], states[n]);
    }
  }

  // In every state of every run, a finished read inside its object has exactly the object's
  // bytes, or an error; and an error then means that the reader's own direct fetch failed,
  // whatever became of the fetches it shared. A missing object is an error for that reason too.
  lemma FinishedReadsAreExact(states: seq<State>, steps: seq<Step>, n: nat, i: nat)
    requires Run(states, steps) && n < |states| && i < |states[n].readers|
    requires states[n].readers[i].phase.Done?
    ensures states[n].readers[i].start < states[n].readers[i].end
    ensures var s, r := states[n], states[n].readers[i];
            r.location in s.objects && r.start < |s.objects[r.location]| ==>
              var data := s.objects[r.location];
              if OwnFetchFailed(s.fetches, i, r) then r.phase.outcome == Errored
              else r.phase.outcome == Served(|data|, data[r.start..Min(r.end, |data|)])
    ensures var s, r := states[n], states[n].readers[i];
            r.location !in s.objects ==> r.phase.outcome == Errored && OwnFetchFailed(s.fetches, i, r)
  {
    RunKeepsInv(states, steps, n);
    assert ReaderOk(states[n].objects, states[n].fetches, i, states[n].readers[i]);
  }

  // A finished read from the end of its object on errs exactly when it was refused on
  // arrival or its own direct fetch failed. Else some fetch of the object has answered, its
  // own or one that it joined, and the read panics, or is empty from the very end.
  lemma FinishedPastEnd(states: seq<State>, steps: seq<Step>, n: nat, i: nat)
    requires Run(states, steps) && n < |states| && i < |states[n].readers|
    requires states[n].readers[i].phase.Done? && states[n].readers[i].location in states[n].objects
    requires states[n].readers[i].start >= |states[n].objects[states[n].readers[i].location]|
    ensures var s, r := states[n], states[n].readers[i];
            var size := |s.objects[r.location]|;
            if Refused(r) || OwnFetchFailed(s.fetches, i, r) then r.phase.outcome == Errored
            else
              && AnsweredFetch(s.fetches, r.location)
              && r.phase.outcome == if r.start == size then Served(size, []) else Panicked
  {
    RunKeepsInv(states, steps, n);
    var s, r := states[n], states[n].readers[i];
    assert ReaderOk(s.objects, s.fetches, i, r);
  }

  // Every published entry leads to a fetch of its object whose widened span covers its
  // block, and none is left once every reader has finished.
  lemma PublishedFetchesCover(states: seq<State>, steps: seq<Step>, n: nat)
    requires Run(states, steps) && n < |states|
    ensures var s := states[n];
            forall key: Key :: key in s.inflight ==>
              && s.inflight[key] < |s.fetches|
              && s.fetches[s.inflight[key]].location == key.0
              && s.fetches[s.inflight[key]].lo <= key.1 <= s.fetches[s.inflight[key]].hi
    ensures (forall i :: 0 <= i < |states[n].readers| ==> states[n].readers[i].phase.Done?) ==>
      states[n].inflight == map[]
  {
    RunKeepsInv(states, steps, n);
    var s := states[n];
    forall key: Key | key in s.inflight
      ensures s.inflight[key] < |s.fetches| && s.fetches[s.inflight[key]].location == key.0
              && s.fetches[s.inflight[key]].lo <= key.1 <= s.fetches[s.inflight[key]].hi
      ensures exists i :: 0 <= i < |s.readers| && !s.readers[i].phase.Done?
    {
      assert EntryOk(s, key);
      assert !s.readers[s.fetches[s.inflight[key]].owner].phase.Done?;
    }
    if forall i :: 0 <= i < |s.readers| ==> s.readers[i].phase.Done? {
      assert forall key: Key :: key !in s.inflight;
    }
  }

  // Single flight: a reader that found all its missing blocks in flight has begun no fetch
  // of its own unless a fetch it waited for failed.
  lemma JoinersFetchNothing(states: seq<State>, steps: seq<Step>, n: nat, i: nat)
    requires Run(states, steps) && n < |states| && i < |states[n].readers|
    requires states[n].readers[i].joined && !states[n].readers[i].failed
    ensures states[n].readers[i].started == 0
  {
    RunKeepsInv(states, steps, n);
    assert ReaderOk(states[n].objects, states[n].fetches, i, states[n].readers[i]);
  }

  // When its fetch is finished an owner removes exactly the entries that point to it.
  lemma OwnersRemoveTheirOwn(states: seq<State>, steps: seq<Step>, n: nat, i: nat, f: nat)
    requires Run(states, steps) && n < |steps| && steps[n] == OwnFinished(i)
    requires i < |states[n].readers| && states[n].readers[i].phase == Owning(f)
    ensures forall key: Key :: key in states[n].inflight ==>
              (key in states[n + 1].inflight <==> states[n].inflight[key] != f)
    ensures forall key: Key :: key in states[n + 1].inflight ==>
              key in states[n].inflight && states[n + 1].inflight[key] == states[n].inflight[key]
  {
    hide ReaderOk, CacheOk, FetchOk, Filling;
    RunKeepsInv(states, steps, n);
    assert Next(states[n], steps[n], states[n + 1]);
    forall key: Key | key in states[n].inflight
      ensures key in states[n + 1].inflight <==> states[n].inflight[key] != f
    {
      assert EntryOk(states[n], key);
    }
  }

  // ---------- No reader is stuck ----------

  lemma {:induction false} FirstMissing(r: Reader, k: nat) returns (lo: nat)
    requires k <= |r.slots| && exists m :: k <= m < |r.slots| && r.Missing(m)
    ensures k <= lo < |r.slots| && r.Missing(lo) && forall m :: k <= m < lo ==> !r.Missing(m)
    decreases |r.slots| - k
  {
    if r.Missing(k) { lo := k; } else { lo := FirstMissing(r, k + 1); }
  }

  lemma {:induction false} LastMissing(r: Reader, k: nat) returns (hi: nat)
    requires k <= |r.slots| && exists m :: 0 <= m < k && r.Missing(m)
    ensures hi < k && r.Missing(hi) && forall m :: hi < m < k ==> !r.Missing(m)
    decreases k
  {
    if r.Missing(k - 1) { hi := k - 1; } else { hi := LastMissing(r, k - 1); }
  }

  lemma MissingSpanExists(r: Reader) returns (lo: nat, hi: nat)
    requires !r.NoneMissing()
    ensures r.MissingSpan(lo, hi)
  {
    var a := FirstMissing(r, 0);
    var b := LastMissing(r, |r.slots|);
    lo, hi := r.First() + a, r.First() + b;
  }

  // A step of a reader or of a fetch it waits for, and not of the surroundings.
  predicate IsProgress(step: Step) {
    !step.Create? && !step.LoseBlock? && !step.LoseSize? && !step.Arrive?
  }

  ghost predicate CanMove(s: State) {
    exists step: Step, s': State :: IsProgress(step) && Next(s, step, s')
  }

  lemma FetchCanMove(s: State, f: nat)
    requires f < |s.fetches| && !s.fetches[f].status.Finished?
    ensures CanMove(s)
  {
    if s.fetches[f].status.Requested? {
      assert Next(s, Answer(f, true, true), Answered(s, f, true, true));
    } else if s.fetches[f].status.Reading? {
      assert Next(s, Read(f, false), Received(s, f, false));
    } else {
      assert Next(s, Store(f, true), Stored(s, f, true));
    }
  }

  lemma DeciderCanMove(s: State, i: nat)
    requires Inv(s) && i < |s.readers| && s.readers[i].phase.Deciding?
    ensures CanMove(s)
  {
    var r := s.readers[i];
    assert r.start < r.end by { assert ReaderOk(s.objects, s.fetches, i, r); }
    hide Inv, CanMove, AllInFlight;
    if r.NoneMissing() {
      FinisherCanMove(s, i);
      return;
    }
    var lo, hi := MissingSpanExists(r);
    if AllInFlight(s, r) {
      JoinerCanMove(s, i, lo, hi);
    } else {
      FetcherCanMove(s, i, lo, hi);
    }
  }

  lemma FinisherCanMove(s: State, i: nat)
    requires i < |s.readers| && s.readers[i].phase.Deciding? && s.readers[i].NoneMissing()
    ensures CanMove(s)
  {
    hide CanMove, Finishing;
    var s' := WithReader(s, i, Finishing(s.readers[i]));
    assert Decided(s, i, 0, 0, s');
    StepExists(s, Decide(i, 0, 0), s');
  }

  lemma JoinerCanMove(s: State, i: nat, lo: nat, hi: nat)
    requires i < |s.readers| && s.readers[i].phase.Deciding? && s.readers[i].start < s.readers[i].end
    requires s.readers[i].MissingSpan(lo, hi) && !s.readers[i].NoneMissing()
    requires AllInFlight(s, s.readers[i])
    ensures CanMove(s)
  {
    var r, waits := s.readers[i], FoundWaits(s, s.readers[i], 0);
    var s' := WithReader(s, i, r.(phase := Waiting(waits), joined := true, awaited := waits));
    hide FoundWaits, CanMove, Finishing;
    assert Decided(s, i, lo, hi, s');
    StepExists(s, Decide(i, lo, hi), s');
  }

  lemma FetcherCanMove(s: State, i: nat, lo: nat, hi: nat)
    requires i < |s.readers| && s.readers[i].phase.Deciding? && s.readers[i].start < s.readers[i].end
    requires s.readers[i].MissingSpan(lo, hi) && !s.readers[i].NoneMissing()
    requires !AllInFlight(s, s.readers[i])
    ensures CanMove(s)
  {
    hide Widen, Published, CanMove, Finishing, FoundWaits;
    var r := s.readers[i];
    var span := Widen(s.promote, r.location, r.size, r.start, r.end, lo, hi);
    var s' := WithReader(s, i, r.(phase := Owning(|s.fetches|), started := r.started + 1, awaited := [|s.fetches|]))
              .(fetches := s.fetches + [Fetch(r.location, span.0, span.1, i, Requested)],
                inflight :=
                  if r.share then Published(s.inflight, r.location, span.0, span.1, |s.fetches|) else s.inflight);
    assert Decided(s, i, lo, hi, s');
    StepExists(s, Decide(i, lo, hi), s');
  }

  lemma CheckerCanMove(s: State, i: nat)
    requires i < |s.readers| && s.readers[i].phase == Waiting([])
    ensures CanMove(s)
  {
    var r := s.readers[i];
    if r.NoneMissing() {
      assert Next(s, Check(i, 0, 0), WithReader(s, i, Finishing(r)));
    } else {
      var lo, hi := MissingSpanExists(r);
      assert Next(s, Check(i, lo, hi),
                  WithReader(s, i,
                             r.(phase := Retrying(|s.fetches|), started := r.started + 1, retry := Some(|s.fetches|)))
                                       .(fetches := s.fetches + [Fetch(r.location, lo, hi, i, Requested)]));
    }
  }

  // Waiting for one another's fetches cannot deadlock: while a reader is unfinished, some
  // reader or fetch can move.
  lemma NoDeadlock(states: seq<State>, steps: seq<Step>, n: nat, i: nat)
    requires Run(states, steps) && n < |states| && i < |states[n].readers| && !states[n].readers[i].phase.Done?
    ensures CanMove(states[n])
  {
    var s := states[n];
    var r := s.readers[i];
    RunKeepsInv(states, steps, n);
    assert ReaderOk(s.objects, s.fetches, i, r);
    hide Inv, KnowledgeOk, Finishing, Filling, Probed, CanMove, Decided;
    match r.phase {
      case Probing(_) =>
        StepExists(s, Probe(i, true), WithReader(s, i, Probed(s, r, true)));
      case Deciding => DeciderCanMove(s, i);
      case Owning(f) =>
        if s.fetches[f].status.Finished? {
          StepExists(s, OwnFinished(i), WithReader(s.(inflight := Unpublished(s.inflight, s.fetches[f], f)), i,
                                                   Filling(r, s.fetches[f].status.answer).(phase := Waiting([]))));
        } else { FetchCanMove(s, f); }
      case Waiting(waits) =>
        if waits == [] {
          CheckerCanMove(s, i);
        } else if s.fetches[waits[0]].status.Finished? {
          StepExists(s, WaitFinished(i),
                     WithReader(s, i, Filling(r, s.fetches[waits[0]].status.answer).(phase := Waiting(waits[1..]))));
        } else { FetchCanMove(s, waits[0]); }
      case Retrying(f) =>
        var status := s.fetches[f].status;
        if status.Finished? {
          StepExists(s, RetryFinished(i),
                     WithReader(s, i, if status.answer.None? then r.(phase := Done(Errored), failed := true)
                                      else Finishing(Filling(r, status.answer))));
        } else { FetchCanMove(s, f); }
    }
  }

  lemma StepExists(s: State, step: Step, s': State)
    requires IsProgress(step) && Next(s, step, s')
    ensures CanMove(s)
  {
  }
}
