// The registry of raw objects and its retry schedule (raw_ingest.go, `rawRegistry`).
module RawRegistry {
  import opened Wrappers
  import opened Ordering

  const SECOND: int := 1_000_000_000
  const HOUR: int := 3600 * SECOND
  const RAW_PARSER_VERSION: string := "contextual-v1"

  datatype RawObject = RawObject(key: string, eTag: string, size: int)

  // Times are nanoseconds. A missing entry reads as the zero value.
  datatype Entry = Entry(eTag: string, size: int, status: string, parserVersion: string, records: int, attempts: int,
                         error: string, updatedAt: int, containerIds: seq<string>)

  const ZERO_ENTRY := Entry("", 0, "", "", 0, 0, "", 0, [])

  // One call of `set` for a key.
  datatype Call = Call(obj: RawObject, status: string, records: int, error: string, containerIds: seq<string>, now: int)

  predicate SameVersion(e: Entry, obj: RawObject) {
    e.eTag == obj.eTag && e.size == obj.size && e.parserVersion == RAW_PARSER_VERSION
  }

  // The entry that a call leaves behind; one that names no container keeps those named before.
  function Updated(e: Entry, call: Call): Entry {
    var attempts := if SameVersion(e, call.obj) then e.attempts else 0;
    Entry(call.obj.eTag, call.obj.size, call.status, RAW_PARSER_VERSION, call.records,
          if call.status == "processing" then attempts + 1 else attempts,
          call.error, call.now, if call.containerIds != [] then UniqueStrings(call.containerIds) else e.containerIds)
  }

  // The entry after a history of calls, starting from what a registry file held.
  function Replay(start: Entry, calls: seq<Call>): Entry {
    if calls == [] then start else Updated(Replay(start, calls[..|calls| - 1]), calls[|calls| - 1])
  }

  // The processing starts among the latest calls that name the version of `obj`; the
  // starting entry counts while nothing has named another version since.
  function StartsSinceChange(start: Entry, calls: seq<Call>, obj: RawObject): int {
    if calls == [] then (if SameVersion(start, obj) then start.attempts else 0)
    else
      var last := calls[|calls| - 1];
      if last.obj.eTag != obj.eTag || last.obj.size != obj.size then 0
      else (if last.status == "processing" then 1 else 0) + StartsSinceChange(start, calls[..|calls| - 1], obj)
  }

  // Attempts count the processing starts since the object's version last changed.
  lemma {:induction false} AttemptsCountStarts(start: Entry, calls: seq<Call>)
    requires calls != []
    ensures var e := Replay(start, calls);
      && SameVersion(e, calls[|calls| - 1].obj)
      && e.attempts == StartsSinceChange(start, calls, calls[|calls| - 1].obj)
    decreases |calls|
  {
    var earlier, last := calls[..|calls| - 1], calls[|calls| - 1];
    if earlier != [] {
      AttemptsCountStarts(start, earlier);
      StartsOfSameVersion(start, earlier, earlier[|earlier| - 1].obj, last.obj);
    }
  }

  lemma {:induction false} StartsOfSameVersion(start: Entry, calls: seq<Call>, a: RawObject, b: RawObject)
    ensures a.eTag == b.eTag && a.size == b.size ==>
      StartsSinceChange(start, calls, a) == StartsSinceChange(start, calls, b)
  {
    if calls != [] { StartsOfSameVersion(start, calls[..|calls| - 1], a, b); }
  }

  predicate Done(e: Option<Entry>, obj: RawObject) {
    e.Some? && e.value.status == "indexed" && SameVersion(e.value, obj)
  }

  function Power2(n: nat): nat { if n == 0 then 1 else 2 * Power2(n - 1) }

  // Thirty seconds doubled for every attempt after the first, at most an hour.
  function RetryDelay(attempts: int): int {
    Min(30 * SECOND * Power2(Max(attempts - 1, 0)), HOUR)
  }

  lemma {:induction false} Power2Grows(n: nat, m: nat)
    requires n <= m
    ensures 1 <= Power2(n) <= Power2(m)
    decreases m
  {
    if n < m { Power2Grows(n, m - 1); } else if n > 0 { Power2Grows(n - 1, m - 1); }
  }

  method ComputeRetryDelay(attempts: int) returns (delay: int)
    ensures delay == RetryDelay(attempts)
  {
    delay := 30 * SECOND;
    var i := 1;
    while i < attempts && delay < HOUR
      invariant 1 <= i && (i <= attempts || i == 1)
      invariant delay == 30 * SECOND * Power2(i - 1)
    {
      delay := delay * 2;
      i := i + 1;
    }
    if i < attempts { Power2Grows(i - 1, attempts - 1); }
    if delay > HOUR { delay := HOUR; }
  }

  // Whether the scan processes an object now.
  predicate DueAt(e: Option<Entry>, obj: RawObject, now: int, writeInterval: int) {
    if e.None? || e.value.parserVersion != RAW_PARSER_VERSION then true
    else if e.value.eTag != obj.eTag || e.value.size != obj.size then
      !(e.value.status == "indexed" && writeInterval > 0 && now < e.value.updatedAt + writeInterval)
    else if e.value.status == "indexed" then false
    else if e.value.status != "failed" then true
    else now >= e.value.updatedAt + RetryDelay(e.value.attempts)
  }

  // A done object is never due, and any other is due once the longer of an hour and the
  // write interval has passed since its last update. Being due lasts.
  lemma DueUnlessDone(e: Option<Entry>, obj: RawObject, now: int, writeInterval: int)
    ensures Done(e, obj) ==> !DueAt(e, obj, now, writeInterval)
    ensures !Done(e, obj) && (e.Some? ==> now >= e.value.updatedAt + Max(HOUR, writeInterval)) ==>
      DueAt(e, obj, now, writeInterval)
    ensures forall later :: later >= now && DueAt(e, obj, now, writeInterval) ==> DueAt(e, obj, later, writeInterval)
  {
  }

  // The n-th failed start in a row of one version is retried after exactly
  // min(30 s * 2^(n-1), 1 h).
  lemma RetryAfterFailure(start: Entry, calls: seq<Call>, now: int, writeInterval: int)
    requires calls != [] && calls[|calls| - 1].status == "failed"
    ensures var last := calls[|calls| - 1];
            var n := StartsSinceChange(start, calls, last.obj);
      DueAt(Some(Replay(start, calls)), last.obj, now, writeInterval) <==>
      now >= last.now + Min(30 * SECOND * Power2(Max(n - 1, 0)), HOUR)
  {
    AttemptsCountStarts(start, calls);
  }

  // A start that was interrupted is due again at once.
  lemma DueAfterInterruption(start: Entry, calls: seq<Call>, now: int, writeInterval: int)
    requires calls != [] && calls[|calls| - 1].status == "processing"
    ensures DueAt(Some(Replay(start, calls)), calls[|calls| - 1].obj, now, writeInterval)
  {
    AttemptsCountStarts(start, calls);
  }

  // The registry: its objects in memory and as last saved, each the replay of the calls
  // that reached it.
  class Registry {
    var objects: map<string, Entry>
    var saved: map<string, Entry>
    ghost const loaded: map<string, Entry>
    ghost var calls: map<string, seq<Call>>
    ghost var savedCalls: map<string, seq<Call>>

    ghost predicate Valid()
      reads this
    {
      && objects == Replayed(loaded, calls)
      && saved == Replayed(loaded, savedCalls)
    }

    constructor (file: map<string, Entry>)
      ensures Valid() && objects == saved == file && loaded == file
    {
      objects, saved, loaded := file, file, file;
      calls, savedCalls := map[], map[];
      new;
      assert Replayed(file, map[]) == file;
    }

    method Due(obj: RawObject, now: int, writeInterval: int) returns (due: bool)
      ensures due == DueAt(EntryFor(objects, obj.key), obj, now, writeInterval)
    {
      if obj.key !in objects || objects[obj.key].parserVersion != RAW_PARSER_VERSION { return true; }
      var e := objects[obj.key];
      if e.eTag != obj.eTag || e.size != obj.size {
        if e.status == "indexed" && writeInterval > 0 && now < e.updatedAt + writeInterval { return false; }
        return true;
      }
      if e.status == "indexed" { return false; }
      if e.status != "failed" { return true; }
      var delay := ComputeRetryDelay(e.attempts);
      due := !(now < e.updatedAt + delay);
    }

    // Records a call in memory and saves the registry; a failed save leaves the file as it was.
    // `calm` is a promise of the environment: saving does not fail.
    method Set(call: Call, calm: bool) returns (ok: bool)
      requires Valid()
      modifies this
      ensures Valid()
      ensures objects == old(objects)[call.obj.key := Updated(EntryOrZero(old(objects), call.obj.key), call)]
      ensures calls == old(calls)[call.obj.key := CallsFor(old(calls), call.obj.key) + [call]]
      ensures calm ==> ok
      ensures if ok then saved == objects && savedCalls == calls
        else saved == old(saved) && savedCalls == old(savedCalls)
    {
      var key := call.obj.key;
      ReplayOne(loaded, calls, call);
      objects := objects[key := Updated(EntryOrZero(objects, key), call)];
      calls := calls[key := CallsFor(calls, key) + [call]];
      var failed: bool := *;
      ok := !failed || calm;
      if ok {
        saved, savedCalls := objects, calls;
      }
    }

    // The process dies: memory is lost and the saved registry is loaded again.
    method Crash()
      requires Valid()
      modifies this
      ensures Valid() && objects == saved == old(saved) && calls == savedCalls == old(savedCalls)
    {
      objects, calls := saved, savedCalls;
    }
  }

  function EntryFor(objects: map<string, Entry>, key: string): Option<Entry> {
    if key in objects then Some(objects[key]) else None
  }

  function EntryOrZero(objects: map<string, Entry>, key: string): Entry {
    if key in objects then objects[key] else ZERO_ENTRY
  }

  function CallsFor(calls: map<string, seq<Call>>, key: string): seq<Call> {
    if key in calls then calls[key] else []
  }

  ghost function Replayed(loaded: map<string, Entry>, calls: map<string, seq<Call>>): map<string, Entry> {
    map key | key in loaded.Keys + calls.Keys :: Replay(EntryOrZero(loaded, key), CallsFor(calls, key))
  }

  lemma ReplaySnoc(start: Entry, history: seq<Call>, call: Call)
    ensures Replay(start, history + [call]) == Updated(Replay(start, history), call)
  {
    assert (history + [call])[..|history|] == history;
  }

  lemma NothingReplayed(start: Entry)
    ensures Replay(start, []) == start
  {
  }

  lemma ReplayOne(loaded: map<string, Entry>, calls: map<string, seq<Call>>, call: Call)
    ensures var key := call.obj.key;
            var calls' := calls[key := CallsFor(calls, key) + [call]];
      Replayed(loaded, calls') ==
      Replayed(loaded, calls)[key := Updated(EntryOrZero(Replayed(loaded, calls), key), call)]
  {
    hide Replay, Updated;
    var key := call.obj.key;
    var history, start := CallsFor(calls, key), EntryOrZero(loaded, key);
    ReplaySnoc(start, history, call);
    NothingReplayed(start);
    var before := Replayed(loaded, calls);
    assert EntryOrZero(before, key) == Replay(start, history);
    var left := Replayed(loaded, calls[key := history + [call]]);
    var right := before[key := Updated(EntryOrZero(before, key), call)];
    assert left.Keys == right.Keys;
    forall k | k in left
      ensures left[k] == right[k]
    {
    }
  }
}
