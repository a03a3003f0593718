// Crash-safe ingestion of raw objects: chunks, then messages, then the dedup state, with a
// crash or a failure possible after every step (raw_ingest.go, `process` and `indexGroups`;
// main.go, `flush`).
module IngestRuns {
  import opened Wrappers
  import opened Records
  import opened ContextUnits
  import opened ChunkIds
  import opened Ordering
  import opened Tables
  import opened RawIngest
  import TS = TokenSplitter
  import RR = RawRegistry

  // ---------- Where a run may stop ----------

  // The store after the first steps of writing some groups: their chunks (1), their messages
  // (2), their marks (3), the marks saved (4). A process that dies falls back to the saved marks.
  function FlushStage(cfg: Config, s: Store, groups: seq<ChunkGroup>, stage: nat, died: bool): Store {
    var marks := if stage >= 3 then MarkAll(s.dedup, groups) else s.dedup;
    var saved := if stage >= 4 then marks else s.saved;
    Store(if stage >= 1 then Upsert(s.chunks, AllChunkRows(cfg, groups)) else s.chunks,
          if stage >= 2 then Upsert(s.messages, AllMessageRows(cfg, groups)) else s.messages,
          if died then saved else marks, saved)
  }

  // Each stage changes one part of the store.
  lemma FlushStages(cfg: Config, s: Store, groups: seq<ChunkGroup>)
    ensures var at := (stage: nat) => FlushStage(cfg, s, groups, stage, false);
      && at(0) == s
      && at(1) == s.(chunks := Upsert(s.chunks, AllChunkRows(cfg, groups)))
      && at(2) == at(1).(messages := Upsert(s.messages, AllMessageRows(cfg, groups)))
      && at(3) == at(2).(dedup := MarkAll(s.dedup, groups))
      && at(4) == at(3).(saved := MarkAll(s.dedup, groups))
    ensures forall stage: nat ::
      FlushStage(cfg, s, groups, stage, true) ==
      FlushStage(cfg, s, groups, stage, false).(dedup := FlushStage(cfg, s, groups, stage, false).saved)
  {
  }

  // The store once groups are written, marked and saved; with none nothing is written.
  function After(cfg: Config, s: Store, groups: seq<ChunkGroup>): Store {
    if groups == [] then s else FlushStage(cfg, s, groups, 4, false)
  }

  function BatchSize(cfg: Config): nat { if cfg.embedBatch <= 0 then 32 else cfg.embedBatch }

  // The groups of the batch that begins at group n.
  function Batch(cfg: Config, groups: seq<ChunkGroup>, n: nat): seq<ChunkGroup>
    requires n <= |groups|
  {
    groups[n..Min(n + BatchSize(cfg), |groups|)]
  }

  // Where a run over some groups may have stopped: n of them were done, and the next batch
  // was at some stage.
  datatype Stop = Stop(done: nat, stage: nat)

  function StoppedAt(cfg: Config, s: Store, groups: seq<ChunkGroup>, stop: Stop, died: bool): Store
    requires stop.done <= |groups|
  {
    FlushStage(cfg, After(cfg, s, groups[..stop.done]), Batch(cfg, groups, stop.done), stop.stage, died)
  }

  lemma {:induction false} UpsertAppend(rows: Rows, a: seq<MemoryItem>, b: seq<MemoryItem>)
    ensures Upsert(rows, a + b) == Upsert(Upsert(rows, a), b)
  {
    if b == [] {
      assert a + b == a;
    } else {
      assert (a + b)[..|a + b| - 1] == a + b[..|b| - 1];
      UpsertAppend(rows, a, b[..|b| - 1]);
    }
  }

  lemma {:induction false} RowsAppend(cfg: Config, a: seq<ChunkGroup>, b: seq<ChunkGroup>)
    ensures AllChunkRows(cfg, a + b) == AllChunkRows(cfg, a) + AllChunkRows(cfg, b)
    ensures AllMessageRows(cfg, a + b) == AllMessageRows(cfg, a) + AllMessageRows(cfg, b)
  {
    hide ChunkRows, MessageRows;
    if b == [] {
      assert a + b == a;
    } else {
      assert (a + b)[..|a + b| - 1] == a + b[..|b| - 1];
      RowsAppend(cfg, a, b[..|b| - 1]);
    }
  }

  lemma {:induction false} MarkAllAppend(dedup: Hashes, a: seq<ChunkGroup>, b: seq<ChunkGroup>)
    ensures MarkAll(dedup, a + b) == MarkAll(MarkAll(dedup, a), b)
  {
    if b == [] {
      assert a + b == a;
    } else {
      assert (a + b)[..|a + b| - 1] == a + b[..|b| - 1];
      MarkAllAppend(dedup, a, b[..|b| - 1]);
    }
  }

  // Writing groups in two goes is writing them in one.
  lemma AfterAppend(cfg: Config, s: Store, a: seq<ChunkGroup>, b: seq<ChunkGroup>)
    requires b != []
    ensures FlushStage(cfg, After(cfg, s, a), b, 4, false) == After(cfg, s, a + b)
  {
    RowsAppend(cfg, a, b);
    UpsertAppend(s.chunks, AllChunkRows(cfg, a), AllChunkRows(cfg, b));
    UpsertAppend(s.messages, AllMessageRows(cfg, a), AllMessageRows(cfg, b));
    MarkAllAppend(s.dedup, a, b);
    hide AllChunkRows, AllMessageRows, MarkAll, Upsert;
    if a == [] { assert a + b == b; }
  }

  // ---------- Vectors ----------

  // Every chunk row holds the vector of its own text.
  ghost predicate Embedded(cfg: Config, chunks: Rows) {
    forall id :: id in chunks ==> chunks[id].vector == cfg.embed(cfg.docPrefix + chunks[id].text)
  }

  lemma {:induction false} UpsertEmbeds(cfg: Config, rows: Rows, items: seq<MemoryItem>)
    requires Embedded(cfg, rows) && forall x :: x in items ==> x.vector == cfg.embed(cfg.docPrefix + x.text)
    ensures Embedded(cfg, Upsert(rows, items))
  {
    if items != [] {
      var n := |items| - 1;
      assert items[n] in items && forall x :: x in items[..n] ==> x in items;
      UpsertEmbeds(cfg, rows, items[..n]);
    }
  }

  lemma ChunksAreEmbedded(cfg: Config, groups: seq<ChunkGroup>)
    ensures forall x :: x in AllChunkRows(cfg, groups) ==> x.vector == cfg.embed(cfg.docPrefix + x.text)
  {
    forall x | x in AllChunkRows(cfg, groups)
      ensures x.vector == cfg.embed(cfg.docPrefix + x.text)
    {
      RowsOf(cfg, groups, x);
    }
  }

  // Wherever a run stops, every chunk in the store has the vector of its own text if that was so
  // before.
  lemma StoppedIsEmbedded(cfg: Config, s: Store, groups: seq<ChunkGroup>, stop: Stop, died: bool)
    requires Embedded(cfg, s.chunks) && stop.done <= |groups|
    ensures Embedded(cfg, StoppedAt(cfg, s, groups, stop, died).chunks)
  {
    var first, next := groups[..stop.done], Batch(cfg, groups, stop.done);
    ChunksAreEmbedded(cfg, first);
    ChunksAreEmbedded(cfg, next);
    UpsertEmbeds(cfg, s.chunks, AllChunkRows(cfg, first));
    hide AllChunkRows, Embedded, Upsert;
    AfterRows(cfg, s, first);
    UpsertEmbeds(cfg, After(cfg, s, first).chunks, AllChunkRows(cfg, next));
  }

  // ---------- Consistent objects ----------

  // Of an object whose records with one id agree, every place where a flush may stop is on
  // the way to the finished store.
  lemma StageIsPartway(cfg: Config, units: seq<ChunkGroup>, base: Store, s: Store, groups: seq<ChunkGroup>, stage: nat,
                       died: bool)
    requires Setting(cfg, units, base) && Partway(cfg, units, base, s)
    requires forall g :: g in groups ==> g in PendingOf(units, base.dedup)
    ensures Partway(cfg, units, base, FlushStage(cfg, s, groups, stage, died))
  {
    hide Setting, Partway, PendingOf, AllChunkRows, AllMessageRows, MarkAll, Upsert, InPlace;
    var s1 := s.(chunks := Upsert(s.chunks, AllChunkRows(cfg, groups)));
    var s2 := s1.(messages := Upsert(s.messages, AllMessageRows(cfg, groups)));
    var s3 := s2.(dedup := MarkAll(s.dedup, groups));
    var s4 := s3.(saved := s3.dedup);
    WriteChunks(cfg, units, base, s, groups);
    WriteMessages(cfg, units, base, s1, groups);
    MarkWritten(cfg, units, base, s2, groups);
    SaveMarks(cfg, units, base, s3);
    var here :=
      if stage == 0 then s else if stage == 1 then s1 else if stage == 2 then s2 else if stage == 3 then s3 else s4;
    assert FlushStage(cfg, s, groups, stage, false) == here;
    SaveMarks(cfg, units, base, here);
    assert FlushStage(cfg, s, groups, stage, true) == here.(dedup := here.saved);
  }

  lemma AfterIsPartway(cfg: Config, units: seq<ChunkGroup>, base: Store, s: Store, groups: seq<ChunkGroup>)
    requires Setting(cfg, units, base) && Partway(cfg, units, base, s)
    requires forall g :: g in groups ==> g in PendingOf(units, base.dedup)
    ensures Partway(cfg, units, base, After(cfg, s, groups))
  {
    hide Setting, Partway, PendingOf, FlushStage;
    StageIsPartway(cfg, units, base, s, groups, 4, false);
  }

  lemma StoppedIsPartway(cfg: Config, units: seq<ChunkGroup>, base: Store, s: Store, stop: Stop, died: bool)
    requires Setting(cfg, units, base) && Partway(cfg, units, base, s) && stop.done <= |PendingOf(units, s.dedup)|
    ensures Partway(cfg, units, base, StoppedAt(cfg, s, PendingOf(units, s.dedup), stop, died))
  {
    hide Setting, Partway, FlushStage, After, Marked;
    var groups := PendingOf(units, s.dedup);
    forall g | g in groups
      ensures g in PendingOf(units, base.dedup)
    {
      StillPending(cfg, units, base, s, g);
    }
    hide PendingOf;
    assert forall g | g in groups[..stop.done] :: g in groups;
    assert forall g | g in Batch(cfg, groups, stop.done) :: g in groups;
    AfterIsPartway(cfg, units, base, s, groups[..stop.done]);
    StageIsPartway(cfg, units, base, After(cfg, s, groups[..stop.done]), Batch(cfg, groups, stop.done), stop.stage,
                   died);
  }

  lemma AllMarkedAfter(cfg: Config, units: seq<ChunkGroup>, s: Store)
    requires SameIdSameHash(units) && forall u :: u in units ==> WellFormed(u)
    ensures forall u :: u in units ==> Marked(After(cfg, s, PendingOf(units, s.dedup)).dedup, u)
  {
    var groups := PendingOf(units, s.dedup);
    forall u | u in units
      ensures Marked(MarkAll(s.dedup, groups), u)
    {
      MarkedAfter(units, s.dedup, groups, u);
      hide MarkAll, Marked;
      assert u in groups || Marked(s.dedup, u);
    }
  }

  // Whatever was done before, a run that completes leaves the finished store.
  lemma CompletesFromPartway(cfg: Config, units: seq<ChunkGroup>, base: Store, s: Store)
    requires Setting(cfg, units, base) && Partway(cfg, units, base, s)
    ensures var after := After(cfg, s, PendingOf(units, s.dedup));
      after.(saved := after.dedup) == Finished(cfg, units, base)
  {
    AllMarkedAfter(cfg, units, s);
    hide Partway, Marked, After, Finished;
    var groups := PendingOf(units, s.dedup);
    forall g | g in groups
      ensures g in PendingOf(units, base.dedup)
    {
      StillPending(cfg, units, base, s, g);
    }
    hide PendingOf, Setting;
    AfterIsPartway(cfg, units, base, s, groups);
    AllMarkedIsFinished(cfg, units, base, After(cfg, s, groups));
  }

  // ---------- Exactly when crashes do no harm ----------

  // The process dies once some groups are written, marked and saved, and the object is
  // processed again: the result is that of an uninterrupted run.
  ghost predicate CrashSafe(cfg: Config, units: seq<ChunkGroup>, base: Store) {
    forall n :: 0 <= n <= |PendingOf(units, base.dedup)| ==> RerunFinishes(cfg, units, base, n)
  }

  ghost predicate RerunFinishes(cfg: Config, units: seq<ChunkGroup>, base: Store, n: nat)
    requires n <= |PendingOf(units, base.dedup)|
  {
    Finished(cfg, units, After(cfg, base, PendingOf(units, base.dedup)[..n])) == Finished(cfg, units, base)
  }

  lemma AfterAllIsFinished(cfg: Config, units: seq<ChunkGroup>, base: Store)
    requires base.saved == base.dedup
    ensures After(cfg, base, PendingOf(units, base.dedup)) == Finished(cfg, units, base)
  {
    hide PendingOf;
  }

  // A crash between the last save and the registry's "indexed" makes the object run again
  // on the finished store. That changes nothing exactly when one id has one hash.
  lemma FinishedTwiceIff(cfg: Config, units: seq<ChunkGroup>, base: Store)
    requires forall u :: u in units ==> WellFormed(u)
    ensures Finished(cfg, units, Finished(cfg, units, base)) == Finished(cfg, units, base) <==> SameIdSameHash(units)
  {
    var once := Finished(cfg, units, base);
    var again := PendingOf(units, once.dedup);
    RerunWritesNothingIff(units, base.dedup);
    if again == [] {
      assert Finished(cfg, units, once) == once;
    } else {
      var u := again[|again| - 1];
      assert u in again;
      var key := RawDerivedKey(u.id);
      assert MarkAll(once.dedup, again)[key] == u.meta.contentHash by { KeyNotEmpty(u.id); }
      assert Finished(cfg, units, once).dedup == MarkAll(once.dedup, again);
    }
  }

  // The last of the groups leaves its own rows.
  lemma LastWritesItsRows(cfg: Config, s: Store, groups: seq<ChunkGroup>, n: nat)
    requires n < |groups| && WellFormed(groups[n])
    ensures var after, g := After(cfg, s, groups[..n + 1]), groups[n];
      && (forall row :: row in MessageRows(cfg, g) ==> row.id in after.messages && after.messages[row.id] == row)
      && (forall row :: row in ChunkRows(cfg, g) ==> row.id in after.chunks && after.chunks[row.id] == row)
  {
    hide AllChunkRows, AllMessageRows, MarkAll, Upsert, ChunkRows, MessageRows, After, WellFormed;
    var g := groups[n];
    assert groups[..n + 1] == groups[..n] + [g];
    AfterRows(cfg, s, groups[..n + 1]);
    RowsAppend(cfg, groups[..n], [g]);
    OneGroup(cfg, g);
    UpsertAppend(s.chunks, AllChunkRows(cfg, groups[..n]), ChunkRows(cfg, g));
    UpsertAppend(s.messages, AllMessageRows(cfg, groups[..n]), MessageRows(cfg, g));
    OneMessage(cfg, g);
    OwnRows(Upsert(s.messages, AllMessageRows(cfg, groups[..n])), MessageRows(cfg, g));
    ChunkIdsDiffer(cfg, g);
    OwnRows(Upsert(s.chunks, AllChunkRows(cfg, groups[..n])), ChunkRows(cfg, g));
  }

  lemma AfterRows(cfg: Config, s: Store, groups: seq<ChunkGroup>)
    ensures After(cfg, s, groups).chunks == Upsert(s.chunks, AllChunkRows(cfg, groups))
    ensures After(cfg, s, groups).messages == Upsert(s.messages, AllMessageRows(cfg, groups))
  {
    if groups == [] { assert AllChunkRows(cfg, groups) == [] && AllMessageRows(cfg, groups) == []; }
  }

  lemma OneMessage(cfg: Config, g: ChunkGroup)
    requires WellFormed(g)
    ensures forall a, b :: a in MessageRows(cfg, g) && b in MessageRows(cfg, g) && a.id == b.id ==> a == b
  {
    forall a, b | a in MessageRows(cfg, g) && b in MessageRows(cfg, g)
      ensures a == b
    {
      MessageIsUnit(cfg, g, a);
      MessageIsUnit(cfg, g, b);
    }
  }

  lemma OneGroup(cfg: Config, g: ChunkGroup)
    ensures AllChunkRows(cfg, [g]) == ChunkRows(cfg, g) && AllMessageRows(cfg, [g]) == MessageRows(cfg, g)
  {
    assert [g][..0] == [];
    assert AllChunkRows(cfg, []) == [] && AllMessageRows(cfg, []) == [];
  }

  lemma ChunkIdsDiffer(cfg: Config, g: ChunkGroup)
    ensures forall a, b :: a in ChunkRows(cfg, g) && b in ChunkRows(cfg, g) && a.id == b.id ==> a == b
  {
    forall a, b | a in ChunkRows(cfg, g) && b in ChunkRows(cfg, g) && a.id == b.id
      ensures a == b
    {
      var i := RowIndex(cfg, g, a);
      var j := RowIndex(cfg, g, b);
      ChunkIdInjective(g.id, i, g.id, j);
    }
  }

  // Rows with distinct ids are all there after they were written.
  lemma OwnRows(rows: Rows, items: seq<MemoryItem>)
    requires forall a, b :: a in items && b in items && a.id == b.id ==> a == b
    ensures forall row :: row in items ==> row.id in Upsert(rows, items) && Upsert(rows, items)[row.id] == row
  {
    forall row | row in items
      ensures row.id in Upsert(rows, items) && Upsert(rows, items)[row.id] == row
    {
      UpsertAt(rows, items, row.id);
      assert HasId(items, row.id);
    }
  }

  // Once a unit is written, no record with its id is pending any more, and a rerun leaves
  // the rows of that id alone.
  lemma WrittenRowsStay(cfg: Config, units: seq<ChunkGroup>, base: Store, n: nat)
    requires (forall u :: u in units ==> WellFormed(u)) && SameIdSameHash(units)
    requires n < |PendingOf(units, base.dedup)|
    ensures var u := PendingOf(units, base.dedup)[n];
            var done := Finished(cfg, units, After(cfg, base, PendingOf(units, base.dedup)[..n + 1]));
      && (forall row :: row in MessageRows(cfg, u) ==> row.id in done.messages && done.messages[row.id] == row)
      && (forall row :: row in ChunkRows(cfg, u) ==> row.id in done.chunks && done.chunks[row.id] == row)
  {
    var groups := PendingOf(units, base.dedup);
    var u := groups[n];
    assert u in groups;
    var after := After(cfg, base, groups[..n + 1]);
    var rest := PendingOf(units, after.dedup);
    LastWritesItsRows(cfg, base, groups, n);
    forall v | v in rest
      ensures v.id != u.id
    {
      MarkedAfter(units, base.dedup, groups[..n + 1], v);
      assert groups[..n + 1][n] == u;
    }
    forall row | row in MessageRows(cfg, u)
      ensures !HasId(AllMessageRows(cfg, rest), row.id)
    {
      NoMessageOf(cfg, rest, u, row);
    }
    forall row | row in ChunkRows(cfg, u)
      ensures !HasId(AllChunkRows(cfg, rest), row.id)
    {
      NoChunkOf(cfg, rest, u, row);
    }
    hide PendingOf, AllChunkRows, AllMessageRows, ChunkRows, MessageRows, After, MarkAll, HasId, WellFormed,
      SameIdSameHash;
    forall row | row in MessageRows(cfg, u)
      ensures row.id in Upsert(after.messages, AllMessageRows(cfg, rest))
        && Upsert(after.messages, AllMessageRows(cfg, rest))[row.id] == row
    {
      UpsertAt(after.messages, AllMessageRows(cfg, rest), row.id);
    }
    forall row | row in ChunkRows(cfg, u)
      ensures row.id in Upsert(after.chunks, AllChunkRows(cfg, rest))
        && Upsert(after.chunks, AllChunkRows(cfg, rest))[row.id] == row
    {
      UpsertAt(after.chunks, AllChunkRows(cfg, rest), row.id);
    }
  }

  lemma NoMessageOf(cfg: Config, groups: seq<ChunkGroup>, u: ChunkGroup, row: MemoryItem)
    requires WellFormed(u) && (forall g :: g in groups ==> WellFormed(g) && g.id != u.id) && row in MessageRows(cfg, u)
    ensures !HasId(AllMessageRows(cfg, groups), row.id)
  {
    if other :| other in AllMessageRows(cfg, groups) && other.id == row.id {
      RowsOf(cfg, groups, other);
      var g :| g in groups && other in MessageRows(cfg, g);
      MessageIsUnit(cfg, g, other);
      MessageIsUnit(cfg, u, row);
    }
  }

  lemma MessageIsUnit(cfg: Config, u: ChunkGroup, row: MemoryItem)
    requires WellFormed(u) && row in MessageRows(cfg, u)
    ensures row.id == u.id && row == MessageRow(cfg, u, u.pending[0]) && row.metadata.chunkCount == |Texts(cfg, u)|
    ensures MessageRows(cfg, u) == [row]
  {
    hide Texts;
  }

  lemma NoChunkOf(cfg: Config, groups: seq<ChunkGroup>, u: ChunkGroup, row: MemoryItem)
    requires (forall g :: g in groups ==> g.id != u.id) && row in ChunkRows(cfg, u)
    ensures !HasId(AllChunkRows(cfg, groups), row.id)
  {
    if other :| other in AllChunkRows(cfg, groups) && other.id == row.id {
      RowsOf(cfg, groups, other);
      var g :| g in groups && other in ChunkRows(cfg, g);
      var i := RowIndex(cfg, g, other);
      var j := RowIndex(cfg, u, row);
      ChunkIdInjective(g.id, i, u.id, j);
    }
  }

  // Units whose rows are all in one store write the same rows when they share an id.
  lemma RowsInOneStore(cfg: Config, u: ChunkGroup, v: ChunkGroup, done: Store)
    requires WellFormed(u) && WellFormed(v) && u.id == v.id && InPlace(cfg, done, u) && InPlace(cfg, done, v)
    ensures ChunkRows(cfg, u) == ChunkRows(cfg, v) && MessageRows(cfg, u) == MessageRows(cfg, v)
  {
    var a, b := MessageRow(cfg, u, u.pending[0]), MessageRow(cfg, v, v.pending[0]);
    assert MessageRows(cfg, u)[0] == a && MessageRows(cfg, v)[0] == b;
    MessageIsUnit(cfg, u, a);
    MessageIsUnit(cfg, v, b);
    assert a == b;
    var c, d := ChunkRows(cfg, u), ChunkRows(cfg, v);
    assert |c| == |d|;
    forall i | 0 <= i < |c|
      ensures c[i] == d[i]
    {
      assert c[i] in c && d[i] in d;
      assert c[i].id == d[i].id;
    }
  }

  lemma PairAgrees(cfg: Config, units: seq<ChunkGroup>, base: Store, i: nat, j: nat)
    requires (forall u :: u in units ==> WellFormed(u)) && SameIdSameHash(units) && CrashSafe(cfg, units, base)
    requires i < |PendingOf(units, base.dedup)| && j < |PendingOf(units, base.dedup)|
    ensures var u, v := PendingOf(units, base.dedup)[i], PendingOf(units, base.dedup)[j];
      u.id == v.id ==> ChunkRows(cfg, u) == ChunkRows(cfg, v) && MessageRows(cfg, u) == MessageRows(cfg, v)
  {
    var groups := PendingOf(units, base.dedup);
    var u, v := groups[i], groups[j];
    assert u in groups && v in groups;
    WrittenRowsStay(cfg, units, base, i);
    WrittenRowsStay(cfg, units, base, j);
    assert RerunFinishes(cfg, units, base, i + 1) && RerunFinishes(cfg, units, base, j + 1);
    hide Finished, After, PendingOf, SameIdSameHash, ChunkRows, MessageRows, CrashSafe, WellFormed;
    if u.id == v.id { RowsInOneStore(cfg, u, v, Finished(cfg, units, base)); }
  }

  lemma CrashSafeHashes(cfg: Config, units: seq<ChunkGroup>, base: Store)
    requires (forall u :: u in units ==> WellFormed(u)) && base.saved == base.dedup && CrashSafe(cfg, units, base)
    ensures SameIdSameHash(units)
  {
    hide Finished, After, PendingOf, WellFormed, SameIdSameHash;
    var groups := PendingOf(units, base.dedup);
    assert groups[..|groups|] == groups;
    assert RerunFinishes(cfg, units, base, |groups|);
    AfterAllIsFinished(cfg, units, base);
    FinishedTwiceIff(cfg, units, base);
  }

  // Crashes do no harm, whatever the size of the batches, exactly when the object's records
  // with one id agree: all in their hash, and those to be written in their rows.
  lemma CrashSafeIff(cfg: Config, units: seq<ChunkGroup>, base: Store)
    requires (forall u :: u in units ==> WellFormed(u)) && base.saved == base.dedup
    ensures CrashSafe(cfg, units, base) <==> Consistent(cfg, units, base)
  {
    hide RerunFinishes, WellFormed, PendingOf, SameIdSameHash, ChunkRows, MessageRows;
    var groups := PendingOf(units, base.dedup);
    if CrashSafe(cfg, units, base) {
      CrashSafeHashes(cfg, units, base);
      forall u, v | u in groups && v in groups && u.id == v.id
        ensures ChunkRows(cfg, u) == ChunkRows(cfg, v) && MessageRows(cfg, u) == MessageRows(cfg, v)
      {
        var i :| 0 <= i < |groups| && groups[i] == u;
        var j :| 0 <= j < |groups| && groups[j] == v;
        PairAgrees(cfg, units, base, i, j);
      }
    }
    if Consistent(cfg, units, base) {
      forall n | 0 <= n <= |groups|
        ensures RerunFinishes(cfg, units, base, n)
      {
        ConsistentReruns(cfg, units, base, n);
      }
    }
  }

  lemma ConsistentReruns(cfg: Config, units: seq<ChunkGroup>, base: Store, n: nat)
    requires Setting(cfg, units, base) && n <= |PendingOf(units, base.dedup)|
    ensures RerunFinishes(cfg, units, base, n)
  {
    hide Partway, Marked, After, Finished;
    var groups := PendingOf(units, base.dedup);
    assert forall g | g in groups[..n] :: g in groups;
    hide PendingOf, Setting;
    BaseIsFirst(cfg, units, base);
    AfterIsPartway(cfg, units, base, base, groups[..n]);
    var s := After(cfg, base, groups[..n]);
    CompletesFromPartway(cfg, units, base, s);
    FinishedIsAfter(cfg, units, s);
  }

  lemma BaseIsFirst(cfg: Config, units: seq<ChunkGroup>, base: Store)
    requires Setting(cfg, units, base)
    ensures Partway(cfg, units, base, base)
  {
    hide Finished;
    BaseIsPartway(cfg, units, base);
  }

  lemma FinishedIsAfter(cfg: Config, units: seq<ChunkGroup>, s: Store)
    ensures var after := After(cfg, s, PendingOf(units, s.dedup));
      Finished(cfg, units, s) == after.(saved := after.dedup)
  {
    hide PendingOf, Marked;
    if PendingOf(units, s.dedup) == [] {
      assert AllChunkRows(cfg, []) == [] && AllMessageRows(cfg, []) == [];
    }
  }

  // ---------- The ingestor ----------

  datatype Progress = Completed | Errored | Crashed

  // `calm` is a promise of the environment: no request and no save fails during the call, and
  // the process does not die.
  class RawIngestor {
    const cfg: Config
    const registry: RR.Registry
    var chunks: Rows
    var messages: Rows
    var dedup: Hashes
    var saved: Hashes

    constructor (cfg: Config, registry: RR.Registry, chunks: Rows, messages: Rows, saved: Hashes)
      ensures this.cfg == cfg && this.registry == registry && S() == Store(chunks, messages, saved, saved)
    {
      this.cfg, this.registry, this.chunks, this.messages := cfg, registry, chunks, messages;
      this.dedup, this.saved := saved, saved;
    }

    ghost function S(): Store
      reads this
    {
      Store(chunks, messages, dedup, saved)
    }

    // In every state a message's chunks are there.
    ghost predicate Valid()
      reads this, registry
    {
      ValidConfig(cfg) && registry.Valid() && ChunksPresent(S())
    }

    // The process dies: the dedup state and the registry are loaded again from disk.
    method Crash()
      requires Valid()
      modifies this`dedup, registry
      ensures Valid() && S() == old(S()).(dedup := old(saved))
      ensures registry.objects == registry.saved == old(registry.saved)
    {
      dedup := saved;
      registry.Crash();
    }

    // Writes chunks, then messages. Any step may fail, and the process may die after any of
    // them; `stage` says how far it came.
    method UpsertRecords(ghost groups: seq<ChunkGroup>, messageRows: seq<MemoryItem>, chunkRows: seq<MemoryItem>,
                         calm: bool)
      returns (p: Progress, ghost stage: nat)
      requires Valid() && forall g :: g in groups ==> WellFormed(g)
      requires messageRows == AllMessageRows(cfg, groups) && chunkRows == AllChunkRows(cfg, groups)
      modifies this, registry
      ensures Valid() && S() == FlushStage(cfg, old(S()), groups, stage, p.Crashed?)
      ensures p.Completed? ==> stage == 2
      ensures calm ==> p.Completed?
    {
      FlushStages(cfg, S(), groups);
      hide ChunksPresent, Upsert, AllChunkRows, AllMessageRows, WellFormed, FlushStage, RR.Replayed, ValidConfig;
      stage := 0;
      p := Interrupted(calm);
      if !p.Completed? { return; }
      ChunksWritten(cfg, S(), groups);
      chunks := Upsert(chunks, chunkRows);
      stage := 1;
      p := Interrupted(calm);
      if !p.Completed? { return; }
      MessagesHaveChunks(cfg, S(), groups);
      messages := Upsert(messages, messageRows);
      stage := 2;
    }

    // Writes the rows, then marks and saves the hashes.
    method Flush(groups: seq<ChunkGroup>, messageRows: seq<MemoryItem>, chunkRows: seq<MemoryItem>, calm: bool)
      returns (p: Progress, ghost stage: nat)
      requires Valid() && forall g :: g in groups ==> WellFormed(g)
      requires messageRows == AllMessageRows(cfg, groups) && chunkRows == AllChunkRows(cfg, groups)
      modifies this, registry
      ensures Valid() && S() == FlushStage(cfg, old(S()), groups, stage, p.Crashed?)
      ensures p.Completed? ==> stage == 4
      ensures calm ==> p.Completed?
    {
      FlushStages(cfg, S(), groups);
      hide ChunksPresent, AllChunkRows, AllMessageRows, MarkAll, WellFormed, FlushStage, RR.Replayed, ValidConfig;
      p, stage := UpsertRecords(groups, messageRows, chunkRows, calm);
      if !p.Completed? { return; }
      p := Interrupted(calm);
      if !p.Completed? { return; }
      ghost var written := S();
      MarkRows(groups);
      SameChunks(written, S());
      stage := 3;
      p := Interrupted(calm);
      if !p.Completed? { return; }
      saved := dedup;
      SameChunks(written, S());
      stage := 4;
      p := Interrupted(calm);
      if p.Errored? { p := Completed; }
    }

    // Between two steps the next one may fail or the process may die.
    method Interrupted(calm: bool) returns (p: Progress)
      requires Valid()
      modifies this`dedup, registry
      ensures Valid() && S() == if p.Crashed? then old(S()).(dedup := old(saved)) else old(S())
      ensures !p.Crashed? ==> registry.objects == old(registry.objects) && registry.saved == old(registry.saved)
      ensures calm ==> p.Completed?
    {
      hide ChunksPresent;
      ghost var before := S();
      var died: bool, failed: bool := *, *;
      if died && !calm {
        Crash();
        return Crashed;
      }
      p := if failed && !calm then Errored else Completed;
    }

    // Splits, embeds and writes a batch of groups.
    method IndexGroups(groups: seq<ChunkGroup>, calm: bool) returns (p: Progress, ghost stage: nat)
      requires Valid() && forall g :: g in groups ==> WellFormed(g)
      modifies this, registry
      ensures Valid() && S() == FlushStage(cfg, old(S()), groups, stage, p.Crashed?)
      ensures p.Completed? ==> stage == 4
      ensures calm ==> p.Completed?
    {
      FlushStages(cfg, S(), groups);
      hide ChunkRows, MessageRows, ChunksPresent, WellFormed, FlushStage, RR.Replayed, ValidConfig, Upsert, MarkAll;
      var messageRows: seq<MemoryItem> := [];
      var chunkRows: seq<MemoryItem> := [];
      for k := 0 to |groups|
        invariant Valid() && S() == old(S())
        invariant chunkRows == AllChunkRows(cfg, groups[..k]) && messageRows == AllMessageRows(cfg, groups[..k])
      {
        assert groups[..k + 1][..k] == groups[..k];
        var failed: bool := *;
        if failed && !calm { return Errored, 0; }
        var texts := TextsOf(groups[k]);
        var built := BuildChunks(groups[k], texts);
        chunkRows := chunkRows + built;
        messageRows := messageRows + MessageRows(cfg, groups[k]);
      }
      assert groups[..|groups|] == groups;
      p, stage := Flush(groups, messageRows, chunkRows, calm);
    }

    // A group's chunks under the budget its header leaves.
    method TextsOf(group: ChunkGroup) returns (texts: seq<string>)
      requires WellFormed(group)
      ensures texts == Texts(cfg, group)
    {
      HeadedUnitsSplit(cfg, group);
      var r := TS.SplitTokenChunks(s => Some(cfg.countTokens(s)), group.text, Budget(cfg, group.header));
      texts := r.chunks;
    }

    method BuildChunks(group: ChunkGroup, texts: seq<string>) returns (rows: seq<MemoryItem>)
      requires texts == Texts(cfg, group)
      ensures rows == ChunkRows(cfg, group)
    {
      hide Texts;
      rows := [];
      for i := 0 to |texts|
        invariant rows == ChunkRows(cfg, group)[..i]
      {
        var body := JoinHeader(group.header, texts[i]);
        var metadata :=
          group.meta.(contentHash := cfg.codec.hash(texts[i]), messageId := group.id, chunkIndex := i,
                      chunkCount := |texts|);
        rows := rows + [MemoryItem(ChunkId(group.id, i), cfg.embed(cfg.docPrefix + body), body, metadata)];
      }
    }

    // Batch after batch, up to the first that fails.
    method IndexBatches(groups: seq<ChunkGroup>, calm: bool) returns (p: Progress, ghost stop: Stop)
      requires Valid() && forall g :: g in groups ==> WellFormed(g)
      modifies this, registry
      ensures Valid() && stop.done <= |groups|
      ensures S() == StoppedAt(cfg, old(S()), groups, stop, p.Crashed?)
      ensures p.Completed? ==> stop == Stop(|groups|, 0) && S() == After(cfg, old(S()), groups)
      ensures calm ==> p.Completed?
    {
      hide FlushStage, After, Valid, WellFormed;
      var batch := if cfg.embedBatch <= 0 then 32 else cfg.embedBatch;
      var start := 0;
      p := Completed;
      NothingAfter(cfg, S());
      assert groups[..0] == [];
      while start < |groups|
        invariant Valid() && 0 <= start && p.Completed?
        invariant S() == After(cfg, old(S()), groups[..Min(start, |groups|)])
        decreases |groups| - start
      {
        var end := Min(start + batch, |groups|);
        assert forall g | g in groups[start..end] :: g in groups;
        ghost var stage;
        p, stage := IndexGroups(groups[start..end], calm);
        stop := Stop(start, stage);
        if !p.Completed? { return; }
        AfterAppend(cfg, old(S()), groups[..start], groups[start..end]);
        assert groups[..end] == groups[..start] + groups[start..end];
        start := start + batch;
      }
      assert groups[..|groups|] == groups;
      stop := Stop(|groups|, 0);
      StoppedAtEnd(cfg, old(S()), groups);
    }

    // One attempt at an object version whose parse is `items`. It stops somewhere on the way
    // through the pending units; once it completes they are all written and the registry
    // has the version as done. An object over the size limit never completes and writes
    // nothing; one within it completes unless something fails.
    method Process(obj: RR.RawObject, items: seq<MemoryItem>, calm: bool) returns (p: Progress, ghost stop: Stop)
      requires Valid()
      modifies this, registry
      ensures Valid()
      ensures var groups := PendingOf(Units(cfg.codec, items), old(dedup));
        && stop.done <= |groups|
        && S() == StoppedAt(cfg, old(S()), groups, stop, p.Crashed?)
        && (p.Completed? ==> S() == After(cfg, old(S()), groups))
      ensures p.Completed? ==>
        RR.Done(RR.EntryFor(registry.objects, obj.key), obj) && registry.saved == registry.objects
      ensures p.Completed? ==> Lists(registry.objects[obj.key], items) && registry.objects[obj.key].records == |items|
      ensures calm ==> (p.Completed? <==> obj.size <= cfg.maxObjectBytes) && !p.Crashed?
      ensures obj.size > cfg.maxObjectBytes ==>
        !p.Completed? && S() == if p.Crashed? then old(S()).(dedup := old(saved)) else old(S())
    {
      hide StoppedAt, After, ChunksPresent, PendingOf, Units, ValidConfig, RR.Replayed, WellFormed;
      ghost var before, todo := S(), PendingOf(Units(cfg.codec, items), dedup);
      StoppedAtStart(cfg, before, todo);
      stop := Stop(0, 0);
      var now: int := *;
      var ok := registry.Set(RR.Call(obj, "processing", 0, "", [], now), calm);
      p := Interrupted(calm);
      if p.Crashed? { return; }
      if !ok || obj.size > cfg.maxObjectBytes || p.Errored? { return Errored, stop; }
      var groups := GroupsOf(items);
      p, stop := IndexBatches(groups, calm);
      if !p.Completed? { return; }
      StoppedAtEnd(cfg, before, groups);
      now := *;
      ghost var entries := registry.objects;
      var names := ContainerIds(items);
      ok := registry.Set(RR.Call(obj, "indexed", |items|, "", names, now), calm);
      IndexedIsDone(RR.EntryOrZero(entries, obj.key), RR.Call(obj, "indexed", |items|, "", names, now));
      AllListed(RR.EntryOrZero(entries, obj.key), RR.Call(obj, "indexed", |items|, "", names, now), items);
      p := Interrupted(calm);
      if p.Crashed? { return; }
      p := if ok then Completed else Errored;
    }

    // The containers of a parse's records, sorted and once each.
    method ContainerIds(items: seq<MemoryItem>) returns (ids: seq<string>)
      ensures ids == UniqueStrings(ContainersOf(items))
    {
      var names: seq<string> := [];
      for i := 0 to |items|
        invariant names == ContainersOf(items[..i])
      {
        assert items[..i + 1][..i] == items[..i];
        if items[i].metadata.containerId != "" { names := names + [items[i].metadata.containerId]; }
      }
      assert items[..|items|] == items;
      ids := SortUnique(names);
    }

    // The units of a parse that the dedup state does not know.
    method GroupsOf(items: seq<MemoryItem>) returns (groups: seq<ChunkGroup>)
      requires ValidConfig(cfg)
      ensures groups == PendingOf(Units(cfg.codec, items), dedup) && forall g :: g in groups ==> WellFormed(g)
    {
      var seen := dedup;
      var pending: (MemoryItem, string) -> bool :=
        (item: MemoryItem, hash: string) => !Seen(seen, RawDerivedKey(item.id), hash);
      groups := ChunkGroups(cfg.codec, items, pending);
      hide PendingOf, Units;
      FilterIsPending(cfg.codec, items, seen, pending, |items|);
      AllUnits(cfg.codec, items);
      PendingAreWellFormed(cfg, items, seen);
    }

    method RecordFailure(obj: RR.RawObject, calm: bool) returns (ok: bool)
      requires Valid()
      modifies registry
      ensures Valid() && S() == old(S()) && Failed(RR.EntryFor(registry.objects, obj.key), obj)
    {
      hide ChunksPresent, RR.Updated, RR.Replayed, ValidConfig, Failed;
      var now: int := *;
      FailedIsRecorded(RR.EntryOrZero(registry.objects, obj.key), RR.Call(obj, "failed", 0, "error", [], now));
      ok := registry.Set(RR.Call(obj, "failed", 0, "error", [], now), calm);
    }

    // Attempts at one object version, each of which may fail or crash anywhere. If its
    // records with one id agree and the dedup state was saved, the attempt that completes
    // leaves the store and the dedup state of an uninterrupted run, and the saved state too
    // unless an attempt had failed to save it. An object over the size limit is never indexed;
    // one within it is at the first attempt unless something fails.
    method Ingest(obj: RR.RawObject, items: seq<MemoryItem>, attempts: nat, calm: bool)
      returns (indexed: bool, ghost errored: bool)
      requires Valid()
      modifies this, registry
      ensures Valid()
      ensures indexed ==> RR.Done(RR.EntryFor(registry.objects, obj.key), obj) && registry.saved == registry.objects
      ensures old(saved) == old(dedup) && Consistent(cfg, Units(cfg.codec, items), old(S())) ==>
        && Partway(cfg, Units(cfg.codec, items), old(S()), S())
        && (indexed ==> S().(saved := dedup) == Finished(cfg, Units(cfg.codec, items), old(S())))
        && (indexed && !errored ==> S() == Finished(cfg, Units(cfg.codec, items), old(S())))
      ensures obj.size > cfg.maxObjectBytes ==> !indexed && chunks == old(chunks) && messages == old(messages)
      ensures calm && attempts > 0 && obj.size <= cfg.maxObjectBytes ==> indexed && !errored
      ensures Embedded(cfg, old(chunks)) ==> Embedded(cfg, chunks)
    {
      ghost var base, units := S(), Units(cfg.codec, items);
      UnitsAreWellFormed(cfg, items);
      ghost var agree := saved == dedup && Consistent(cfg, units, base);
      assert agree ==> Setting(cfg, units, base);
      hide Setting, Partway, Embedded, Finished, Units, PendingOf, Consistent, Valid, RR.Done, OnTheWay;
      if agree { BaseIsPartway(cfg, units, base); }
      StartsOut(cfg, units, base, agree);
      indexed, errored := false, false;
      for k := 0 to attempts
        invariant Valid() && !indexed && OnTheWay(cfg, units, base, S(), agree, errored, obj.size > cfg.maxObjectBytes)
        invariant calm && obj.size <= cfg.maxObjectBytes ==> k == 0 && !errored
      {
        var p := Attempt(obj, items, calm, base, agree, errored);
        errored := errored || p.Errored?;
        if p.Completed? {
          indexed := true;
          break;
        }
      }
      WayGone(cfg, units, base, S(), agree, errored, obj.size > cfg.maxObjectBytes);
    }

    // One attempt and the record of its failure.
    method Attempt(obj: RR.RawObject, items: seq<MemoryItem>, calm: bool, ghost base: Store, ghost agree: bool,
                   ghost errored: bool)
      returns (p: Progress)
      requires Valid() && (agree ==> Setting(cfg, Units(cfg.codec, items), base))
      requires OnTheWay(cfg, Units(cfg.codec, items), base, S(), agree, errored, obj.size > cfg.maxObjectBytes)
      modifies this, registry
      ensures Valid()
      ensures OnTheWay(cfg, Units(cfg.codec, items), base, S(), agree, errored || p.Errored?,
                       obj.size > cfg.maxObjectBytes)
      ensures p.Completed? ==>
        && RR.Done(RR.EntryFor(registry.objects, obj.key), obj) && obj.size <= cfg.maxObjectBytes
        && registry.saved == registry.objects
        && (agree ==> S().(saved := S().dedup) == Finished(cfg, Units(cfg.codec, items), base))
      ensures calm && obj.size <= cfg.maxObjectBytes ==> p.Completed?
    {
      hide Partway, Setting, Finished, Units, PendingOf, StoppedAt, After, Lists, Valid, Embedded, RR.Done, Failed;
      ghost var s, units := S(), Units(cfg.codec, items);
      ghost var stop;
      p, stop := Process(obj, items, calm);
      Attempted(cfg, units, base, s, stop, p.Crashed?, agree);
      if p.Errored? { var ok := RecordFailure(obj, calm); }
    }

    // One scan of an object: it is processed when it is due. A version that is done is left
    // alone, and so is the store.
    method Scan(obj: RR.RawObject, items: seq<MemoryItem>, now: int, writeInterval: int, calm: bool)
      returns (ghost p: Option<Progress>)
      requires Valid()
      modifies this, registry
      ensures Valid()
      ensures p.Some? <==> RR.DueAt(RR.EntryFor(old(registry.objects), obj.key), obj, now, writeInterval)
      ensures p.None? ==> S() == old(S()) && registry.objects == old(registry.objects)
      ensures RR.Done(RR.EntryFor(old(registry.objects), obj.key), obj) ==> p.None?
      ensures p == Some(Completed) ==>
        RR.Done(RR.EntryFor(registry.objects, obj.key), obj) && registry.saved == registry.objects
      ensures p == Some(Errored) ==> Failed(RR.EntryFor(registry.objects, obj.key), obj)
      ensures calm && p.Some? ==> p.value == if obj.size <= cfg.maxObjectBytes then Completed else Errored
    {
      hide ChunksPresent, StoppedAt, After, PendingOf, Units;
      RR.DueUnlessDone(RR.EntryFor(registry.objects, obj.key), obj, now, writeInterval);
      var due := registry.Due(obj, now, writeInterval);
      if !due { return None; }
      var progress;
      ghost var stop;
      progress, stop := Process(obj, items, calm);
      if progress.Errored? {
        var ok := RecordFailure(obj, calm);
      }
      p := Some(progress);
    }

    // Processing a version again on a store that has all its marks changes nothing.
    method IngestAgain(obj: RR.RawObject, items: seq<MemoryItem>, calm: bool) returns (p: Progress)
      requires Valid()
      modifies this, registry
      ensures Valid()
      ensures PendingOf(Units(cfg.codec, items), old(dedup)) == [] && old(saved) == old(dedup) ==> S() == old(S())
      ensures calm && obj.size <= cfg.maxObjectBytes ==> p.Completed?
    {
      ghost var s := S();
      ghost var groups := PendingOf(Units(cfg.codec, items), dedup);
      ghost var stop;
      hide PendingOf, Units, ChunksPresent;
      p, stop := Process(obj, items, calm);
      if groups == [] && s.saved == s.dedup { NothingStopped(cfg, s, stop, p.Crashed?); }
    }

    method MarkRows(groups: seq<ChunkGroup>)
      modifies this`dedup
      ensures dedup == MarkAll(old(dedup), groups)
    {
      for i := 0 to |groups|
        invariant dedup == MarkAll(old(dedup), groups[..i])
      {
        assert groups[..i + 1][..i] == groups[..i];
        dedup := Mark(dedup, RawDerivedKey(groups[i].id), groups[i].meta.contentHash);
      }
      assert groups[..|groups|] == groups;
    }
  }

  // The containers that records name, in order.
  function ContainersOf(items: seq<MemoryItem>): seq<string> {
    if items == [] then []
    else
      var last := items[|items| - 1].metadata.containerId;
      ContainersOf(items[..|items| - 1]) + (if last == "" then [] else [last])
  }

  // An entry lists the containers of its object's records.
  ghost predicate Lists(e: RR.Entry, items: seq<MemoryItem>) {
    forall item | item in items && item.metadata.containerId != "" :: item.metadata.containerId in e.containerIds
  }

  lemma {:induction false} ContainersAre(items: seq<MemoryItem>)
    ensures forall item | item in items && item.metadata.containerId != "" ::
      item.metadata.containerId in ContainersOf(items)
  {
    if items != [] {
      ContainersAre(items[..|items| - 1]);
      SplitLast(items);
    }
  }

  lemma AllListed(e: RR.Entry, call: RR.Call, items: seq<MemoryItem>)
    requires call.containerIds == UniqueStrings(ContainersOf(items))
    ensures Lists(RR.Updated(e, call), items)
  {
    ContainersAre(items);
    UniqueStringsAre(ContainersOf(items));
    UniqueStringsAre(call.containerIds);
    hide UniqueStrings, ContainersOf;
  }

  // The entry says that an attempt at this version failed.
  predicate Failed(e: Option<RR.Entry>, obj: RR.RawObject) {
    e.Some? && e.value.status == "failed" && e.value.eTag == obj.eTag && e.value.size == obj.size
      && e.value.error != ""
  }

  lemma FailedIsRecorded(e: RR.Entry, call: RR.Call)
    requires call.status == "failed" && call.error != ""
    ensures Failed(Some(RR.Updated(e, call)), call.obj)
  {
  }

  lemma IndexedIsDone(e: RR.Entry, call: RR.Call)
    requires call.status == "indexed"
    ensures RR.Done(Some(RR.Updated(e, call)), call.obj) && RR.Updated(e, call).records == call.records
  {
  }

  // What holds between attempts. An object over the size limit leaves the tables alone.
  ghost predicate OnTheWay(cfg: Config, units: seq<ChunkGroup>, base: Store, s: Store, agree: bool, errored: bool,
                           tooLarge: bool)
  {
    && (agree ==> Partway(cfg, units, base, s)) && (agree && !errored ==> s.saved == s.dedup)
    && (tooLarge ==> s.chunks == base.chunks && s.messages == base.messages)
    && (Embedded(cfg, base.chunks) ==> Embedded(cfg, s.chunks))
  }

  lemma StartsOut(cfg: Config, units: seq<ChunkGroup>, base: Store, agree: bool)
    requires agree ==> Partway(cfg, units, base, base) && base.saved == base.dedup
    ensures forall tooLarge :: OnTheWay(cfg, units, base, base, agree, false, tooLarge)
  {
  }

  lemma WayGone(cfg: Config, units: seq<ChunkGroup>, base: Store, s: Store, agree: bool, errored: bool, tooLarge: bool)
    requires OnTheWay(cfg, units, base, s, agree, errored, tooLarge)
    ensures (agree ==> Partway(cfg, units, base, s)) && (agree && !errored ==> s.saved == s.dedup)
    ensures tooLarge ==> s.chunks == base.chunks && s.messages == base.messages
    ensures Embedded(cfg, base.chunks) ==> Embedded(cfg, s.chunks)
  {
  }

  // What one attempt keeps, wherever it stops.
  lemma Attempted(cfg: Config, units: seq<ChunkGroup>, base: Store, s: Store, stop: Stop, died: bool, agree: bool)
    requires stop.done <= |PendingOf(units, s.dedup)|
    requires agree ==> Setting(cfg, units, base) && Partway(cfg, units, base, s)
    ensures var t := StoppedAt(cfg, s, PendingOf(units, s.dedup), stop, died);
      && (Embedded(cfg, s.chunks) ==> Embedded(cfg, t.chunks)) && (died ==> t.saved == t.dedup)
      && (agree ==> Partway(cfg, units, base, t))
    ensures var after := After(cfg, s, PendingOf(units, s.dedup));
      && (agree ==> after.(saved := after.dedup) == Finished(cfg, units, base))
      && (s.saved == s.dedup ==> after.saved == after.dedup)
  {
    SavedWhenStopped(cfg, s, PendingOf(units, s.dedup), stop);
    SavedAfter(cfg, s, PendingOf(units, s.dedup));
    hide Partway, Setting, Finished, PendingOf, StoppedAt, After, Embedded;
    if Embedded(cfg, s.chunks) { StoppedIsEmbedded(cfg, s, PendingOf(units, s.dedup), stop, died); }
    if agree {
      StoppedIsPartway(cfg, units, base, s, stop, died);
      CompletesFromPartway(cfg, units, base, s);
    }
  }

  lemma NothingAfter(cfg: Config, s: Store)
    ensures After(cfg, s, []) == s
  {
  }

  lemma StoppedAtStart(cfg: Config, s: Store, groups: seq<ChunkGroup>)
    ensures StoppedAt(cfg, s, groups, Stop(0, 0), false) == s
    ensures StoppedAt(cfg, s, groups, Stop(0, 0), true) == s.(dedup := s.saved)
  {
    assert groups[..0] == [];
  }

  lemma StoppedAtEnd(cfg: Config, s: Store, groups: seq<ChunkGroup>)
    ensures var after := After(cfg, s, groups);
      && StoppedAt(cfg, s, groups, Stop(|groups|, 0), false) == after
      && StoppedAt(cfg, s, groups, Stop(|groups|, 0), true) == after.(dedup := after.saved)
  {
    assert groups[..|groups|] == groups;
  }

  lemma NothingStopped(cfg: Config, s: Store, stop: Stop, died: bool)
    requires stop.done == 0 && s.saved == s.dedup
    ensures StoppedAt(cfg, s, [], stop, died) == s
  {
    assert AllChunkRows(cfg, []) == [] && AllMessageRows(cfg, []) == [] && MarkAll(s.dedup, []) == s.dedup;
    var none: seq<ChunkGroup> := [];
    assert none[..0] == [];
  }

  // A process that died, or that ended well from a saved state, has a saved state.
  lemma SavedWhenStopped(cfg: Config, s: Store, groups: seq<ChunkGroup>, stop: Stop)
    requires stop.done <= |groups|
    ensures var t := StoppedAt(cfg, s, groups, stop, true); t.saved == t.dedup
  {
  }

  lemma SavedAfter(cfg: Config, s: Store, groups: seq<ChunkGroup>)
    ensures s.saved == s.dedup ==> After(cfg, s, groups).saved == After(cfg, s, groups).dedup
  {
  }

  lemma AllUnits(codec: Codec, items: seq<MemoryItem>)
    ensures Units(codec, items)[..|items|] == Units(codec, items)
  {
  }

  lemma PendingAreWellFormed(cfg: Config, items: seq<MemoryItem>, dedup: Hashes)
    requires ValidConfig(cfg)
    ensures forall g :: g in PendingOf(Units(cfg.codec, items), dedup) ==> WellFormed(g)
  {
    UnitsAreWellFormed(cfg, items);
  }

  lemma SameChunks(s: Store, s': Store)
    requires s'.chunks == s.chunks && s'.messages == s.messages
    ensures ChunksPresent(s) ==> ChunksPresent(s')
  {
  }

  // Chunks written before their messages.
  lemma ChunksWritten(cfg: Config, s: Store, groups: seq<ChunkGroup>)
    requires ChunksPresent(s)
    ensures var s' := s.(chunks := Upsert(s.chunks, AllChunkRows(cfg, groups)));
      ChunksPresent(s') && forall row :: row in AllChunkRows(cfg, groups) ==> row.id in s'.chunks
  {
    var rows := AllChunkRows(cfg, groups);
    forall row | row in rows
      ensures row.id in Upsert(s.chunks, rows)
    {
      UpsertAt(s.chunks, rows, row.id);
      assert HasId(rows, row.id);
    }
    forall k | k in s.chunks
      ensures k in Upsert(s.chunks, rows)
    {
      UpsertAt(s.chunks, rows, k);
    }
  }
}
