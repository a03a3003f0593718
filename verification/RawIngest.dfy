// Stores on their way through the ingestion of a raw object: the rows and marks of its units,
// what an uninterrupted run leaves, and what holds part-way (raw_ingest.go, `process` and
// `indexGroups`; main.go, `dedupState`; lance.go, `Upsert`).
module RawIngest {
  import opened Wrappers
  import opened Records
  import opened ContextUnits
  import opened ChunkIds
  import opened Tables
  import TS = TokenSplitter
  import RR = RawRegistry

  // The embedding server and the settings of a run: counting and embedding are functions of
  // the text alone, and requests to them may fail.
  datatype Config = Config(codec: Codec, countTokens: string -> nat, embed: string -> Vector,
                           chunkTokens: int, embedBatch: int, docPrefix: string, maxObjectBytes: int)

  // A SHA-256 hash in hexadecimal is never empty.
  ghost predicate ValidConfig(cfg: Config) { forall s: string :: cfg.codec.hash(s) != "" }

  // ---------- Rows of one unit ----------

  function Budget(cfg: Config, header: string): int {
    var budget := if cfg.chunkTokens <= 0 then 384 else cfg.chunkTokens;
    if header != "" then Max(budget - cfg.countTokens(header) - 1, 2 * TS.EMBED_CHUNK_OVERLAP) else budget
  }

  function Pieces(cfg: Config, group: ChunkGroup): TS.SplitResult {
    TS.Split(s => Some(cfg.countTokens(s)), group.text, Budget(cfg, group.header))
  }

  function Texts(cfg: Config, group: ChunkGroup): seq<string> {
    var pieces := Pieces(cfg, group);
    if pieces.Chunks? then pieces.chunks else []
  }

  function ChunkRow(cfg: Config, group: ChunkGroup, i: nat): MemoryItem
    requires i < |Texts(cfg, group)|
  {
    var text := Texts(cfg, group)[i];
    MemoryItem(ChunkId(group.id, i), cfg.embed(cfg.docPrefix + JoinHeader(group.header, text)),
               JoinHeader(group.header, text),
               group.meta.(contentHash := cfg.codec.hash(text), messageId := group.id, chunkIndex := i,
                           chunkCount := |Texts(cfg, group)|))
  }

  function ChunkRows(cfg: Config, group: ChunkGroup): seq<MemoryItem> {
    seq(|Texts(cfg, group)|, i requires 0 <= i < |Texts(cfg, group)| => ChunkRow(cfg, group, i))
  }

  function MessageRow(cfg: Config, group: ChunkGroup, message: MemoryItem): MemoryItem {
    if message.id == group.id
    then message.(metadata := message.metadata.(chunkCount := |Texts(cfg, group)|)) else message
  }

  function MessageRows(cfg: Config, group: ChunkGroup): seq<MemoryItem> {
    seq(|group.pending|, i requires 0 <= i < |group.pending| => MessageRow(cfg, group, group.pending[i]))
  }

  function AllChunkRows(cfg: Config, groups: seq<ChunkGroup>): seq<MemoryItem> {
    if groups == [] then [] else AllChunkRows(cfg, groups[..|groups| - 1]) + ChunkRows(cfg, groups[|groups| - 1])
  }

  function AllMessageRows(cfg: Config, groups: seq<ChunkGroup>): seq<MemoryItem> {
    if groups == [] then [] else AllMessageRows(cfg, groups[..|groups| - 1]) + MessageRows(cfg, groups[|groups| - 1])
  }

  // A headed unit always gets room for twice the overlap, so its split never panics.
  lemma HeadedUnitsSplit(cfg: Config, group: ChunkGroup)
    requires group.header != ""
    ensures Budget(cfg, group.header) >= 128
    ensures Pieces(cfg, group).Chunks?
  {
    var tc: TS.TokenCounter := s => Some(cfg.countTokens(s));
    TS.PanicsIff(tc, group.text, Budget(cfg, group.header));
    SplitNeverFails(tc, group.text, Budget(cfg, group.header));
  }

  lemma SplitNeverFails(tc: TS.TokenCounter, text: string, maxTokens: int)
    requires forall s :: tc(s).Some?
    ensures !TS.Split(tc, text, maxTokens).TokenizeError?
  {
    CutsNeverFail(tc, text, 0, maxTokens);
  }

  lemma {:induction false} CutsNeverFail(tc: TS.TokenCounter, text: string, start: nat, maxTokens: int)
    requires (forall s :: tc(s).Some?) && start <= |text|
    ensures TS.Cuts(tc, text, start, maxTokens).Some?
    decreases |text| - start
  {
    if start < |text| && tc(text[start..]).value > maxTokens {
      FitEndNeverFails(tc, text, start, maxTokens, start + 1, |text|, start + 1);
      var end := TS.Boundary(text, start, TS.FitEnd(tc, text, start, maxTokens, start + 1, |text|, start + 1).value);
      OverlapNeverFails(tc, text, end, start, end, end);
      CutsNeverFail(tc, text, TS.NextCut(tc, text, start, maxTokens).value.1, maxTokens);
    }
  }

  lemma {:induction false} FitEndNeverFails(tc: TS.TokenCounter, text: string, start: nat, maxTokens: int, lo: int,
                                            hi: int, best: nat)
    requires (forall s :: tc(s).Some?) && start < lo && hi <= |text| && start < best <= |text|
    ensures TS.FitEnd(tc, text, start, maxTokens, lo, hi, best).Some?
    decreases hi - lo
  {
    if lo <= hi {
      var mid := lo + (hi - lo) / 2;
      if tc(text[start..mid]).value <= maxTokens { FitEndNeverFails(tc, text, start, maxTokens, mid + 1, hi, mid); }
      else { FitEndNeverFails(tc, text, start, maxTokens, lo, mid - 1, best); }
    }
  }

  lemma {:induction false} OverlapNeverFails(tc: TS.TokenCounter, text: string, end: nat, lo: int, hi: int, found: nat)
    requires (forall s :: tc(s).Some?) && 0 <= lo && hi <= end <= |text| && found <= end
    ensures TS.OverlapStart(tc, text, end, lo, hi, found).Some?
    decreases hi - lo
  {
    if lo <= hi {
      var mid := lo + (hi - lo) / 2;
      if tc(text[mid..end]).value <= TS.EMBED_CHUNK_OVERLAP { OverlapNeverFails(tc, text, end, lo, mid - 1, mid); }
      else { OverlapNeverFails(tc, text, end, mid + 1, hi, found); }
    }
  }

  // ---------- The store and the dedup state ----------

  // The two tables, and the dedup hashes in memory and as last saved.
  datatype Store = Store(chunks: Rows, messages: Rows, dedup: Hashes, saved: Hashes)

  predicate Marked(dedup: Hashes, unit: ChunkGroup) { Seen(dedup, RawDerivedKey(unit.id), unit.meta.contentHash) }

  function MarkAll(dedup: Hashes, groups: seq<ChunkGroup>): Hashes {
    if groups == [] then dedup
    else Mark(MarkAll(dedup, groups[..|groups| - 1]), RawDerivedKey(groups[|groups| - 1].id),
              groups[|groups| - 1].meta.contentHash)
  }

  function Units(codec: Codec, items: seq<MemoryItem>): seq<ChunkGroup> {
    seq(|items|, i requires 0 <= i < |items| => UnitOf(codec, items, i))
  }

  // The units whose hash is not in the dedup state, in order.
  function PendingOf(units: seq<ChunkGroup>, dedup: Hashes): (r: seq<ChunkGroup>)
    ensures forall u :: u in r <==> u in units && !Marked(dedup, u)
  {
    if units == [] then []
    else
      var u := units[|units| - 1];
      PendingOf(units[..|units| - 1], dedup) + (if Marked(dedup, u) then [] else [u])
  }

  // What an uninterrupted run makes of a store: every pending unit's chunks and message
  // written, and its hash marked and saved.
  function Finished(cfg: Config, units: seq<ChunkGroup>, base: Store): Store {
    var pending := PendingOf(units, base.dedup);
    var dedup := MarkAll(base.dedup, pending);
    Store(Upsert(base.chunks, AllChunkRows(cfg, pending)), Upsert(base.messages, AllMessageRows(cfg, pending)), dedup,
          dedup)
  }

  // Records with one id have one unit hash.
  ghost predicate SameIdSameHash(units: seq<ChunkGroup>) {
    forall u, v :: u in units && v in units && u.id == v.id ==> u.meta.contentHash == v.meta.contentHash
  }

  // Records with one id write the same rows.
  ghost predicate SameIdSameRows(cfg: Config, units: seq<ChunkGroup>) {
    forall u, v :: u in units && v in units && u.id == v.id ==>
      ChunkRows(cfg, u) == ChunkRows(cfg, v) && MessageRows(cfg, u) == MessageRows(cfg, v)
  }

  ghost predicate WellFormed(u: ChunkGroup) {
    u.header != "" && u.meta.contentHash != "" && |u.pending| == 1 && u.pending[0].id == u.id
  }

  lemma UnitsAreWellFormed(cfg: Config, items: seq<MemoryItem>)
    requires ValidConfig(cfg)
    ensures forall u :: u in Units(cfg.codec, items) ==> WellFormed(u)
  {
  }

  // ---------- Maps between a base and a target ----------

  ghost predicate Agree<V>(m: map<string, V>, n: map<string, V>, k: string) {
    (k in m <==> k in n) && (k in m ==> m[k] == n[k])
  }

  // Each key of `m` is as in the base, or as in the target.
  ghost predicate Between<V>(base: map<string, V>, target: map<string, V>, m: map<string, V>) {
    forall k: string :: Agree(m, base, k) || FromTarget(target, m, k)
  }

  ghost predicate FromTarget<V>(target: map<string, V>, m: map<string, V>, k: string) {
    k in target && k in m && m[k] == target[k]
  }

  lemma {:induction false} UpsertBetween(base: Rows, target: Rows, m: Rows, items: seq<MemoryItem>)
    requires Between(base, target, m)
    requires forall row :: row in items ==> row.id in target && target[row.id] == row
    ensures Between(base, target, Upsert(m, items))
    ensures forall row :: row in items ==> row.id in Upsert(m, items) && Upsert(m, items)[row.id] == row
    ensures forall k ::
      k in m && k in target && m[k] == target[k] ==> k in Upsert(m, items) && Upsert(m, items)[k] == target[k]
    ensures m.Keys <= Upsert(m, items).Keys
  {
    if items != [] {
      var earlier, last := items[..|items| - 1], items[|items| - 1];
      UpsertBetween(base, target, m, earlier);
      assert last in items;
      forall k: string
        ensures Agree(Upsert(m, items), base, k) || FromTarget(target, Upsert(m, items), k)
      {
        assert Agree(Upsert(m, earlier), base, k) || FromTarget(target, Upsert(m, earlier), k);
      }
      forall row | row in items
        ensures row.id in Upsert(m, items) && Upsert(m, items)[row.id] == row
      {
        if row != last { assert row in earlier; }
      }
    }
  }

  ghost predicate HasId(items: seq<MemoryItem>, k: string) { exists row :: row in items && row.id == k }

  lemma {:induction false} UpsertAt(m: Rows, items: seq<MemoryItem>, k: string)
    ensures if HasId(items, k) then k in Upsert(m, items) && Upsert(m, items)[k] in items && Upsert(m, items)[k].id == k
            else Agree(Upsert(m, items), m, k)
  {
    if items != [] {
      var earlier, last := items[..|items| - 1], items[|items| - 1];
      UpsertAt(m, earlier, k);
      assert forall row :: row in items <==> row in earlier || row == last;
      if last.id != k && HasId(items, k) {
        var row :| row in items && row.id == k;
        assert HasId(earlier, k);
      }
    }
  }

  // ---------- A run in progress ----------

  ghost predicate InPlace(cfg: Config, s: Store, u: ChunkGroup) {
    && (forall row :: row in ChunkRows(cfg, u) ==> row.id in s.chunks && s.chunks[row.id] == row)
    && (forall row :: row in MessageRows(cfg, u) ==> row.id in s.messages && s.messages[row.id] == row)
  }

  // `s` is on its way from `base` to the finished store: nothing but rows and hashes of the
  // pending units has changed, and a marked unit's rows are all there.
  ghost predicate Partway(cfg: Config, units: seq<ChunkGroup>, base: Store, s: Store) {
    var done := Finished(cfg, units, base);
    && Between(base.chunks, done.chunks, s.chunks)
    && Between(base.messages, done.messages, s.messages)
    && Between(base.dedup, done.dedup, s.dedup)
    && Between(base.dedup, done.dedup, s.saved)
    && forall u ::
      u in PendingOf(units, base.dedup) && (Marked(s.dedup, u) || Marked(s.saved, u)) ==> InPlace(cfg, s, u)
  }

  // A message with chunk count c has its chunks #0 to #(c-1).
  ghost predicate ChunksPresent(s: Store) {
    forall id, j: nat ::
      id in s.messages && j < s.messages[id].metadata.chunkCount ==> ChunkId(s.messages[id].id, j) in s.chunks
  }

  lemma {:induction false} RowsOf(cfg: Config, groups: seq<ChunkGroup>, row: MemoryItem)
    ensures row in AllChunkRows(cfg, groups) <==> exists g :: g in groups && row in ChunkRows(cfg, g)
    ensures row in AllMessageRows(cfg, groups) <==> exists g :: g in groups && row in MessageRows(cfg, g)
  {
    if groups != [] {
      var earlier, last := groups[..|groups| - 1], groups[|groups| - 1];
      RowsOf(cfg, earlier, row);
      assert forall g :: g in groups <==> g in earlier || g == last;
    }
  }

  // Rows of one object that share an id are one row.
  lemma ChunkRowsAgree(cfg: Config, groups: seq<ChunkGroup>, a: MemoryItem, b: MemoryItem)
    requires SameIdSameRows(cfg, groups) && a in AllChunkRows(cfg, groups) && b in AllChunkRows(cfg, groups)
      && a.id == b.id
    ensures a == b
  {
    RowsOf(cfg, groups, a);
    RowsOf(cfg, groups, b);
    var g :| g in groups && a in ChunkRows(cfg, g);
    var h :| h in groups && b in ChunkRows(cfg, h);
    hide ChunkRows, ChunkRow, Texts, ChunkId;
    var i := RowIndex(cfg, g, a);
    var j := RowIndex(cfg, h, b);
    ChunkIdInjective(g.id, i, h.id, j);
  }

  lemma RowIndex(cfg: Config, g: ChunkGroup, row: MemoryItem) returns (i: nat)
    requires row in ChunkRows(cfg, g)
    ensures i < |Texts(cfg, g)| && row == ChunkRow(cfg, g, i) && row.id == ChunkId(g.id, i)
    ensures i < |ChunkRows(cfg, g)| && row == ChunkRows(cfg, g)[i]
  {
    hide Texts, ChunkId;
    i :| 0 <= i < |ChunkRows(cfg, g)| && ChunkRows(cfg, g)[i] == row;
  }

  lemma MessageRowsAgree(cfg: Config, groups: seq<ChunkGroup>, a: MemoryItem, b: MemoryItem)
    requires SameIdSameRows(cfg, groups) && (forall u :: u in groups ==> WellFormed(u))
    requires a in AllMessageRows(cfg, groups) && b in AllMessageRows(cfg, groups) && a.id == b.id
    ensures a == b
  {
    RowsOf(cfg, groups, a);
    RowsOf(cfg, groups, b);
    var g :| g in groups && a in MessageRows(cfg, g);
    var h :| h in groups && b in MessageRows(cfg, h);
  }

  // Every row of a pending unit is what the finished store holds under its id.
  lemma FinishedRows(cfg: Config, units: seq<ChunkGroup>, base: Store, u: ChunkGroup)
    requires Setting(cfg, units, base) && u in PendingOf(units, base.dedup)
    ensures var done := Finished(cfg, units, base);
      && (forall row :: row in ChunkRows(cfg, u) ==> row.id in done.chunks && done.chunks[row.id] == row)
      && (forall row :: row in MessageRows(cfg, u) ==> row.id in done.messages && done.messages[row.id] == row)
  {
    var pending := PendingOf(units, base.dedup);
    forall row | row in ChunkRows(cfg, u)
      ensures row.id in Finished(cfg, units, base).chunks && Finished(cfg, units, base).chunks[row.id] == row
    {
      RowsOf(cfg, pending, row);
      UpsertAt(base.chunks, AllChunkRows(cfg, pending), row.id);
      assert HasId(AllChunkRows(cfg, pending), row.id);
      ChunkRowsAgree(cfg, pending, row, Finished(cfg, units, base).chunks[row.id]);
    }
    forall row | row in MessageRows(cfg, u)
      ensures row.id in Finished(cfg, units, base).messages && Finished(cfg, units, base).messages[row.id] == row
    {
      RowsOf(cfg, pending, row);
      UpsertAt(base.messages, AllMessageRows(cfg, pending), row.id);
      assert HasId(AllMessageRows(cfg, pending), row.id);
      MessageRowsAgree(cfg, pending, row, Finished(cfg, units, base).messages[row.id]);
    }
  }

  lemma {:induction false} MarkAllAt(dedup: Hashes, groups: seq<ChunkGroup>, k: string)
    requires forall g :: g in groups ==> WellFormed(g)
    ensures if exists g :: g in groups && RawDerivedKey(g.id) == k
            then k in MarkAll(dedup, groups) && exists g ::
              g in groups && RawDerivedKey(g.id) == k && MarkAll(dedup, groups)[k] == g.meta.contentHash
            else Agree(MarkAll(dedup, groups), dedup, k)
  {
    if groups != [] {
      var earlier, last := groups[..|groups| - 1], groups[|groups| - 1];
      MarkAllAt(dedup, earlier, k);
      assert forall g :: g in groups <==> g in earlier || g == last;
    }
  }

  lemma FinishedMarks(cfg: Config, units: seq<ChunkGroup>, base: Store, u: ChunkGroup)
    requires SameIdSameHash(units) && (forall v :: v in units ==> WellFormed(v)) && u in PendingOf(units, base.dedup)
    ensures Marked(Finished(cfg, units, base).dedup, u)
  {
    var pending := PendingOf(units, base.dedup);
    var k := RawDerivedKey(u.id);
    MarkAllAt(base.dedup, pending, k);
    var g :| g in pending && RawDerivedKey(g.id) == k && MarkAll(base.dedup, pending)[k] == g.meta.contentHash;
    DerivedKeysDiffer(g.id, u.id);
  }

  // The setting of one object: its units, and the store when its ingestion began with the
  // dedup state saved.
  ghost predicate Setting(cfg: Config, units: seq<ChunkGroup>, base: Store) {
    && (forall u :: u in units ==> WellFormed(u)) && Consistent(cfg, units, base)
    && base.saved == base.dedup
  }

  // Records of the object with one id agree in their hash and, where they are to be
  // written, in their rows.
  ghost predicate Consistent(cfg: Config, units: seq<ChunkGroup>, base: Store) {
    SameIdSameHash(units) && SameIdSameRows(cfg, PendingOf(units, base.dedup))
  }

  lemma BaseIsPartway(cfg: Config, units: seq<ChunkGroup>, base: Store)
    requires base.saved == base.dedup
    ensures Partway(cfg, units, base, base)
  {
  }

  // Groups still to be written at some moment were pending from the start.
  lemma StillPending(cfg: Config, units: seq<ChunkGroup>, base: Store, s: Store, u: ChunkGroup)
    requires Setting(cfg, units, base) && Partway(cfg, units, base, s) && u in units && !Marked(s.dedup, u)
    ensures u in PendingOf(units, base.dedup)
  {
    if Marked(base.dedup, u) {
      var pending := PendingOf(units, base.dedup);
      var k := RawDerivedKey(u.id);
      MarkAllAt(base.dedup, pending, k);
      assert Agree(s.dedup, base.dedup, k) || FromTarget(Finished(cfg, units, base).dedup, s.dedup, k);
      forall g | g in pending && RawDerivedKey(g.id) == k ensures false {
        DerivedKeysDiffer(g.id, u.id);
      }
    }
  }

  lemma GroupRowsFinished(cfg: Config, units: seq<ChunkGroup>, base: Store, groups: seq<ChunkGroup>)
    requires Setting(cfg, units, base)
    requires forall g :: g in groups ==> g in PendingOf(units, base.dedup)
    ensures var done := Finished(cfg, units, base);
      && (forall row :: row in AllChunkRows(cfg, groups) ==> row.id in done.chunks && done.chunks[row.id] == row)
      && (forall row :: row in AllMessageRows(cfg, groups) ==> row.id in done.messages && done.messages[row.id] == row)
  {
    hide WellFormed, PendingOf, ChunkRows, MessageRows, AllChunkRows, AllMessageRows, Finished;
    var done := Finished(cfg, units, base);
    forall row | row in AllChunkRows(cfg, groups)
      ensures row.id in done.chunks && done.chunks[row.id] == row
    {
      RowsOf(cfg, groups, row);
      var g :| g in groups && row in ChunkRows(cfg, g);
      FinishedRows(cfg, units, base, g);
    }
    forall row | row in AllMessageRows(cfg, groups)
      ensures row.id in done.messages && done.messages[row.id] == row
    {
      RowsOf(cfg, groups, row);
      var g :| g in groups && row in MessageRows(cfg, g);
      FinishedRows(cfg, units, base, g);
    }
  }

  // Rows that have their final value keep it, so marked units stay in place.
  lemma StillInPlace(cfg: Config, units: seq<ChunkGroup>, base: Store, s: Store, s': Store)
    requires Setting(cfg, units, base) && Partway(cfg, units, base, s)
    requires s'.dedup == s.dedup && s'.saved == s.saved
    requires var done := Finished(cfg, units, base);
      && (forall k ::
          k in s.chunks && k in done.chunks && s.chunks[k] == done.chunks[k] ==>
          k in s'.chunks && s'.chunks[k] == done.chunks[k])
      && (forall k ::
          k in s.messages && k in done.messages && s.messages[k] == done.messages[k] ==>
          k in s'.messages && s'.messages[k] == done.messages[k])
    ensures forall u ::
      u in PendingOf(units, base.dedup) && (Marked(s'.dedup, u) || Marked(s'.saved, u)) ==> InPlace(cfg, s', u)
  {
    hide WellFormed, PendingOf, ChunkRows, MessageRows, Finished, Marked, Between;
    forall u | u in PendingOf(units, base.dedup) && (Marked(s'.dedup, u) || Marked(s'.saved, u))
      ensures InPlace(cfg, s', u)
    {
      FinishedRows(cfg, units, base, u);
      assert InPlace(cfg, s, u);
    }
  }

  lemma WriteChunks(cfg: Config, units: seq<ChunkGroup>, base: Store, s: Store, groups: seq<ChunkGroup>)
    requires Setting(cfg, units, base) && Partway(cfg, units, base, s)
    requires forall g :: g in groups ==> g in PendingOf(units, base.dedup)
    ensures var s' := s.(chunks := Upsert(s.chunks, AllChunkRows(cfg, groups)));
      && Partway(cfg, units, base, s')
      && (forall row :: row in AllChunkRows(cfg, groups) ==> row.id in s'.chunks && s'.chunks[row.id] == row)
      && (ChunksPresent(s) ==> ChunksPresent(s'))
  {
    hide Setting, PendingOf, AllChunkRows, Finished, Marked, Between, InPlace;
    var done := Finished(cfg, units, base);
    var s' := s.(chunks := Upsert(s.chunks, AllChunkRows(cfg, groups)));
    GroupRowsFinished(cfg, units, base, groups);
    UpsertBetween(base.chunks, done.chunks, s.chunks, AllChunkRows(cfg, groups));
    StillInPlace(cfg, units, base, s, s');
  }

  lemma WriteMessages(cfg: Config, units: seq<ChunkGroup>, base: Store, s: Store, groups: seq<ChunkGroup>)
    requires Setting(cfg, units, base) && Partway(cfg, units, base, s)
    requires forall g :: g in groups ==> g in PendingOf(units, base.dedup)
    requires forall row :: row in AllChunkRows(cfg, groups) ==> row.id in s.chunks && s.chunks[row.id] == row
    ensures var s' := s.(messages := Upsert(s.messages, AllMessageRows(cfg, groups)));
      && Partway(cfg, units, base, s')
      && (forall g :: g in groups ==> InPlace(cfg, s', g))
  {
    var done := Finished(cfg, units, base);
    var s' := s.(messages := Upsert(s.messages, AllMessageRows(cfg, groups)));
    hide Setting, PendingOf, AllMessageRows, AllChunkRows, Finished, Marked, Between, ChunkRows, MessageRows;
    GroupRowsFinished(cfg, units, base, groups);
    UpsertBetween(base.messages, done.messages, s.messages, AllMessageRows(cfg, groups));
    StillInPlace(cfg, units, base, s, s');
    forall g | g in groups
      ensures InPlace(cfg, s', g)
    {
      forall row | row in ChunkRows(cfg, g) ensures row in AllChunkRows(cfg, groups) { RowsOf(cfg, groups, row); }
      forall row | row in MessageRows(cfg, g) ensures row in AllMessageRows(cfg, groups) { RowsOf(cfg, groups, row); }
    }
  }

  // A written message's chunks are there: they were written first.
  lemma MessagesHaveChunks(cfg: Config, s: Store, groups: seq<ChunkGroup>)
    requires ChunksPresent(s) && (forall g :: g in groups ==> WellFormed(g))
    requires forall row :: row in AllChunkRows(cfg, groups) ==> row.id in s.chunks
    ensures ChunksPresent(s.(messages := Upsert(s.messages, AllMessageRows(cfg, groups))))
  {
    var rows := AllMessageRows(cfg, groups);
    var messages := Upsert(s.messages, rows);
    forall id, j: nat | id in messages && j < messages[id].metadata.chunkCount
      ensures ChunkId(messages[id].id, j) in s.chunks
    {
      UpsertAt(s.messages, rows, id);
      if HasId(rows, id) {
        RowsOf(cfg, groups, messages[id]);
        var g :| g in groups && messages[id] in MessageRows(cfg, g);
        ChunkOfMessage(cfg, g, messages[id], j);
        RowsOf(cfg, groups, ChunkRow(cfg, g, j));
      }
    }
  }

  lemma ChunkOfMessage(cfg: Config, g: ChunkGroup, row: MemoryItem, j: nat)
    requires WellFormed(g) && row in MessageRows(cfg, g) && j < row.metadata.chunkCount
    ensures j < |Texts(cfg, g)| && ChunkRow(cfg, g, j) in ChunkRows(cfg, g)
      && ChunkRow(cfg, g, j).id == ChunkId(row.id, j)
  {
    assert row == MessageRow(cfg, g, g.pending[0]);
    assert ChunkRows(cfg, g)[j] == ChunkRow(cfg, g, j);
  }

  // Marking written units, in memory only.
  lemma MarkWritten(cfg: Config, units: seq<ChunkGroup>, base: Store, s: Store, groups: seq<ChunkGroup>)
    requires Setting(cfg, units, base) && Partway(cfg, units, base, s)
    requires forall g :: g in groups ==> g in PendingOf(units, base.dedup) && InPlace(cfg, s, g)
    ensures var s' := s.(dedup := MarkAll(s.dedup, groups));
      && Partway(cfg, units, base, s')
      && (forall g :: g in groups ==> Marked(s'.dedup, g))
      && (forall u :: u in units && Marked(s.dedup, u) ==> Marked(s'.dedup, u))
  {
    hide Finished, Between, MarkAll, InPlace, WellFormed, SameIdSameHash, SameIdSameRows, Marked, PendingOf;
    var s' := s.(dedup := MarkAll(s.dedup, groups));
    MarkBetween(cfg, units, base, s.dedup, groups);
    forall u | u in units
      ensures Marked(s'.dedup, u) <==> Marked(s.dedup, u) || exists g :: g in groups && g.id == u.id
    {
      MarkedAfter(units, s.dedup, groups, u);
    }
    forall u | u in PendingOf(units, base.dedup) && (Marked(s'.dedup, u) || Marked(s'.saved, u))
      ensures InPlace(cfg, s', u)
    {
      if g :| g in groups && g.id == u.id {
        SameInPlace(cfg, PendingOf(units, base.dedup), s, g, u);
      }
      SameRows(cfg, s, s', u);
    }
  }

  lemma SameInPlace(cfg: Config, units: seq<ChunkGroup>, s: Store, g: ChunkGroup, u: ChunkGroup)
    requires SameIdSameRows(cfg, units) && g in units && u in units && g.id == u.id && InPlace(cfg, s, g)
    ensures InPlace(cfg, s, u)
  {
    hide ChunkRows, MessageRows;
  }

  lemma SameRows(cfg: Config, s: Store, s': Store, u: ChunkGroup)
    requires s'.chunks == s.chunks && s'.messages == s.messages
    ensures InPlace(cfg, s, u) <==> InPlace(cfg, s', u)
  {
  }

  lemma MarkBetween(cfg: Config, units: seq<ChunkGroup>, base: Store, dedup: Hashes, groups: seq<ChunkGroup>)
    requires Setting(cfg, units, base) && Between(base.dedup, Finished(cfg, units, base).dedup, dedup)
    requires forall g :: g in groups ==> g in PendingOf(units, base.dedup)
    ensures Between(base.dedup, Finished(cfg, units, base).dedup, MarkAll(dedup, groups))
  {
    var done := Finished(cfg, units, base);
    hide SameIdSameRows, WellFormed, PendingOf, MarkAll, Finished;
    forall k: string
      ensures Agree(MarkAll(dedup, groups), base.dedup, k) || FromTarget(done.dedup, MarkAll(dedup, groups), k)
    {
      assert Agree(dedup, base.dedup, k) || FromTarget(done.dedup, dedup, k);
      MarkAllAt(dedup, groups, k);
      if exists g :: g in groups && RawDerivedKey(g.id) == k {
        var g :| g in groups && RawDerivedKey(g.id) == k && MarkAll(dedup, groups)[k] == g.meta.contentHash;
        FinishedMarks(cfg, units, base, g);
      }
    }
  }

  lemma MarkedAfter(units: seq<ChunkGroup>, dedup: Hashes, groups: seq<ChunkGroup>, u: ChunkGroup)
    requires SameIdSameHash(units) && (forall v :: v in units ==> WellFormed(v)) && u in units
    requires forall g :: g in groups ==> g in units
    ensures Marked(MarkAll(dedup, groups), u) <==> Marked(dedup, u) || exists g :: g in groups && g.id == u.id
  {
    var k := RawDerivedKey(u.id);
    MarkAllAt(dedup, groups, k);
    forall g | g in groups && RawDerivedKey(g.id) == k ensures g.id == u.id { DerivedKeysDiffer(g.id, u.id); }
  }

  lemma SaveMarks(cfg: Config, units: seq<ChunkGroup>, base: Store, s: Store)
    requires Partway(cfg, units, base, s)
    ensures Partway(cfg, units, base, s.(saved := s.dedup)) && Partway(cfg, units, base, s.(dedup := s.saved))
  {
    hide Finished, Between, PendingOf, Marked, InPlace;
    forall u | InPlace(cfg, s, u)
      ensures InPlace(cfg, s.(saved := s.dedup), u) && InPlace(cfg, s.(dedup := s.saved), u)
    {
      SameRows(cfg, s, s.(saved := s.dedup), u);
      SameRows(cfg, s, s.(dedup := s.saved), u);
    }
  }

  // When every unit is marked, the store is what an uninterrupted run would have left.
  lemma AllMarkedIsFinished(cfg: Config, units: seq<ChunkGroup>, base: Store, s: Store)
    requires Setting(cfg, units, base) && Partway(cfg, units, base, s)
    requires forall u :: u in units ==> Marked(s.dedup, u)
    ensures s.(saved := s.dedup) == Finished(cfg, units, base)
  {
    var done := Finished(cfg, units, base);
    var pending := PendingOf(units, base.dedup);
    forall k: string
      ensures Agree(s.chunks, done.chunks, k)
    {
      UpsertAt(base.chunks, AllChunkRows(cfg, pending), k);
      if HasId(AllChunkRows(cfg, pending), k) {
        RowsOf(cfg, pending, done.chunks[k]);
        var g :| g in pending && done.chunks[k] in ChunkRows(cfg, g);
        assert InPlace(cfg, s, g);
      } else {
        assert Agree(s.chunks, base.chunks, k) || FromTarget(done.chunks, s.chunks, k);
      }
    }
    SameMap(s.chunks, done.chunks);
    forall k: string
      ensures Agree(s.messages, done.messages, k)
    {
      UpsertAt(base.messages, AllMessageRows(cfg, pending), k);
      if HasId(AllMessageRows(cfg, pending), k) {
        RowsOf(cfg, pending, done.messages[k]);
        var g :| g in pending && done.messages[k] in MessageRows(cfg, g);
        assert InPlace(cfg, s, g);
      } else {
        assert Agree(s.messages, base.messages, k) || FromTarget(done.messages, s.messages, k);
      }
    }
    SameMap(s.messages, done.messages);
    forall k: string
      ensures Agree(s.dedup, done.dedup, k)
    {
      MarkAllAt(base.dedup, pending, k);
      assert Agree(s.dedup, base.dedup, k) || FromTarget(done.dedup, s.dedup, k);
      if exists g :: g in pending && RawDerivedKey(g.id) == k {
        var g :| g in pending && RawDerivedKey(g.id) == k && done.dedup[k] == g.meta.contentHash;
        assert Marked(s.dedup, g);
      }
    }
    SameMap(s.dedup, done.dedup);
  }

  lemma SameMap<V>(m: map<string, V>, n: map<string, V>)
    requires forall k: string :: Agree(m, n, k)
    ensures m == n
  {
    forall k: string
      ensures k in m <==> k in n
      ensures k in m ==> m[k] == n[k]
    {
      assert Agree(m, n, k);
    }
  }

  // ---------- Quiescence ----------

  // After a run a unit is marked, or another record with its id has another hash.
  lemma MarkedOrShadowed(units: seq<ChunkGroup>, dedup: Hashes, u: ChunkGroup)
    requires (forall v :: v in units ==> WellFormed(v)) && u in units
    ensures Marked(MarkAll(dedup, PendingOf(units, dedup)), u)
            || exists v :: v in units && v.id == u.id && v.meta.contentHash != u.meta.contentHash
  {
    var pending := PendingOf(units, dedup);
    var key := RawDerivedKey(u.id);
    MarkAllAt(dedup, pending, key);
    if exists g :: g in pending && RawDerivedKey(g.id) == key {
      var g :| g in pending && RawDerivedKey(g.id) == key && MarkAll(dedup, pending)[key] == g.meta.contentHash;
      DerivedKeysDiffer(g.id, u.id);
      assert g in units;
    }
  }

  // A rerun on the same object version finds nothing to write exactly when records with one
  // id have one hash.
  lemma RerunWritesNothingIff(units: seq<ChunkGroup>, dedup: Hashes)
    requires forall u :: u in units ==> WellFormed(u)
    ensures PendingOf(units, MarkAll(dedup, PendingOf(units, dedup))) == [] <==> SameIdSameHash(units)
  {
    var after := MarkAll(dedup, PendingOf(units, dedup));
    var again := PendingOf(units, after);
    if SameIdSameHash(units) && again != [] {
      assert again[0] in again;
      MarkedOrShadowed(units, dedup, again[0]);
    }
    if again == [] {
      forall u, v | u in units && v in units && u.id == v.id
        ensures u.meta.contentHash == v.meta.contentHash
      {
        assert u !in again && v !in again;
        assert Marked(after, u) && Marked(after, v);
      }
    }
  }

  lemma UnitKeepsId(codec: Codec, items: seq<MemoryItem>, i: nat)
    requires i < |items|
    ensures UnitOf(codec, items, i).id == items[i].id
  {
  }

  // The dedup filter of `chunkGroups` selects exactly the pending units.
  lemma {:induction false} FilterIsPending(codec: Codec, items: seq<MemoryItem>, dedup: Hashes,
                                           pending: (MemoryItem, string) -> bool, n: nat)
    requires n <= |items|
    requires forall item, hash :: pending(item, hash) == !Seen(dedup, RawDerivedKey(item.id), hash)
    ensures PendingUnits(codec, items, pending, n) == PendingOf(Units(codec, items)[..n], dedup)
  {
    hide UnitOf, RawDerivedKey;
    if n > 0 {
      FilterIsPending(codec, items, dedup, pending, n - 1);
      UnitKeepsId(codec, items, n - 1);
      var units := Units(codec, items)[..n];
      assert units[..n - 1] == Units(codec, items)[..n - 1] && units[n - 1] == UnitOf(codec, items, n - 1);
      hide Units, Seen;
    }
  }
}
