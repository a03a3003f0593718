// Copying the token-chunks-v4 tables into the generic ones, in batches, resumable after a
// failure or a crash at any step (lance.go, `MigrateFrom` and `v4Items`; main.go, the
// migration's `markMessages`).
module Migration {
  import opened Wrappers
  import opened Records
  import opened ChunkIds
  import opened V4Ids
  import opened Tables

  datatype V4Row = V4Row(id: string, text: string, project: string, path: string, hash: string, session: string,
                         host: string, harness: string, role: string, timestamp: int, chunkCount: int, chunkIndex: nat,
                         vector: Vector)

  // The generic row of a v4 row.
  function Image(row: V4Row, chunk: bool): MemoryItem {
    var (messageId, kind) := V4MessageId(row.path, row.id);
    MemoryItem(if chunk then ChunkId(messageId, row.chunkIndex) else messageId, if chunk then row.vector else [],
               row.text,
               Metadata(row.harness, row.host, row.session, "agent_session", "", row.project, row.role, "", kind, "",
                        row.timestamp, "", row.hash, if chunk then messageId else "",
                        if chunk then row.chunkIndex else 0, row.chunkCount))
  }

  // A chunk keeps its vector and its place, and belongs to the message of its path; a message
  // has no vector. Both keep their text, hash, origin, session, project, author and time.
  lemma ImagesKeep(row: V4Row, chunk: bool)
    ensures var x, m := Image(row, chunk), Image(row, chunk).metadata;
      && x.text == row.text && x.vector == (if chunk then row.vector else []) && m.contentHash == row.hash
      && m.source == row.harness && m.host == row.host && m.containerId == row.session && m.project == row.project
      && m.authorId == row.role && m.timestamp == row.timestamp && m.chunkCount == row.chunkCount
      && m.messageId == (if chunk then Image(row, false).id else "")
      && m.chunkIndex == (if chunk then row.chunkIndex else 0)
      && (chunk ==> x.id == ChunkId(Image(row, false).id, row.chunkIndex))
  {
  }

  // The plain paths that a copy leaves out, each because of a /message/ path with the same parts.
  function Shadowed(messages: seq<V4Row>): set<string> {
    set row | row in messages && IsMessagePath(row.path) :: PlainPath(row.path)
  }

  // The part of a copy that does not change: the source rows, in order, the shadowed paths
  // and whether the rows are chunks.
  datatype Part = Part(rows: seq<V4Row>, shadowed: set<string>, chunk: bool) {
    predicate Live(i: nat)
      requires i < |rows|
    {
      rows[i].path !in shadowed
    }

    function At(i: nat): MemoryItem
      requires i < |rows|
    {
      Image(rows[i], chunk)
    }

    function Items(from: nat, to: nat): seq<MemoryItem>
      requires from <= to <= |rows|
    {
      if from == to then [] else Items(from, to - 1) + (if Live(to - 1) then [At(to - 1)] else [])
    }

    // The last row of a range that writes the id.
    function LastWriter(from: nat, to: nat, id: string): (r: Option<nat>)
      requires from <= to <= |rows|
      ensures r.Some? ==> from <= r.value < to && Live(r.value) && At(r.value).id == id
      ensures forall k | from <= k < to && Live(k) && At(k).id == id :: r.Some? && k <= r.value
    {
      if from == to then None
      else if Live(to - 1) && At(to - 1).id == id then Some(to - 1)
      else LastWriter(from, to - 1, id)
    }

    // No later row writes the id of this one.
    predicate Last(i: nat)
      requires i < |rows|
    {
      Live(i) && forall k | i < k < |rows| && Live(k) :: At(k).id != At(i).id
    }

    predicate Written(i: nat, table: Rows)
      requires i < |rows|
    {
      At(i).id in table && table[At(i).id] == At(i)
    }

    predicate Marked(i: nat, dedup: Hashes)
      requires i < |rows|
    {
      rows[i].hash != "" ==> Seen(dedup, RawDerivedKey(At(i).id), rows[i].hash)
    }

    // A table holds the final image of everything before an offset.
    predicate Covers(to: nat, table: Rows)
      requires to <= |rows|
    {
      forall i | 0 <= i < to && Last(i) :: Written(i, table)
    }

    predicate CoversMarks(to: nat, dedup: Hashes)
      requires to <= |rows|
    {
      forall i | 0 <= i < to && Last(i) :: Marked(i, dedup)
    }

    // A row that was there before, or the image of some row.
    predicate Explained(id: string, item: MemoryItem, base: Rows) {
      || (id in base && base[id] == item)
      || exists i | 0 <= i < |rows| :: Live(i) && At(i).id == id && At(i) == item
    }

    predicate OnlyImages(table: Rows, base: Rows) {
      base.Keys <= table.Keys && forall id | id in table :: Explained(id, table[id], base)
    }

    function LiveCount(to: nat): nat
      requires to <= |rows|
    {
      if to == 0 then 0 else LiveCount(to - 1) + (if Live(to - 1) then 1 else 0)
    }

    // Unshadowed rows have distinct ids.
    predicate Distinct(to: nat)
      requires to <= |rows|
    {
      forall i, k | 0 <= i < k < to && Live(i) && Live(k) :: At(i).id != At(k).id
    }

    function Ids(to: nat): set<string>
      requires to <= |rows|
    {
      if to == 0 then {} else Ids(to - 1) + (if Live(to - 1) then {At(to - 1).id} else {})
    }
  }

  // ----- Batches -----

  // What writing a range leaves at an id: the image of the last row that writes it, or what
  // was there.
  predicate WrittenAs(p: Part, from: nat, to: nat, table: Rows, after: Rows, id: string)
    requires from <= to <= |p.rows|
  {
    match p.LastWriter(from, to, id)
    case Some(k) => id in after && after[id] == p.At(k)
    case None => (id in after <==> id in table) && (id in table ==> after[id] == table[id])
  }

  lemma WriteStep(p: Part, from: nat, to: nat, table: Rows, before: Rows, id: string)
    requires from < to <= |p.rows| && p.Live(to - 1) && WrittenAs(p, from, to - 1, table, before, id)
    ensures WrittenAs(p, from, to, table, before[p.At(to - 1).id := p.At(to - 1)], id)
  {
    hide Image;
  }

  // An upsert of a batch leaves that at each id.
  lemma {:induction false} UpsertAt(p: Part, from: nat, to: nat, table: Rows, id: string)
    requires from <= to <= |p.rows|
    ensures WrittenAs(p, from, to, table, Upsert(table, p.Items(from, to)), id)
  {
    if from < to {
      UpsertAt(p, from, to - 1, table, id);
      var earlier := p.Items(from, to - 1);
      if p.Live(to - 1) {
        UpsertSnoc(table, earlier, p.At(to - 1));
        WriteStep(p, from, to, table, Upsert(table, earlier), id);
        hide Upsert, Image, WrittenAs;
      } else {
        assert p.Items(from, to) == earlier;
        hide Upsert, Image;
      }
    }
  }

  lemma UpsertSnoc(table: Rows, items: seq<MemoryItem>, last: MemoryItem)
    ensures Upsert(table, items + [last]) == Upsert(table, items)[last.id := last]
  {
    assert (items + [last])[..|items|] == items;
  }

  function MarkItems(dedup: Hashes, items: seq<MemoryItem>): Hashes {
    if items == [] then dedup
    else
      var last := items[|items| - 1];
      Mark(MarkItems(dedup, items[..|items| - 1]), RawDerivedKey(last.id), last.metadata.contentHash)
  }

  lemma NoMarks(dedup: Hashes)
    ensures MarkItems(dedup, []) == dedup
  {
  }

  lemma MarkSnoc(dedup: Hashes, items: seq<MemoryItem>, last: MemoryItem)
    ensures MarkItems(dedup, items + [last]) ==
      Mark(MarkItems(dedup, items), RawDerivedKey(last.id), last.metadata.contentHash)
  {
    assert (items + [last])[..|items|] == items;
  }

  // What marking a batch leaves under the key of an id: the hash of the last row that
  // writes the id, or what was there.
  predicate MarkedAs(p: Part, from: nat, to: nat, dedup: Hashes, after: Hashes, id: string)
    requires from <= to <= |p.rows|
  {
    var key := RawDerivedKey(id);
    match p.LastWriter(from, to, id)
    case Some(k) => p.rows[k].hash != "" ==> Seen(after, key, p.rows[k].hash)
    case None => (key in after <==> key in dedup) && (key in dedup ==> after[key] == dedup[key])
  }

  lemma MarkStep(p: Part, from: nat, to: nat, dedup: Hashes, before: Hashes, id: string)
    requires from < to <= |p.rows| && p.Live(to - 1) && MarkedAs(p, from, to - 1, dedup, before, id)
    ensures MarkedAs(p, from, to, dedup, Mark(before, RawDerivedKey(p.At(to - 1).id), p.rows[to - 1].hash), id)
  {
    DerivedKeysDiffer(id, p.At(to - 1).id);
    KeyNotEmpty(p.At(to - 1).id);
    hide Image, RawDerivedKey;
  }

  lemma MarkNone(p: Part, at: nat, dedup: Hashes, id: string)
    requires at <= |p.rows|
    ensures MarkedAs(p, at, at, dedup, MarkItems(dedup, p.Items(at, at)), id)
  {
    NoMarks(dedup);
  }

  lemma MarkHash(p: Part, i: nat)
    requires i < |p.rows|
    ensures p.At(i).metadata.contentHash == p.rows[i].hash
  {
  }

  lemma {:induction false} MarkAt(p: Part, from: nat, to: nat, dedup: Hashes, id: string)
    requires from <= to <= |p.rows|
    ensures MarkedAs(p, from, to, dedup, MarkItems(dedup, p.Items(from, to)), id)
  {
    hide MarkItems, Image, MarkedAs, Mark;
    if from == to {
      MarkNone(p, from, dedup, id);
    } else {
      MarkAt(p, from, to - 1, dedup, id);
      var earlier := p.Items(from, to - 1);
      if p.Live(to - 1) {
        MarkHash(p, to - 1);
        MarkSnoc(dedup, earlier, p.At(to - 1));
        MarkStep(p, from, to, dedup, MarkItems(dedup, earlier), id);
      } else {
        assert p.Items(from, to) == earlier;
        MarkSkip(p, from, to, dedup, MarkItems(dedup, earlier), id);
      }
    }
  }

  lemma MarkSkip(p: Part, from: nat, to: nat, dedup: Hashes, before: Hashes, id: string)
    requires from < to <= |p.rows| && !p.Live(to - 1) && MarkedAs(p, from, to - 1, dedup, before, id)
    ensures MarkedAs(p, from, to, dedup, before, id)
  {
    hide Image, RawDerivedKey;
  }

  // Copying the rows after an offset extends what is covered; copying them again, after a
  // crash, does no harm.
  lemma CoversMore(p: Part, from: nat, to: nat, table: Rows)
    requires from <= to <= |p.rows| && p.Covers(from, table)
    ensures p.Covers(to, Upsert(table, p.Items(from, to)))
  {
    hide Image, Upsert;
    forall i | 0 <= i < to && p.Last(i)
      ensures p.Written(i, Upsert(table, p.Items(from, to)))
    {
      UpsertAt(p, from, to, table, p.At(i).id);
    }
  }

  lemma CoversMoreMarks(p: Part, from: nat, to: nat, dedup: Hashes)
    requires from <= to <= |p.rows| && p.CoversMarks(from, dedup)
    ensures p.CoversMarks(to, MarkItems(dedup, p.Items(from, to)))
  {
    hide Image, MarkItems, RawDerivedKey;
    forall i | 0 <= i < to && p.Last(i)
      ensures p.Marked(i, MarkItems(dedup, p.Items(from, to)))
    {
      MarkAt(p, from, to, dedup, p.At(i).id);
    }
  }

  lemma StaysExplained(p: Part, from: nat, to: nat, table: Rows, base: Rows)
    requires from <= to <= |p.rows| && p.OnlyImages(table, base)
    ensures p.OnlyImages(Upsert(table, p.Items(from, to)), base)
  {
    hide Image, Upsert;
    var after := Upsert(table, p.Items(from, to));
    forall id | id in after
      ensures p.Explained(id, after[id], base)
    {
      UpsertAt(p, from, to, table, id);
    }
    forall id | id in base
      ensures id in after
    {
      UpsertAt(p, from, to, table, id);
    }
  }

  // ----- What completion means -----

  lemma {:induction false} IdsAre(p: Part, to: nat)
    requires to <= |p.rows|
    ensures forall id :: id in p.Ids(to) <==> exists i | 0 <= i < to :: p.Live(i) && p.At(i).id == id
  {
    if to > 0 {
      IdsAre(p, to - 1);
      hide Image;
    }
  }

  lemma DistinctStep(p: Part, to: nat)
    requires 0 < to <= |p.rows|
    ensures p.Distinct(to) <==> p.Distinct(to - 1) && (p.Live(to - 1) ==> p.At(to - 1).id !in p.Ids(to - 1))
  {
    hide Image;
    IdsAre(p, to - 1);
    if p.Live(to - 1) && p.At(to - 1).id in p.Ids(to - 1) {
      var i :| 0 <= i < to - 1 && p.Live(i) && p.At(i).id == p.At(to - 1).id;
      assert !p.Distinct(to);
    }
  }

  lemma {:induction false} IdsCount(p: Part, to: nat)
    requires to <= |p.rows|
    ensures |p.Ids(to)| <= p.LiveCount(to)
    ensures |p.Ids(to)| == p.LiveCount(to) <==> p.Distinct(to)
  {
    if to > 0 {
      IdsCount(p, to - 1);
      DistinctStep(p, to);
      var ids := p.Ids(to - 1);
      var last := p.At(to - 1).id;
      hide Image;
      OneMoreId(ids, last);
      hide Part.Distinct;
      assert p.Ids(to) == ids + (if p.Live(to - 1) then {last} else {});
    }
  }

  lemma OneMoreId(ids: set<string>, id: string)
    ensures |ids + {id}| == |ids| + (if id in ids then 0 else 1) && ids + {} == ids
  {
    assert id in ids ==> ids + {id} == ids;
  }

  // Rows of one id have one image.
  predicate OneImage(p: Part) {
    forall i, k | 0 <= i < k < |p.rows| && p.Live(i) && p.Live(k) && p.At(i).id == p.At(k).id :: p.At(i) == p.At(k)
  }

  predicate AllWritten(p: Part, table: Rows) {
    forall i | 0 <= i < |p.rows| && p.Live(i) :: p.Written(i, table)
  }

  lemma LastOf(p: Part, id: string)
    requires p.LastWriter(0, |p.rows|, id).Some?
    ensures p.Last(p.LastWriter(0, |p.rows|, id).value)
  {
    hide Image;
  }

  // A full copy leaves the ids that were there and those of the unshadowed rows.
  lemma KeysAreIds(p: Part, table: Rows, base: Rows)
    requires p.Covers(|p.rows|, table) && p.OnlyImages(table, base)
    ensures table.Keys == base.Keys + p.Ids(|p.rows|)
  {
    hide Image;
    var n := |p.rows|;
    IdsAre(p, n);
    forall id | id in table.Keys
      ensures id in base.Keys + p.Ids(n)
    {
      assert p.Explained(id, table[id], base);
    }
    forall id | id in p.Ids(n)
      ensures id in table.Keys
    {
      LastOf(p, id);
      assert p.Written(p.LastWriter(0, n, id).value, table);
    }
  }

  // It holds the image of every unshadowed row exactly when rows of one id have one image.
  lemma AllWrittenIff(p: Part, table: Rows)
    requires p.Covers(|p.rows|, table)
    ensures AllWritten(p, table) <==> OneImage(p)
  {
    hide Image;
    if AllWritten(p, table) {
      forall i, k | 0 <= i < k < |p.rows| && p.Live(i) && p.Live(k) && p.At(i).id == p.At(k).id
        ensures p.At(i) == p.At(k)
      {
        assert p.Written(i, table) && p.Written(k, table);
      }
    }
    if OneImage(p) {
      forall i | 0 <= i < |p.rows| && p.Live(i)
        ensures p.Written(i, table)
      {
        LastOf(p, p.At(i).id);
        assert p.Written(p.LastWriter(0, |p.rows|, p.At(i).id).value, table);
      }
    }
  }

  // The test at the end of a copy: as many rows as there were unshadowed ones.
  ghost predicate CountPasses(p: Part, base: Rows) { |base.Keys + p.Ids(|p.rows|)| >= p.LiveCount(|p.rows|) }

  // The test passes exactly when no fewer unrelated rows were there before than rows were
  // lost to shared ids. So distinct ids always pass it, and only they do so into an empty
  // table.
  lemma CountPassesIff(p: Part, base: Rows)
    ensures CountPasses(p, base) <==> |base.Keys - p.Ids(|p.rows|)| >= p.LiveCount(|p.rows|) - |p.Ids(|p.rows|)|
    ensures p.Distinct(|p.rows|) ==> CountPasses(p, base) && OneImage(p)
    ensures base == map[] ==> (CountPasses(p, base) <==> p.Distinct(|p.rows|))
  {
    hide Image;
    var ids := p.Ids(|p.rows|);
    IdsCount(p, |p.rows|);
    assert base.Keys + ids == (base.Keys - ids) + ids;
    if base == map[] { assert base.Keys + ids == ids; }
  }

  // Into a table that holds anything else, two rows of one path pass the test, though the
  // first is lost.
  lemma CollisionGoesUnnoticed(row: V4Row, other: V4Row, base: Rows)
    requires row.path == other.path != "" && !IsMessagePath(row.path) && row.text != other.text
    requires base != map[] && V4MessageId(row.path, row.id).0 !in base
    ensures var p := Part([row, other], Shadowed([row, other]), false);
      var table := Upsert(base, p.Items(0, 2));
      p.Live(0) && CountPasses(p, base) && |table| >= p.LiveCount(2) && !p.Written(0, table) && !p.Distinct(2)
  {
    var p := Part([row, other], Shadowed([row, other]), false);
    assert Shadowed([row, other]) == {} by { hide IsMessagePath, PlainPath; }
    assert p.At(0).id == p.At(1).id && p.At(0).text != p.At(1).text;
    OneIsLost(p, base);
  }

  lemma TwoLive(p: Part)
    requires |p.rows| == 2 && p.Live(0) && p.Live(1) && p.At(0).id == p.At(1).id
    ensures p.LiveCount(2) == 2 && p.Ids(2) == {p.At(0).id}
  {
    hide Image;
    var n := 1;
    assert p.LiveCount(n) == 1 && p.Ids(n) == {p.At(0).id};
    assert p.LiveCount(n + 1) == p.LiveCount(n) + 1 && p.Ids(n + 1) == p.Ids(n) + {p.At(n).id};
  }

  lemma OneIsLost(p: Part, base: Rows)
    requires |p.rows| == 2 && p.Live(0) && p.Live(1) && p.At(0).id == p.At(1).id && p.At(0) != p.At(1)
    requires base != map[] && p.At(0).id !in base
    ensures var table := Upsert(base, p.Items(0, 2));
      CountPasses(p, base) && |table| >= p.LiveCount(2) && !p.Written(0, table) && !p.Distinct(2)
  {
    var table := Upsert(base, p.Items(0, 2));
    CopiedNothing(p, base);
    CopiedMore(p, 0, 2, base, base);
    hide Image, Upsert, Part.Items;
    KeysAreIds(p, table, base);
    var id := p.At(0).id;
    TwoLive(p);
    hide Part.LiveCount, Part.Ids;
    var some :| some in base;
    AtLeast({some, id}, base.Keys + {id});
    assert p.Last(1);
    assert p.Written(1, table);
  }

  lemma AtLeast(small: set<string>, large: set<string>)
    requires small <= large
    ensures |small| <= |large|
  {
    assert large == small + (large - small);
  }

  // Distinct non-empty paths keep message ids distinct, because a plain path whose twin is
  // among the messages is shadowed.
  lemma MessagesStayDistinct(rows: seq<V4Row>)
    requires forall i | 0 <= i < |rows| :: rows[i].path != ""
    requires forall i, k | 0 <= i < k < |rows| :: rows[i].path != rows[k].path
    ensures Part(rows, Shadowed(rows), false).Distinct(|rows|)
  {
    var p := Part(rows, Shadowed(rows), false);
    forall i, k | 0 <= i < k < |rows| && p.Live(i) && p.Live(k)
      ensures p.At(i).id != p.At(k).id
    {
      V4IdsCollide(rows[i].path, rows[k].path, rows[i].id, rows[k].id);
      assert rows[i] in rows && rows[k] in rows;
    }
  }

  // The same for chunks, each a distinct part of a message that is among the messages.
  lemma ChunksStayDistinct(messages: seq<V4Row>, rows: seq<V4Row>)
    requires forall i | 0 <= i < |rows| :: rows[i].path != "" && exists m | m in messages :: m.path == rows[i].path
    requires forall i, k | 0 <= i < k < |rows| ::
      rows[i].path != rows[k].path || rows[i].chunkIndex != rows[k].chunkIndex
    ensures Part(rows, Shadowed(messages), true).Distinct(|rows|)
  {
    var p := Part(rows, Shadowed(messages), true);
    forall i, k | 0 <= i < k < |rows| && p.Live(i) && p.Live(k)
      ensures p.At(i).id != p.At(k).id
    {
      var a, b := V4MessageId(rows[i].path, rows[i].id).0, V4MessageId(rows[k].path, rows[k].id).0;
      if p.At(i).id == p.At(k).id {
        ChunkIdInjective(a, rows[i].chunkIndex, b, rows[k].chunkIndex);
        V4IdsCollide(rows[i].path, rows[k].path, rows[i].id, rows[k].id);
      }
    }
  }

  // ----- The copy -----

  datatype Checkpoint = Checkpoint(messages: nat, chunks: nat, complete: bool)

  function Offset(state: Checkpoint, chunk: bool): nat { if chunk then state.chunks else state.messages }

  ghost predicate CopiedTo(p: Part, offset: nat, table: Rows, base: Rows) {
    offset <= |p.rows| && p.Covers(offset, table) && p.OnlyImages(table, base)
  }

  ghost predicate MarkedTo(p: Part, offset: nat, dedup: Hashes) {
    offset <= |p.rows| && p.CoversMarks(offset, dedup)
  }

  lemma WithinRows(p: Part, offset: nat, table: Rows, base: Rows)
    requires CopiedTo(p, offset, table, base)
    ensures offset <= |p.rows|
  {
  }

  lemma CopiedMore(p: Part, from: nat, to: nat, table: Rows, base: Rows)
    requires from <= to <= |p.rows| && CopiedTo(p, from, table, base)
    ensures var after := Upsert(table, p.Items(from, to));
      CopiedTo(p, from, after, base) && CopiedTo(p, to, after, base)
  {
    CoversMore(p, from, to, table);
    StaysExplained(p, from, to, table, base);
  }

  lemma MarkedMore(p: Part, from: nat, to: nat, dedup: Hashes)
    requires from <= to <= |p.rows| && MarkedTo(p, from, dedup)
    ensures var after := MarkItems(dedup, p.Items(from, to)); MarkedTo(p, from, after) && MarkedTo(p, to, after)
  {
    CoversMoreMarks(p, from, to, dedup);
  }

  lemma CopiedNothing(p: Part, table: Rows)
    ensures CopiedTo(p, 0, table, table) && forall dedup :: MarkedTo(p, 0, dedup)
  {
  }

  method ShadowedPaths(messages: seq<V4Row>) returns (shadowed: set<string>)
    ensures shadowed == Shadowed(messages)
  {
    shadowed := {};
    for i := 0 to |messages|
      invariant shadowed == Shadowed(messages[..i])
    {
      assert messages[..i + 1] == messages[..i] + [messages[i]];
      var path := messages[i].path;
      if IsMessagePath(path) { shadowed := shadowed + {PlainPath(path)}; }
      ShadowedSnoc(messages[..i], messages[i]);
    }
    assert messages[..|messages|] == messages;
  }

  lemma ShadowedSnoc(rows: seq<V4Row>, last: V4Row)
    ensures Shadowed(rows + [last]) ==
      Shadowed(rows) + (if IsMessagePath(last.path) then {PlainPath(last.path)} else {})
  {
    hide IsMessagePath, PlainPath;
    assert forall row :: row in rows + [last] <==> row in rows || row == last;
  }

  method ExpectedRows(p: Part) returns (expected: int)
    ensures expected == p.LiveCount(|p.rows|)
  {
    expected := |p.rows|;
    for i := 0 to |p.rows|
      invariant expected == |p.rows| - i + p.LiveCount(i)
    {
      if p.rows[i].path in p.shadowed { expected := expected - 1; }
    }
  }

  method V4Items(p: Part, from: nat, to: nat) returns (items: seq<MemoryItem>)
    requires from <= to <= |p.rows|
    ensures items == p.Items(from, to)
  {
    items := [];
    for i := from to to
      invariant items == p.Items(from, i)
    {
      if p.rows[i].path in p.shadowed { continue; }
      items := items + [Image(p.rows[i], p.chunk)];
    }
  }

  // The two tables of the source, at the versions that the first run pinned.
  datatype Source = Source(messages: seq<V4Row>, chunks: seq<V4Row>) {
    function PartOf(chunk: bool): Part { Part(if chunk then chunks else messages, Shadowed(messages), chunk) }
  }

  // What runs leave: the offsets of the checkpoint cover only rows already written and, for
  // messages, already marked in the saved hashes, and a complete copy has passed the test.
  ghost predicate Reached(source: Source, messages: Rows, chunks: Rows, saved: Hashes, checkpoint: Checkpoint,
                          baseMessages: Rows, baseChunks: Rows) {
    && CopiedTo(source.PartOf(false), checkpoint.messages, messages, baseMessages)
    && CopiedTo(source.PartOf(true), checkpoint.chunks, chunks, baseChunks)
    && MarkedTo(source.PartOf(false), checkpoint.messages, saved)
    && (checkpoint.chunks > 0 || checkpoint.complete ==> checkpoint.messages == |source.messages|)
    && (checkpoint.complete ==>
        && checkpoint.chunks == |source.chunks|
        && CountPasses(source.PartOf(false), baseMessages) && CountPasses(source.PartOf(true), baseChunks))
  }

  // Without a checkpoint file any tables and hashes will do.
  lemma FreshIsReached(source: Source, messages: Rows, chunks: Rows, saved: Hashes)
    ensures Reached(source, messages, chunks, saved, Checkpoint(0, 0, false), messages, chunks)
  {
    CopiedNothing(source.PartOf(false), messages);
    CopiedNothing(source.PartOf(true), chunks);
  }

  // `calm` is a promise of the environment: no request and no save fails during the call.
  class Migrator {
    const source: Source
    // What the tables held before the first run.
    ghost const baseMessages: Rows
    ghost const baseChunks: Rows
    // What outlives the process: the tables, the saved dedup hashes and the checkpoint.
    var messages: Rows
    var chunks: Rows
    var saved: Hashes
    var checkpoint: Checkpoint
    // What does not.
    var dedup: Hashes

    function Table(chunk: bool): Rows
      reads this
    {
      if chunk then chunks else messages
    }

    ghost function Base(chunk: bool): Rows { if chunk then baseChunks else baseMessages }

    ghost predicate Passes(chunk: bool) { CountPasses(source.PartOf(chunk), Base(chunk)) }

    ghost predicate Valid()
      reads this
    {
      && Reached(source, messages, chunks, saved, checkpoint, baseMessages, baseChunks)
      && MarkedTo(source.PartOf(false), checkpoint.messages, dedup)
    }

    // A process starts from what is stored: the tables, the hashes and the checkpoint, if any,
    // of the runs so far.
    constructor (source: Source, messages: Rows, chunks: Rows, saved: Hashes, checkpoint: Checkpoint,
                 ghost baseMessages: Rows, ghost baseChunks: Rows)
      requires Reached(source, messages, chunks, saved, checkpoint, baseMessages, baseChunks)
      ensures Valid() && this.source == source && this.checkpoint == checkpoint
      ensures this.messages == messages && this.chunks == chunks && this.saved == saved == dedup
      ensures this.baseMessages == baseMessages && this.baseChunks == baseChunks
    {
      this.source, this.messages, this.chunks := source, messages, chunks;
      this.baseMessages, this.baseChunks := baseMessages, baseChunks;
      this.saved, dedup, this.checkpoint := saved, saved, checkpoint;
    }

    // Without a checkpoint file the first run starts on whatever the tables hold.
    constructor Fresh(source: Source, messages: Rows, chunks: Rows, saved: Hashes)
      ensures Valid() && this.source == source && checkpoint == Checkpoint(0, 0, false)
      ensures this.messages == baseMessages == messages && this.chunks == baseChunks == chunks
      ensures this.saved == saved == dedup
    {
      this.source, this.messages, this.chunks := source, messages, chunks;
      this.baseMessages, this.baseChunks := messages, chunks;
      this.saved, dedup, checkpoint := saved, saved, Checkpoint(0, 0, false);
      new;
      FreshIsReached(source, messages, chunks, saved);
    }

    // Writes a batch into its table; the write happens as a whole or not at all.
    method UpsertTable(chunk: bool, from: nat, to: nat, items: seq<MemoryItem>, calm: bool) returns (ok: bool)
      requires Valid() && !checkpoint.complete && from == Offset(checkpoint, chunk)
        && from <= to <= |source.PartOf(chunk).rows|
      requires items == source.PartOf(chunk).Items(from, to)
      modifies this`messages, this`chunks
      ensures Valid() && (ok ==> CopiedTo(source.PartOf(chunk), to, Table(chunk), Base(chunk)))
      ensures Table(chunk) == if ok then Upsert(old(Table(chunk)), items) else old(Table(chunk))
      ensures Table(!chunk) == old(Table(!chunk)) && (calm ==> ok)
    {
      hide CopiedTo, MarkedTo, CountPasses, Upsert, Image, Part.LiveCount;
      var failed: bool := *;
      ok := !failed || calm;
      if !ok { return; }
      CopiedMore(source.PartOf(chunk), from, to, Table(chunk), Base(chunk));
      if chunk { chunks := Upsert(chunks, items); } else { messages := Upsert(messages, items); }
    }

    // Marks a batch of messages and saves the hashes.
    method MarkMessages(from: nat, to: nat, items: seq<MemoryItem>, calm: bool) returns (ok: bool)
      requires Valid() && from == checkpoint.messages && from <= to <= |source.messages|
        && items == source.PartOf(false).Items(from, to)
      modifies this`dedup, this`saved
      ensures Valid() && dedup == MarkItems(old(dedup), items)
      ensures ok ==> saved == dedup && MarkedTo(source.PartOf(false), to, saved)
      ensures !ok ==> saved == old(saved)
      ensures calm ==> ok
    {
      hide CopiedTo, MarkedTo, CountPasses, MarkItems, Mark, Image, Part.Items, Part.LiveCount;
      MarkedMore(source.PartOf(false), from, to, dedup);
      NoMarks(dedup);
      assert items[..0] == [];
      for i := 0 to |items|
        invariant dedup == MarkItems(old(dedup), items[..i]) && saved == old(saved)
      {
        assert items[..i + 1] == items[..i] + [items[i]];
        MarkSnoc(old(dedup), items[..i], items[i]);
        dedup := Mark(dedup, RawDerivedKey(items[i].id), items[i].metadata.contentHash);
      }
      assert items[..|items|] == items;
      var failed: bool := *;
      ok := !failed || calm;
      if ok { saved := dedup; }
    }

    // Copies the rows of one table after the saved offset, batch by batch, and tests the row
    // count. When no step fails, the test alone decides.
    method CopyPart(chunk: bool, shadowed: set<string>, batch: nat, calm: bool) returns (ok: bool)
      requires Valid() && !checkpoint.complete && batch > 0 && shadowed == Shadowed(source.messages)
      requires chunk ==> checkpoint.messages == |source.messages|
      modifies this`messages, this`chunks, this`dedup, this`saved, this`checkpoint
      ensures Valid() && !checkpoint.complete
      ensures chunk ==> checkpoint.messages == |source.messages| && messages == old(messages)
      ensures !chunk ==> checkpoint.chunks == old(checkpoint).chunks && chunks == old(chunks)
      ensures ok ==> Passes(chunk) && Offset(checkpoint, chunk) == |source.PartOf(chunk).rows|
      ensures calm ==> (ok <==> Passes(chunk)) && Offset(checkpoint, chunk) == |source.PartOf(chunk).rows|
    {
      hide CopiedTo, MarkedTo, CountPasses, Upsert, MarkItems, Image, Shadowed;
      var p := Part(if chunk then source.chunks else source.messages, shadowed, chunk);
      var expected := ExpectedRows(p);
      while true
        invariant Valid() && !checkpoint.complete
        invariant chunk ==> checkpoint.messages == |source.messages| && messages == old(messages)
        invariant !chunk ==> checkpoint.chunks == old(checkpoint).chunks && chunks == old(chunks)
        decreases |p.rows| - Offset(checkpoint, chunk)
      {
        var unreadable: bool := *;
        if unreadable && !calm { return false; }
        var from := Offset(checkpoint, chunk);
        WithinRows(p, from, Table(chunk), Base(chunk));
        var to := Min(from + batch, |p.rows|);
        if from == to { break; }
        var items := V4Items(p, from, to);
        var written := UpsertTable(chunk, from, to, items, calm);
        if !written { return false; }
        if !chunk {
          var marked := MarkMessages(from, to, items, calm);
          if !marked { return false; }
        }
        var unsaved: bool := *;
        if unsaved && !calm { return false; }
        checkpoint := if chunk then checkpoint.(chunks := to) else checkpoint.(messages := to);
      }
      var uncounted: bool := *;
      if uncounted && !calm { return false; }
      var rows := |Table(chunk)|;
      CountIsTest(p, Table(chunk), Base(chunk));
      ok := rows >= expected;
    }

    // One run of the migration; it goes on from the checkpoint, and stops at the first
    // step that fails. A run in which none does completes exactly when both tables pass.
    method MigrateFrom(batchSize: int, calm: bool) returns (ok: bool)
      requires Valid()
      modifies this`messages, this`chunks, this`dedup, this`saved, this`checkpoint
      ensures Valid() && (ok <==> checkpoint.complete)
      ensures calm ==> (ok <==> Passes(false) && Passes(true))
      ensures old(checkpoint).complete ==>
        ok && checkpoint == old(checkpoint) && messages == old(messages) && chunks == old(chunks)
    {
      hide CopiedTo, MarkedTo, CountPasses, Shadowed;
      if checkpoint.complete { return true; }
      var batch := if batchSize <= 0 then 1024 else batchSize;
      var shadowed := ShadowedPaths(source.messages);
      ok := CopyPart(false, shadowed, batch, calm);
      if !ok { return; }
      ok := CopyPart(true, shadowed, batch, calm);
      if !ok { return; }
      var unsaved: bool := *;
      if unsaved && !calm { return false; }
      checkpoint := checkpoint.(complete := true);
    }

    // The process dies and starts again.
    method Restart()
      requires Valid()
      modifies this`dedup
      ensures Valid() && dedup == saved
    {
      dedup := saved;
    }

    // Any number of runs, each of which may fail or crash anywhere. Once one has completed,
    // both tables hold what they held and the last image of every id, the saved hashes hold
    // its mark, and no unshadowed row was lost unless another of its id differs from it; when
    // the ids are distinct, all rows are there and marked, whatever the tables held.
    method Runs(batchSizes: seq<int>, calm: seq<bool>)
      requires Valid() && |calm| == |batchSizes|
      modifies this`messages, this`chunks, this`dedup, this`saved, this`checkpoint
      ensures Valid()
      ensures checkpoint.complete ==> forall chunk :: Completed(chunk)
      ensures checkpoint.complete ==> source.PartOf(false).CoversMarks(|source.messages|, saved)
      ensures checkpoint.complete && source.PartOf(false).Distinct(|source.messages|) ==>
        forall i | 0 <= i < |source.messages| && source.PartOf(false).Live(i) :: source.PartOf(false).Marked(i, saved)
      ensures calm != [] && calm[|calm| - 1] ==> (checkpoint.complete <==> Passes(false) && Passes(true))
    {
      hide Valid, Completed, CountPasses, Part.CoversMarks, Part.Distinct;
      for i := 0 to |batchSizes|
        invariant Valid()
        invariant 0 < i && calm[i - 1] ==> (checkpoint.complete <==> Passes(false) && Passes(true))
      {
        var ok := MigrateFrom(batchSizes[i], calm[i]);
        if !ok { Restart(); }
      }
      if checkpoint.complete {
        CompleteIsAll(true);
        CompleteIsAll(false);
        CompleteIsMarked();
      }
    }

    lemma CompleteIsAll(chunk: bool)
      requires Valid() && checkpoint.complete
      ensures Completed(chunk)
    {
      var p := source.PartOf(chunk);
      hide MarkedTo, Image, Shadowed;
      KeysAreIds(p, Table(chunk), Base(chunk));
      AllWrittenIff(p, Table(chunk));
      CountPassesIff(p, Base(chunk));
    }

    lemma CompleteIsMarked()
      requires Valid() && checkpoint.complete
      ensures source.PartOf(false).CoversMarks(|source.messages|, saved)
      ensures source.PartOf(false).Distinct(|source.messages|) ==>
        forall i | 0 <= i < |source.messages| && source.PartOf(false).Live(i) :: source.PartOf(false).Marked(i, saved)
    {
      hide CopiedTo, CountPasses, Image, Shadowed;
      if source.PartOf(false).Distinct(|source.messages|) { AllMarked(source.PartOf(false), saved); }
    }

    ghost predicate Completed(chunk: bool)
      reads this
    {
      var p := source.PartOf(chunk);
      && CopiedTo(p, |p.rows|, Table(chunk), Base(chunk)) && Passes(chunk)
      && Table(chunk).Keys == Base(chunk).Keys + p.Ids(|p.rows|)
      && (AllWritten(p, Table(chunk)) <==> OneImage(p)) && (p.Distinct(|p.rows|) ==> AllWritten(p, Table(chunk)))
    }
  }

  // The count of a full copy decides the test.
  lemma CountIsTest(p: Part, table: Rows, base: Rows)
    requires CopiedTo(p, |p.rows|, table, base)
    ensures |table| >= p.LiveCount(|p.rows|) <==> CountPasses(p, base)
  {
    KeysAreIds(p, table, base);
    hide Image;
    assert |table| == |table.Keys|;
  }

  lemma AllMarked(p: Part, saved: Hashes)
    requires p.CoversMarks(|p.rows|, saved) && p.Distinct(|p.rows|)
    ensures forall i | 0 <= i < |p.rows| && p.Live(i) :: p.Marked(i, saved)
  {
    hide Image;
    forall i | 0 <= i < |p.rows| && p.Live(i)
      ensures p.Marked(i, saved)
    {
      assert p.Last(i);
    }
  }
}
