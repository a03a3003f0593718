// A migrated row gets the id that the raw parser gives the same turn, so that parsing the
// raw logs again after the move finds it (lance_sql.go, `v4MessageID`; raw_parser.go, `rawRecord`).
module MigratedIds {
  import opened Wrappers
  import opened Text
  import opened V4Ids
  import opened SessionParse
  import opened Migration
  import opened Records
  import opened Tables
  import opened ContextUnits
  import opened RawIngest
  function Path5(a: string, b: string, c: string, d: string, e: string): string {
    a + "/" + (b + "/" + (c + "/" + (d + "/" + e)))
  }

  lemma PiecesOfPath(a: string, b: string, c: string, d: string, e: string)
    requires Free(a) && Free(b) && Free(c) && Free(d) && Free(e)
    ensures V4Ids.Pieces(Path5(a, b, c, d, e)) == [a, b, c, d, e]
  {
    hide SplitOn;
    PieceAlone(e);
    PiecesOf(d, e);
    PiecesOf(c, d + "/" + e);
    PiecesOf(b, c + "/" + (d + "/" + e));
    PiecesOf(a, b + "/" + (c + "/" + (d + "/" + e)));
  }

  function Count(s: string): nat { |V4Ids.Pieces(s)| }

  // Joining paths adds up their pieces.
  lemma {:induction false} PiecesAdd(a: string, rest: string)
    ensures Count(a + "/" + rest) == Count(a) + Count(rest)
  {
    var s := a + "/" + rest;
    SplitOnStep(s, '/');
    if a == "" {
      assert s[1..] == rest;
    } else {
      SplitOnStep(a, '/');
      assert s[0] == a[0] && s[1..] == a[1..] + "/" + rest;
      PiecesAdd(a[1..], rest);
      hide SplitOn;
    }
  }

  lemma {:induction false} OnePieceIff(s: string)
    ensures Count(s) >= 1 && (Count(s) == 1 <==> Free(s))
  {
    if s != "" {
      SplitOnStep(s, '/');
      OnePieceIff(s[1..]);
      assert s == [s[0]] + s[1..];
      hide SplitOn;
      assert '/' in s <==> s[0] == '/' || '/' in s[1..];
    }
  }

  predicate AllFree(o: Origin, session: string, turn: string) {
    Free(o.host) && Free(o.harness) && Free(session) && Free(turn)
  }

  lemma CountOfPath(o: Origin, session: string, kind: string, turn: string)
    ensures Count(Path5(o.host, o.harness, session, kind, turn)) >= 5
    ensures Count(Path5(o.host, o.harness, session, kind, turn)) == 5 <==> AllFree(o, session, turn) && Free(kind)
  {
    PiecesAdd(kind, turn);
    PiecesAdd(session, kind + "/" + turn);
    PiecesAdd(o.harness, session + "/" + (kind + "/" + turn));
    PiecesAdd(o.host, o.harness + "/" + (session + "/" + (kind + "/" + turn)));
    OnePieceIff(turn);
    OnePieceIff(kind);
    OnePieceIff(session);
    OnePieceIff(o.harness);
    OnePieceIff(o.host);
    hide V4Ids.Pieces, Free;
  }

  // The id and kind of a row that the raw parser makes.
  function ParsedId(o: Origin, session: string, turn: string, kind: string): string {
    var prefix := o.host + "/" + o.harness + "/" + session + "/";
    if kind != "message" then prefix + kind + "/" + turn else prefix + turn
  }

  lemma ParsedIdIs(codec: SessionParse.Codec, o: Origin, session: string, turn: string, role: string, text: string,
                   ts: int, project: string, kind: string)
    ensures RawRecord(codec, o, session, turn, role, text, ts, project, kind).id == ParsedId(o, session, turn, kind)
  {
  }

  lemma PrefixIs(o: Origin, session: string, kind: string, turn: string)
    ensures var prefix := o.host + "/" + o.harness + "/" + session + "/";
      prefix + kind + "/" + turn == Path5(o.host, o.harness, session, kind, turn) != ""
  {
    var path := Path5(o.host, o.harness, session, kind, turn);
    var prefix := o.host + "/" + o.harness + "/" + session + "/";
    assert prefix + kind + "/" + turn == path;
    assert |path| >= 4;
  }

  // The v4 path of a title, todo, tool or task row is its parsed id, and its kind comes out
  // exactly when no part holds a slash.
  lemma StateIdIsParsedId(o: Origin, session: string, turn: string, kind: string, v4Id: string)
    requires kind != "message"
    ensures var migrated := V4MessageId(Path5(o.host, o.harness, session, kind, turn), v4Id);
      && migrated.0 == ParsedId(o, session, turn, kind)
      && (migrated.1 == kind <==> AllFree(o, session, turn) && Free(kind))
  {
    var path := Path5(o.host, o.harness, session, kind, turn);
    CountOfPath(o, session, kind, turn);
    PrefixIs(o, session, kind, turn);
    if AllFree(o, session, turn) && Free(kind) { PiecesOfPath(o.host, o.harness, session, kind, turn); }
    hide V4Ids.Pieces, Path5;
  }

  // The /message/ path of a message maps to its parsed id exactly when no part holds a slash.
  lemma MessageIdIsParsedIdIff(o: Origin, session: string, turn: string, v4Id: string)
    ensures var migrated := V4MessageId(Path5(o.host, o.harness, session, "message", turn), v4Id);
      && migrated.1 == "message"
      && (migrated.0 == ParsedId(o, session, turn, "message") <==> AllFree(o, session, turn))
  {
    var path := Path5(o.host, o.harness, session, "message", turn);
    CountOfPath(o, session, "message", turn);
    PrefixIs(o, session, "message", turn);
    assert Free("message");
    assert |path| != |ParsedId(o, session, turn, "message")|;
    if AllFree(o, session, turn) { PiecesOfPath(o.host, o.harness, session, "message", turn); }
    hide V4Ids.Pieces, Path5, Free;
  }

  // A message's plain path, which is its parsed id, stays unless it reads as a /message/ path.
  lemma PlainPathStaysIff(o: Origin, session: string, turn: string, v4Id: string)
    ensures var id := ParsedId(o, session, turn, "message");
      V4MessageId(id, v4Id).0 == id <==> !IsMessagePath(id)
  {
    var id := ParsedId(o, session, turn, "message");
    assert |id| >= 3;
    if IsMessagePath(id) { PlainPieces(id); }
    hide V4Ids.Pieces;
  }

  // The whole migrated message is the parsed one but for its hash, its chunk count and a
  // timestamp of zero, again exactly when no part holds a slash.
  lemma MigratedRowIsParsedRowIff(codec: SessionParse.Codec, row: V4Row, turn: string)
    requires row.path == Path5(row.host, row.harness, row.session, "message", turn)
    ensures var parsed :=
      RawRecord(codec, Origin(row.host, row.harness), row.session, turn, row.role, row.text, row.timestamp,
                row.project, "message");
      && (row.timestamp != 0 ==> parsed.metadata.timestamp == row.timestamp)
      && (Image(row, false) == parsed.(metadata :=
            parsed.metadata.(contentHash := row.hash, chunkCount := row.chunkCount, timestamp := row.timestamp))
          <==> AllFree(Origin(row.host, row.harness), row.session, turn))
  {
    var o := Origin(row.host, row.harness);
    MessageIdIsParsedIdIff(o, row.session, turn, row.id);
    ParsedIdIs(codec, o, row.session, turn, row.role, row.text, row.timestamp, row.project, "message");
    hide V4MessageId, Path5, AllFree, ParsedId;
  }

  // ----- Ingesting the raw logs after the move -----

  // The hash that the move left for a unit's row.
  function MovedHash(p: Part, id: string): string {
    var last := p.LastWriter(0, |p.rows|, id);
    if last.Some? then p.rows[last.value].hash else ""
  }

  // Once every unit's row has been moved with its v4 hash, ingestion has nothing to do
  // exactly when each of those is the hash of the unit as it would be embedded now.
  lemma NothingPendingIff(p: Part, saved: Hashes, units: seq<ChunkGroup>)
    requires p.CoversMarks(|p.rows|, saved) && forall u | u in units :: MovedHash(p, u.id) != ""
    ensures PendingOf(units, saved) == [] <==> forall u | u in units :: MovedHash(p, u.id) == u.meta.contentHash
  {
    hide Image, RawDerivedKey;
    forall u | u in units
      ensures Marked(saved, u) <==> MovedHash(p, u.id) == u.meta.contentHash
    {
      LastOf(p, u.id);
      assert p.Marked(p.LastWriter(0, |p.rows|, u.id).value, saved);
    }
    var pending := PendingOf(units, saved);
    hide PendingOf, Marked;
    if pending != [] { assert pending[0] in pending; }
  }

  lemma HeadedIsLonger(codec: ContextUnits.Codec, items: seq<MemoryItem>, i: nat)
    requires i < |items| && !IsTelegram(items[i])
    ensures var u := UnitOf(codec, items, i);
      |JoinHeader(u.header, u.text)| > |items[i].text|
        && u.meta.contentHash == codec.hash(JoinHeader(u.header, u.text)) && u.id == items[i].id
  {
    hide ContextHeader, QuestionBefore, TitleOf;
    var body := BodyOf(items, i);
    assert |Join(body, "\n")| >= |items[i].text|;
  }

  // When the v4 hash was the hash of the bare text, every session unit is pending again,
  // because what is hashed now starts with a header.
  lemma TextHashesSettleNothing(codec: ContextUnits.Codec, p: Part, saved: Hashes, items: seq<MemoryItem>, i: nat)
    requires p.CoversMarks(|p.rows|, saved) && i < |items| && !IsTelegram(items[i])
    requires MovedHash(p, items[i].id) == codec.hash(items[i].text) != ""
    requires forall a: string, b: string :: codec.hash(a) == codec.hash(b) ==> a == b
    ensures UnitOf(codec, items, i) in PendingOf(Units(codec, items), saved)
  {
    HeadedIsLonger(codec, items, i);
    var u := UnitOf(codec, items, i);
    hide UnitOf;
    assert u == Units(codec, items)[i];
    NothingPendingIff(p, saved, [u]);
    assert PendingOf([u], saved) != [] && PendingOf([u], saved)[0] == u;
  }
}
