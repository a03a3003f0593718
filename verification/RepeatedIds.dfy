// An object that the parser accepts and that ingestion never settles: a Pi log in which two
// messages have one id (raw_parser.go, raw_ingest.go).
module RepeatedIds {
  import opened Wrappers
  import opened Text
  import opened Records
  import opened ContextUnits
  import opened Tables
  import opened RawIngest
  import opened IngestRuns
  import SP = SessionParse

  function MessageLine(text: string): SP.Line {
    var message := map["role" := SP.Str("user"), "content" := SP.Str(text)];
    SP.Object(map["type" := SP.Str("message"), "id" := SP.Str("u1"), "timestamp" := SP.Num(1.0),
                  "message" := SP.Obj(message)])
  }

  function Log(): seq<SP.Line> { [MessageLine("first text"), MessageLine("other text")] }

  function Pi(): SP.Origin { SP.Origin("host", "pi") }

  function Row(codec: SP.Codec, key: string, text: string): MemoryItem {
    SP.RawRecord(codec, Pi(), codec.stem(key), "u1", "user", text, 1, "unknown", "message")
  }

  lemma Indexable(text: string)
    requires text == "first text" || text == "other text"
    ensures TrimSpace(text) == text && SP.IndexableMessage("user", text)
  {
    assert !IsSpace(text[0]) && !IsSpace(text[|text| - 1]);
    assert TrimLeftOf(text, {' ', '\t', '\r', '\n'}) == text;
    assert SP.SKIPPED_USER_PREFIXES[0][0] == '#' && SP.SKIPPED_USER_PREFIXES[1][0] == '<'
      && SP.SKIPPED_USER_PREFIXES[2][0] == '<';
    Bytes(text);
  }

  lemma {:induction false} Bytes(s: string)
    ensures Utf8Length(s) >= |s|
  {
    if s != "" { Bytes(s[1..]); }
  }

  lemma LineFields(codec: SP.Codec, text: string)
    requires TrimSpace(text) == text
    ensures var obj := MessageLine(text).fields;
      var message := SP.MapField(obj, "message");
      && SP.StringField(obj, "type") == "message" && SP.StringField(obj, "id") == "u1"
      && SP.StringField(message, "role") == "user" && SP.ContentText(SP.Get(message, "content")) == text
      && SP.FirstValue([SP.Get(obj, "timestamp"), SP.Get(message, "timestamp")]) == SP.Num(1.0)
  {
    hide TrimSpace;
  }

  // A prompt of a Pi log adds its row.
  lemma PromptStep(codec: SP.Codec, st: SP.State, obj: SP.Fields, text: string, lineNo: nat)
    requires lineNo > 0 && SP.IndexableMessage("user", text)
    requires SP.StringField(obj, "type") == "message" && SP.StringField(obj, "id") == "u1"
    requires var message := SP.MapField(obj, "message");
      && SP.StringField(message, "role") == "user" && SP.ContentText(SP.Get(message, "content")) == text
      && SP.FirstValue([SP.Get(obj, "timestamp"), SP.Get(message, "timestamp")]) == SP.Num(1.0)
    ensures SP.Step(codec, Pi(), st, SP.Object(obj), lineNo, true) ==
      SP.Add(codec, Pi(), st, "u1", "user", text, 1, "message")
  {
    hide SP.IndexableMessage, SP.ContentText, SP.StringField, SP.MapField, SP.FirstValue, SP.Get, SP.RawRecord, SP.Add;
  }

  lemma LineStep(codec: SP.Codec, st: SP.State, text: string, lineNo: nat)
    requires lineNo > 0 && (text == "first text" || text == "other text")
    ensures SP.Step(codec, Pi(), st, MessageLine(text), lineNo, true) ==
      SP.Add(codec, Pi(), st, "u1", "user", text, 1, "message")
  {
    Indexable(text);
    LineFields(codec, text);
    hide SP.Step, SP.Add, SP.IndexableMessage, SP.ContentText, SP.StringField, SP.MapField, SP.FirstValue, SP.Get;
    PromptStep(codec, st, MessageLine(text).fields, text, lineNo);
  }

  lemma OneLineParses(codec: SP.Codec, key: string)
    ensures SP.Run(codec, Pi(), key, [MessageLine("first text")], true)
      == SP.Start(codec, Pi(), key).(items := [Row(codec, key, "first text")])
  {
    var start := SP.Start(codec, Pi(), key);
    LineStep(codec, start, "first text", 1);
    var line := MessageLine("first text");
    hide MessageLine, SP.Step, SP.RawRecord;
    assert [line][..0] == [];
    assert [] + [Row(codec, key, "first text")] == [Row(codec, key, "first text")];
  }

  // The parse of the log: two rows under one id.
  lemma LogParses(codec: SP.Codec, key: string)
    ensures SP.Run(codec, Pi(), key, Log(), true).items ==
      [Row(codec, key, "first text"), Row(codec, key, "other text")]
  {
    OneLineParses(codec, key);
    var first, other := MessageLine("first text"), MessageLine("other text");
    var one := SP.Run(codec, Pi(), key, [first], true);
    LineStep(codec, one, "other text", 2);
    hide MessageLine, SP.Step, SP.RawRecord;
    assert [first, other][..1] == [first];
  }

  lemma PromptUnit(codec: Codec, items: seq<MemoryItem>, i: nat)
    requires i < |items| && items[i].metadata.source == "pi" && items[i].metadata.kind == "message"
      && items[i].metadata.authorId == "user"
    ensures var u := UnitOf(codec, items, i);
      && u.text == items[i].text && u.id == items[i].id
      && u.meta.contentHash == codec.hash(JoinHeader(u.header, u.text))
      && u.header != "" && |u.pending| == 1 && u.pending[0].id == u.id
  {
    hide ContextHeader;
  }

  lemma JoinedTexts(header: string, a: string, b: string)
    requires JoinHeader(header, a) == JoinHeader(header, b)
    ensures a == b
  {
    var n := |JoinHeader(header, "")|;
    assert a == JoinHeader(header, a)[n..] && b == JoinHeader(header, b)[n..];
  }

  lemma SameHeader(codec: Codec, items: seq<MemoryItem>, i: nat, j: nat)
    requires i < |items| && j < |items|
      && items[i].metadata.(contentHash := "") == items[j].metadata.(contentHash := "")
    ensures UnitOf(codec, items, i).header == UnitOf(codec, items, j).header
  {
    hide BodyOf, TitleOf, TrimSpace;
  }

  // However the log's object is ingested, it is never settled: a rerun writes a unit again,
  // and a crash before the object is recorded as indexed changes the store.
  lemma RepeatedIdNeverSettles(parser: SP.Codec, key: string, cfg: Config, base: Store)
    requires ValidConfig(cfg) && base.saved == base.dedup
    requires forall a: string, b: string :: cfg.codec.hash(a) == cfg.codec.hash(b) ==> a == b
    ensures var units := Units(cfg.codec, SP.Run(parser, Pi(), key, Log(), true).items);
      && PendingOf(units, MarkAll(base.dedup, PendingOf(units, base.dedup))) != []
      && Finished(cfg, units, Finished(cfg, units, base)) != Finished(cfg, units, base)
      && !CrashSafe(cfg, units, base)
  {
    LogParses(parser, key);
    var items := [Row(parser, key, "first text"), Row(parser, key, "other text")];
    var units := Units(cfg.codec, items);
    UnitsAreWellFormed(cfg, items);
    PromptUnit(cfg.codec, items, 0);
    PromptUnit(cfg.codec, items, 1);
    SameHeader(cfg.codec, items, 0, 1);
    hide UnitOf;
    var u, v := units[0], units[1];
    assert u in units && v in units;
    if u.meta.contentHash == v.meta.contentHash { JoinedTexts(u.header, u.text, v.text); }
    assert u.text[0] != v.text[0];
    assert !SameIdSameHash(units);
    RerunWritesNothingIff(units, base.dedup);
    FinishedTwiceIff(cfg, units, base);
    CrashSafeIff(cfg, units, base);
  }
}
