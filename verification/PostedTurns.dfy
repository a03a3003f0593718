// The turns that the sync client posts, against the rows that parsing the same log gives
// (cmd/tireless/index/parse.go; raw_parser.go).
module PostedTurns {
  import opened Wrappers
  import opened Text
  import opened Records
  import opened SessionParse
  import opened MessageContents
  import LT = LogTurns

  // A posted turn and a parsed row of the same message agree in everything that both have.
  ghost predicate SameMessage(t: LT.Turn, row: MemoryItem) {
    && t.id == row.id && t.text == row.text && t.container == row.metadata.containerId
    && t.project == row.metadata.project && t.author == row.metadata.authorId && t.ts == row.metadata.timestamp
    && t.host == row.metadata.host && t.source == row.metadata.source
  }

  // Made from the same parts they agree.
  lemma MadeAlike(codec: Codec, host: string, source: string, c: LT.Carried, native: string, role: string, text: string,
                  ts: int)
    ensures SameMessage(LT.MakeTurn(host, source, c, native, role, text, ts),
                        RawRecord(codec, Origin(host, source), c.container, native, role, text, ts, c.project,
                                  "message"))
  {
  }

  // The fields of a Pi line that the sync client reads.
  function ReadPi(codec: Codec, obj: Fields): LT.PiLine {
    var msg := MapField(obj, "message");
    LT.PiLine(StringField(obj, "type"), StringField(obj, "id"), StringField(obj, "cwd"), StringField(msg, "role"),
              ContentText(Get(msg, "content")), Timestamp(codec, Get(obj, "timestamp")),
              Timestamp(codec, Get(msg, "timestamp")))
  }

  // The line has a time that cannot be read, and its message has one that can.
  predicate TimesDiffer(codec: Codec, obj: Fields) {
    var t, inner := Get(obj, "timestamp"), Timestamp(codec, Get(MapField(obj, "message"), "timestamp"));
    t != Null && t != Str("") && Timestamp(codec, t) == 0 && inner != 0 && inner != 1
  }

  lemma SendableIsIndexable(role: string, content: Json)
    ensures LT.Sendable(role, ContentText(content)) <==> IndexableMessage(role, ContentText(content))
  {
    var text := ContentText(content);
    ContentStarts(content);
    hide ContentText;
    assert TrimLeftOf(text, {' ', '\t'}) == text && TrimLeftOf(text, {' ', '\t', '\r', '\n'}) == text;
    assert |LT.SKIP_USER| == |SKIPPED_USER_PREFIXES|;
  }

  // From the same session and project a Pi or OMP message with an id is posted exactly when
  // parsing gives it a row, and the two are the same message unless their times differ.
  lemma PostedTurnIsParsedRow(codec: Codec, host: string, source: LT.Source, c: LT.Carried, st: State, obj: Fields,
                              lineNo: nat)
    requires !source.Codex? && st.sessionId == c.container && st.project == c.project
    requires StringField(obj, "type") == "message" && StringField(obj, "id") != ""
    ensures var turn := LT.PiStep(host, source, c, ReadPi(codec, obj)).turn;
            var rows := PiStep(codec, Origin(host, LT.SourceName(source)), st, obj, lineNo, false).items;
      && (turn.None? ==> rows == st.items)
      && (turn.Some? ==> |rows| == |st.items| + 1 && rows[..|st.items|] == st.items
                         && (SameMessage(turn.value, rows[|st.items|]) <==> !TimesDiffer(codec, obj)))
  {
    var msg := MapField(obj, "message");
    var role, content := StringField(msg, "role"), Get(msg, "content");
    var a, b := Get(obj, "timestamp"), Get(msg, "timestamp");
    SendableIsIndexable(role, content);
    OrElseIs(a, b);
    var sp := Timestamp(codec, FirstValue([a, b]));
    MadeAlike(codec, host, LT.SourceName(source), c, StringField(obj, "id"), role, ContentText(content), sp);
    NoTime(codec);
    hide ContentText, LT.Sendable, IndexableMessage, Timestamp, FirstValue, Get, StringField, MapField, LineId,
      TitleText, TodoText, ToolResultText, ProjectFromCwd;
  }

  lemma NoTime(codec: Codec)
    ensures Timestamp(codec, Null) == Timestamp(codec, Str("")) == 0
  {
  }
}
