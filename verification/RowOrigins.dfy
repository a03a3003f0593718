// Where the fields of a parsed message come from: its own line, and the lines that name its
// session and its project (raw_parser.go, `parseSessionJSONL`).
module RowOrigins {
  import opened Wrappers
  import opened Text
  import opened Records
  import opened SessionParse
  import opened MessageContents

  // ---------- Lines that speak ----------

  // What a line says: who it is by, its content and its time. `id` is the id it has, `turn`
  // the one its row gets.
  datatype Voice = Voice(id: string, turn: string, author: string, content: Json, stamp: Json)

  predicate IsPi(o: Origin) { o.harness == "pi" || o.harness == "omp" || o.harness == "grokbot" }

  predicate IsCodex(o: Origin) { o.harness != "grok" && o.harness != "claude" && !IsPi(o) }

  function GrokVoice(obj: Fields, lineNo: nat): Option<Voice> {
    var params := MapField(obj, "params");
    var update, meta := MapField(params, "update"), MapField(params, "_meta");
    var chunk, id := StringField(update, "sessionUpdate"), StringField(meta, "eventId");
    if StringField(obj, "method") != "session/update" then None
    else if chunk != "user_message_chunk" && chunk != "agent_message_chunk" then None
    else
      Some(Voice(id, ValueOr(id, LineId(lineNo)), if chunk == "user_message_chunk" then "user" else "assistant",
                 Str(StringField(MapField(update, "content"), "text")),
                 OrElse(Get(meta, "agentTimestampMs"), Get(obj, "timestamp"))))
  }

  function ClaudeVoice(obj: Fields): Option<Voice> {
    var msg, kind, id := MapField(obj, "message"), StringField(obj, "type"), StringField(obj, "uuid");
    if (kind != "user" && kind != "assistant") || Get(obj, "isMeta") == Bool(true) || id == "" then None
    else Some(Voice(id, id, StringField(msg, "role"), Get(msg, "content"), Get(obj, "timestamp")))
  }

  function PiVoice(obj: Fields, lineNo: nat): Option<Voice> {
    var msg, id := MapField(obj, "message"), StringField(obj, "id");
    if StringField(obj, "type") != "message" then None
    else
      Some(Voice(id, ValueOr(id, LineId(lineNo)), StringField(msg, "role"), Get(msg, "content"),
                 OrElse(Get(obj, "timestamp"), Get(msg, "timestamp"))))
  }

  function CodexVoice(obj: Fields, lineNo: nat): Option<Voice>
    requires lineNo > 0
  {
    var payload := MapField(obj, "payload");
    var id := TrimSpace(StringField(payload, "id"));
    if StringField(obj, "type") != "response_item" || StringField(payload, "type") != "message" then None
    else
      Some(Voice(id, ValueOr(id, LineId(lineNo - 1)), StringField(payload, "role"), Get(payload, "content"),
                 Get(obj, "timestamp")))
  }

  function VoiceAt(o: Origin, line: Line, lineNo: nat): Option<Voice>
    requires lineNo > 0
  {
    match line
    case Unreadable => None
    case Object(obj) =>
      if o.harness == "grok" then GrokVoice(obj, lineNo)
      else if o.harness == "claude" then ClaudeVoice(obj)
      else if IsPi(o) then PiVoice(obj, lineNo)
      else CodexVoice(obj, lineNo)
  }

  predicate StartsWith(text: string, prefix: string) {
    prefix <= TrimLeftOf(text, {' ', '\t', '\r', '\n'})
  }

  // A user or an assistant says something of some length that is no instruction and no
  // output of the harness.
  predicate Audible(o: Origin, author: string, text: string) {
    && (author == "user" || author == "assistant") && Utf8Length(text) >= 8
    && (author == "user" ==>
        !StartsWith(text, "# AGENTS.md") && !StartsWith(text, "<permissions instructions>")
        && !StartsWith(text, "<INSTRUCTIONS>"))
    && (o.harness == "grok" ==> !("<runtime_info>" <= text))
    && (o.harness == "claude" ==> !("<local-command-stdout>" <= text))
  }

  ghost predicate Says(o: Origin, line: Line, lineNo: nat, text: string)
    requires lineNo > 0
  {
    var v := VoiceAt(o, line, lineNo);
    v.Some? && ReadsAs(v.value.content, text) && Audible(o, v.value.author, text)
  }

  // What the line says, if anything.
  function Utterance(o: Origin, line: Line, lineNo: nat): Option<string>
    requires lineNo > 0
  {
    var v := VoiceAt(o, line, lineNo);
    if v.Some? && Audible(o, v.value.author, ContentText(v.value.content)) then Some(ContentText(v.value.content))
    else None
  }

  lemma UtteranceIs(o: Origin, line: Line, lineNo: nat, text: string)
    requires lineNo > 0
    ensures Says(o, line, lineNo, text) <==> Utterance(o, line, lineNo) == Some(text)
  {
    var v := VoiceAt(o, line, lineNo);
    if v.Some? { ContentReads(v.value.content, text); }
    hide VoiceAt, ReadsAs, ContentText, Audible;
  }

  // By what a Codex log knows a message again: its id, or else its text.
  function KeyOf(codec: Codec, v: Voice, text: string): string {
    if v.id != "" then v.id else "legacy-" + Short(codec.hash(text))
  }

  ghost predicate HasKey(codec: Codec, o: Origin, line: Line, lineNo: nat, key: string)
    requires lineNo > 0
  {
    exists text: string :: Says(o, line, lineNo, text) && KeyOf(codec, VoiceAt(o, line, lineNo).value, text) == key
  }

  ghost predicate AnyHasKey(codec: Codec, o: Origin, lines: seq<Line>, key: string) {
    exists j | 0 <= j < |lines| :: HasKey(codec, o, lines[j], j + 1, key)
  }

  // Line i is told as `text`: of a Codex log the first message of its key.
  ghost predicate Told(codec: Codec, o: Origin, lines: seq<Line>, i: nat, text: string)
    requires i < |lines|
  {
    && Says(o, lines[i], i + 1, text)
    && (IsCodex(o) ==> !AnyHasKey(codec, o, lines[..i], KeyOf(codec, VoiceAt(o, lines[i], i + 1).value, text)))
  }

  // ---------- Sessions and projects ----------

  // The session that a line names, or nothing. Grok names it with every message; the session
  // of a Claude log is its file.
  ghost function SessionNamed(o: Origin, line: Line, lineNo: nat): string
    requires lineNo > 0
  {
    if line.Unreadable? || o.harness == "claude" then ""
    else if o.harness == "grok" then
      if exists text: string :: Says(o, line, lineNo, text)
      then StringField(MapField(line.fields, "params"), "sessionId")
      else ""
    else if IsPi(o) then if StringField(line.fields, "type") == "session" then StringField(line.fields, "id") else ""
    else if StringField(line.fields, "type") == "session_meta" then StringField(MapField(line.fields, "payload"), "id")
    else ""
  }

  // The project that a line names, or nothing. A Claude line counts when its directory has one.
  function ProjectNamed(o: Origin, line: Line): string {
    if line.Unreadable? || o.harness == "grok" then ""
    else if o.harness == "claude" then
      var cwd := StringField(line.fields, "cwd");
      if cwd == "" || ProjectFromCwd(cwd) == "unknown" then "" else ProjectFromCwd(cwd)
    else if IsPi(o) then
      if StringField(line.fields, "type") == "session" then ProjectFromCwd(StringField(line.fields, "cwd")) else ""
    else if StringField(line.fields, "type") == "session_meta" then
      ProjectFromCwd(StringField(MapField(line.fields, "payload"), "cwd"))
    else ""
  }

  ghost function SessionNames(o: Origin, lines: seq<Line>): seq<string> {
    seq(|lines|, i requires 0 <= i < |lines| => SessionNamed(o, lines[i], i + 1))
  }

  function ProjectNames(o: Origin, lines: seq<Line>): seq<string> {
    seq(|lines|, i requires 0 <= i < |lines| => ProjectNamed(o, lines[i]))
  }

  // The session last named in these lines, or else the one of the object's key.
  ghost predicate InSession(codec: Codec, o: Origin, key: string, lines: seq<Line>, session: string) {
    LastNamed(SessionNames(o, lines), codec.stem(key), session)
  }

  // The project last named, of a Claude log first named. Grok names it in the object's key.
  ghost predicate InProject(codec: Codec, o: Origin, key: string, lines: seq<Line>, project: string) {
    if o.harness == "grok" then
      project == match codec.grokCwd(key) case Some(cwd) => ProjectFromCwd(cwd) case None => "unknown"
    else if o.harness == "claude" then FirstNamed(ProjectNames(o, lines), "unknown", project)
    else LastNamed(ProjectNames(o, lines), "unknown", project)
  }

  // ---------- Rows ----------

  // The row says what line i says, in the session and project of that place.
  ghost predicate RowOf(codec: Codec, o: Origin, key: string, lines: seq<Line>, i: nat, row: MemoryItem)
    requires i < |lines|
  {
    var v, m := VoiceAt(o, lines[i], i + 1), row.metadata;
    && v.Some? && Told(codec, o, lines, i, row.text) && row.vector == []
    && InSession(codec, o, key, lines[..i + 1], m.containerId) && InProject(codec, o, key, lines[..i + 1], m.project)
    && row.id == o.host + "/" + o.harness + "/" + m.containerId + "/" + v.value.turn
    && m.source == o.harness && m.host == o.host && m.containerKind == "agent_session" && m.kind == "message"
    && m.authorId == v.value.author && m.contentHash == codec.hash(row.text)
    && m.timestamp == (if Timestamp(codec, v.value.stamp) == 0 then 1 else Timestamp(codec, v.value.stamp))
    && m.containerTitle == m.authorName == m.replyTo == m.attrs == m.messageId == ""
    && m.chunkIndex == m.chunkCount == 0
  }

  // The rows are those of the told lines, in order.
  ghost predicate RowsOf(codec: Codec, o: Origin, key: string, lines: seq<Line>, rows: seq<MemoryItem>) {
    if lines == [] then rows == []
    else
      var n, m := |lines| - 1, |rows| - 1;
      if exists text: string :: Told(codec, o, lines, n, text) then
        m >= 0 && RowOf(codec, o, key, lines, n, rows[m]) && RowsOf(codec, o, key, lines[..n], rows[..m])
      else RowsOf(codec, o, key, lines[..n], rows)
  }

  // What a parse without state rows carries after some lines.
  ghost predicate CarriesOf(codec: Codec, o: Origin, key: string, lines: seq<Line>, st: State) {
    && InSession(codec, o, key, lines, st.sessionId) && InProject(codec, o, key, lines, st.project) && st.pending == []
    && (o.harness == "claude" ==>
          (st.project == "unknown" <==> forall i | 0 <= i < |lines| :: ProjectNames(o, lines)[i] == ""))
    && (IsCodex(o) ==> forall k :: k in st.seen <==> AnyHasKey(codec, o, lines, k))
  }

  // ---------- One line ----------

  // What one line does to the state of a parse without state rows.
  ghost predicate Heard(codec: Codec, o: Origin, st: State, line: Line, lineNo: nat, session: string, s: State)
    requires lineNo > 0
  {
    var v, text, project := VoiceAt(o, line, lineNo), Utterance(o, line, lineNo), ProjectNamed(o, line);
    && s.sessionId == ValueOr(session, st.sessionId)
    && s.project ==
      (if o.harness == "claude" && st.project != "unknown" then st.project else ValueOr(project, st.project))
    && s.pending == []
    && (IsCodex(o) ==> s.seen == st.seen + if text.Some? then {KeyOf(codec, v.value, text.value)} else {})
    && s.items ==
         if text.Some? && (IsCodex(o) ==> KeyOf(codec, v.value, text.value) !in st.seen) then
           st.items +
           [RawRecord(codec, o, s.sessionId, v.value.turn, v.value.author, text.value, Timestamp(codec, v.value.stamp),
                      s.project, "message")]
         else st.items
  }

  lemma AudibleIs(o: Origin, author: string, text: string)
    ensures Audible(o, author, text) <==>
      && IndexableMessage(author, text)
      && (o.harness == "grok" ==> !HasPrefix(text, "<runtime_info>"))
      && (o.harness == "claude" ==> !HasPrefix(text, "<local-command-stdout>"))
  {
    hide Utf8Length, TrimLeftOf;
    assert SKIPPED_USER_PREFIXES[0] == "# AGENTS.md" && SKIPPED_USER_PREFIXES[1] == "<permissions instructions>"
      && SKIPPED_USER_PREFIXES[2] == "<INSTRUCTIONS>" && |SKIPPED_USER_PREFIXES| == 3;
  }

  lemma GrokHeard(codec: Codec, o: Origin, st: State, obj: Fields, lineNo: nat)
    requires lineNo > 0 && st.pending == [] && o.harness == "grok"
    ensures var session :=
      if Utterance(o, Object(obj), lineNo).Some? then StringField(MapField(obj, "params"), "sessionId")
                           else "";
      Heard(codec, o, st, Object(obj), lineNo, session, GrokStep(codec, o, st, obj, lineNo))
  {
    var params := MapField(obj, "params");
    var update, meta := MapField(params, "update"), MapField(params, "_meta");
    var chunk := StringField(update, "sessionUpdate");
    var text := TrimSpace(StringField(MapField(update, "content"), "text"));
    AudibleIs(o, if chunk == "user_message_chunk" then "user" else "assistant", text);
    OrElseIs(Get(meta, "agentTimestampMs"), Get(obj, "timestamp"));
    hide Audible, IndexableMessage, StringField, MapField, Get, FirstValue, OrElse, Timestamp, TrimSpace, LineId,
      RawRecord,
      HasPrefix;
  }

  lemma ClaudeHeard(codec: Codec, o: Origin, st: State, obj: Fields, lineNo: nat)
    requires lineNo > 0 && st.pending == [] && o.harness == "claude"
    ensures Heard(codec, o, st, Object(obj), lineNo, "", ClaudeStep(codec, o, st, obj, false))
  {
    var msg := MapField(obj, "message");
    AudibleIs(o, StringField(msg, "role"), ContentText(Get(msg, "content")));
    ProjectNotEmpty(StringField(obj, "cwd"));
    hide Audible, IndexableMessage, StringField, MapField, Get, Timestamp, ContentText, RawRecord, HasPrefix, TitleText,
      ProjectFromCwd;
  }

  lemma PiHeard(codec: Codec, o: Origin, st: State, obj: Fields, lineNo: nat)
    requires lineNo > 0 && st.pending == [] && IsPi(o)
    ensures var session := if StringField(obj, "type") == "session" then StringField(obj, "id") else "";
      Heard(codec, o, st, Object(obj), lineNo, session, PiStep(codec, o, st, obj, lineNo, false))
  {
    var msg := MapField(obj, "message");
    AudibleIs(o, StringField(msg, "role"), ContentText(Get(msg, "content")));
    OrElseIs(Get(obj, "timestamp"), Get(msg, "timestamp"));
    IdNotEmpty(StringField(obj, "id"), lineNo);
    ProjectNotEmpty(StringField(obj, "cwd"));
    hide Audible, IndexableMessage, StringField, MapField, Get, FirstValue, OrElse, Timestamp, ContentText, LineId,
      RawRecord, TitleText, TodoText, ToolResultText, ProjectFromCwd;
  }

  lemma ProjectNotEmpty(cwd: string)
    ensures ProjectFromCwd(cwd) != ""
  {
  }

  lemma IdNotEmpty(id: string, lineNo: nat)
    ensures ValueOr(id, LineId(lineNo)) != ""
  {
    assert |LineId(lineNo)| >= 5;
  }

  lemma CodexHeard(codec: Codec, o: Origin, st: State, obj: Fields, lineNo: nat)
    requires lineNo > 0 && st.pending == [] && IsCodex(o)
    ensures var payload := MapField(obj, "payload");
            var session := if StringField(obj, "type") == "session_meta" then StringField(payload, "id") else "";
      Heard(codec, o, st, Object(obj), lineNo, session, CodexStep(codec, o, st, obj, lineNo, false))
  {
    var payload := MapField(obj, "payload");
    AudibleIs(o, StringField(payload, "role"), ContentText(Get(payload, "content")));
    ProjectNotEmpty(StringField(payload, "cwd"));
    hide Audible, IndexableMessage, StringField, MapField, Get, Timestamp, ContentText, LineId, RawRecord, TitleText,
      ProjectFromCwd, TrimSpace, Short;
  }

  lemma SpeaksIff(o: Origin, line: Line, lineNo: nat)
    requires lineNo > 0
    ensures (exists text: string :: Says(o, line, lineNo, text)) <==> Utterance(o, line, lineNo).Some?
  {
    var said := Utterance(o, line, lineNo);
    hide Says, Utterance;
    if said.Some? { UtteranceIs(o, line, lineNo, said.value); }
    if text: string :| Says(o, line, lineNo, text) { UtteranceIs(o, line, lineNo, text); }
  }

  lemma LineHeard(codec: Codec, o: Origin, st: State, line: Line, lineNo: nat)
    requires lineNo > 0 && st.pending == []
    ensures Heard(codec, o, st, line, lineNo, SessionNamed(o, line, lineNo), Step(codec, o, st, line, lineNo, false))
  {
    if line.Object? {
      hide Heard, GrokStep, ClaudeStep, PiStep, CodexStep, Says, Utterance, StringField, MapField;
      SpeaksIff(o, line, lineNo);
      if o.harness == "grok" { GrokHeard(codec, o, st, line.fields, lineNo); }
      else if o.harness == "claude" { ClaudeHeard(codec, o, st, line.fields, lineNo); }
      else if IsPi(o) { PiHeard(codec, o, st, line.fields, lineNo); }
      else { CodexHeard(codec, o, st, line.fields, lineNo); }
    }
  }

  lemma HasKeyIs(codec: Codec, o: Origin, line: Line, lineNo: nat, key: string)
    requires lineNo > 0
    ensures var said := Utterance(o, line, lineNo);
      HasKey(codec, o, line, lineNo, key) <==>
      said.Some? && KeyOf(codec, VoiceAt(o, line, lineNo).value, said.value) == key
  {
    var said := Utterance(o, line, lineNo);
    if said.Some? { UtteranceIs(o, line, lineNo, said.value); }
    hide Utterance, KeyOf, VoiceAt;
    if text: string :| Says(o, line, lineNo, text) && KeyOf(codec, VoiceAt(o, line, lineNo).value, text) == key {
      UtteranceIs(o, line, lineNo, text);
    }
  }

  lemma AnyHasKeySnoc(codec: Codec, o: Origin, lines: seq<Line>, line: Line, key: string)
    ensures AnyHasKey(codec, o, lines + [line], key) <==>
      AnyHasKey(codec, o, lines, key) || HasKey(codec, o, line, |lines| + 1, key)
  {
    hide HasKey;
    var more := lines + [line];
    if j :| 0 <= j < |lines| && HasKey(codec, o, lines[j], j + 1, key) { assert more[j] == lines[j]; }
    if HasKey(codec, o, line, |lines| + 1, key) { assert more[|lines|] == line; }
  }

  lemma NamesSnoc(o: Origin, lines: seq<Line>, line: Line)
    ensures SessionNames(o, lines + [line]) == SessionNames(o, lines) + [SessionNamed(o, line, |lines| + 1)]
    ensures ProjectNames(o, lines + [line]) == ProjectNames(o, lines) + [ProjectNamed(o, line)]
  {
    hide SessionNamed, ProjectNamed;
  }

  lemma ProjectMore(codec: Codec, o: Origin, key: string, lines: seq<Line>, line: Line, st: State, s: State)
    requires CarriesOf(codec, o, key, lines, st)
    requires s.project ==
      if o.harness == "claude" && st.project != "unknown" then st.project
      else ValueOr(ProjectNamed(o, line), st.project)
    ensures var more := lines + [line];
      && InProject(codec, o, key, more, s.project)
      && (o.harness == "claude" ==>
            (s.project == "unknown" <==> forall i | 0 <= i < |more| :: ProjectNames(o, more)[i] == ""))
  {
    NamesSnoc(o, lines, line);
    var names, name := ProjectNames(o, lines), ProjectNamed(o, line);
    assert o.harness == "claude" ==> name != "unknown";
    assert o.harness == "grok" ==> name == "";
    hide SessionNames, ProjectNames, ProjectNamed, AnyHasKey;
    if o.harness == "claude" {
      FirstNamedSnoc(names, "unknown", st.project, name);
      assert (names + [name])[|names|] == name;
    } else if o.harness != "grok" {
      LastNamedSnoc(names, "unknown", st.project, name);
    }
    hide FirstNamed, LastNamed;
  }

  lemma CarriesMore(codec: Codec, o: Origin, key: string, lines: seq<Line>, line: Line, st: State, s: State)
    requires CarriesOf(codec, o, key, lines, st)
    requires Heard(codec, o, st, line, |lines| + 1, SessionNamed(o, line, |lines| + 1), s)
    ensures CarriesOf(codec, o, key, lines + [line], s)
  {
    ProjectMore(codec, o, key, lines, line, st, s);
    NamesSnoc(o, lines, line);
    LastNamedSnoc(SessionNames(o, lines), codec.stem(key), st.sessionId, SessionNamed(o, line, |lines| + 1));
    hide SessionNames, ProjectNames, ProjectNamed, SessionNamed, InProject, LastNamed, VoiceAt, Utterance, KeyOf,
      AnyHasKey, RawRecord;
    var said := Utterance(o, line, |lines| + 1);
    forall k
      ensures AnyHasKey(codec, o, lines + [line], k) <==>
              AnyHasKey(codec, o, lines, k)
              || (said.Some? && KeyOf(codec, VoiceAt(o, line, |lines| + 1).value, said.value) == k)
    {
      AnyHasKeySnoc(codec, o, lines, line, k);
      HasKeyIs(codec, o, line, |lines| + 1, k);
    }
  }

  // The last line is told when it adds a row, and that is its row.
  lemma LastTold(codec: Codec, o: Origin, key: string, lines: seq<Line>, line: Line, st: State, s: State)
    requires CarriesOf(codec, o, key, lines, st)
    requires Heard(codec, o, st, line, |lines| + 1, SessionNamed(o, line, |lines| + 1), s)
    ensures var more := lines + [line];
      if exists text: string :: Told(codec, o, more, |lines|, text) then
        exists row :: s.items == st.items + [row] && RowOf(codec, o, key, more, |lines|, row)
      else s.items == st.items
  {
    CarriesMore(codec, o, key, lines, line, st, s);
    SpeaksIff(o, line, |lines| + 1);
    var more := lines + [line];
    var said, v := Utterance(o, line, |lines| + 1), VoiceAt(o, line, |lines| + 1);
    assert more[..|lines|] == lines && more[|lines|] == line && more[..|lines| + 1] == more;
    if said.Some? { UtteranceIs(o, line, |lines| + 1, said.value); }
    assert said.Some? ==> v.Some?;
    hide SessionNames, ProjectNames, SessionNamed, ProjectNamed, VoiceAt, Utterance, Says, KeyOf, AnyHasKey, LastNamed,
      InProject, InSession, Timestamp;
    forall text: string | Told(codec, o, more, |lines|, text)
      ensures said == Some(text)
    {
      UtteranceIs(o, line, |lines| + 1, text);
    }
    if said.Some? && Told(codec, o, more, |lines|, said.value) {
      var row := RawRecord(codec, o, s.sessionId, v.value.turn, v.value.author, said.value,
                           Timestamp(codec, v.value.stamp), s.project, "message");
      assert s.items == st.items + [row];
      RecordIs(codec, o, s.sessionId, v.value.turn, v.value.author, said.value, Timestamp(codec, v.value.stamp),
               s.project);
    }
  }

  lemma RecordIs(codec: Codec, o: Origin, session: string, turn: string, author: string, text: string, ts: int,
                 project: string)
    ensures RawRecord(codec, o, session, turn, author, text, ts, project, "message").id ==
      o.host + "/" + o.harness + "/" + session + "/" + turn
  {
  }

  // The rows of a parse without state rows, whatever the body: exactly one for each told line,
  // with the text, author, id and time of that line, in the session and project that the lines
  // up to it name.
  lemma {:induction false} RowsAreSaid(codec: Codec, o: Origin, key: string, lines: seq<Line>)
    ensures var st := Run(codec, o, key, lines, false);
      CarriesOf(codec, o, key, lines, st) && RowsOf(codec, o, key, lines, st.items)
  {
    hide CarriesOf, Told, RowOf, Step, Heard, SessionNamed;
    if lines == [] {
      NothingSaid(codec, o, key);
    } else {
      var n := |lines| - 1;
      var most, line := lines[..n], lines[n];
      RowsAreSaid(codec, o, key, most);
      var before := Run(codec, o, key, most, false);
      var s := Step(codec, o, before, line, n + 1, false);
      assert lines == most + [line];
      NothingPending(codec, o, key, most, before);
      LineHeard(codec, o, before, line, n + 1);
      CarriesMore(codec, o, key, most, line, before, s);
      LastTold(codec, o, key, most, line, before, s);
      if exists text: string :: Told(codec, o, lines, n, text) {
        var row :| s.items == before.items + [row] && RowOf(codec, o, key, lines, n, row);
        assert s.items[..|before.items|] == before.items;
      }
    }
  }

  // The messages of a parse with state rows are these rows.
  lemma MessagesAreSaid(codec: Codec, o: Origin, key: string, lines: seq<Line>)
    ensures RowsOf(codec, o, key, lines, Messages(Run(codec, o, key, lines, true).items))
  {
    RunsAgree(codec, o, key, lines);
    RowsAreSaid(codec, o, key, lines);
    hide RowsOf, Run, CarriesOf;
  }

  lemma NothingPending(codec: Codec, o: Origin, key: string, lines: seq<Line>, st: State)
    requires CarriesOf(codec, o, key, lines, st)
    ensures st.pending == []
  {
  }

  lemma NothingSaid(codec: Codec, o: Origin, key: string)
    ensures CarriesOf(codec, o, key, [], Start(codec, o, key))
  {
    hide ProjectFromCwd;
  }
}
