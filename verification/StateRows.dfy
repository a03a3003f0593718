// The rows for titles, todos, tools and tasks: which records of a log they come from, and that
// none is lost (raw_parser.go).
module StateRows {
  import opened Wrappers
  import opened Text
  import opened Records
  import opened SessionParse
  import opened MessageContents

  // ---------- What records say ----------

  const TITLE_KEYS: seq<string> := ["title", "name", "summary", "aiTitle", "customTitle"]

  // A record's title is the first of its names that is more than spaces.
  ghost predicate TitleSays(m: Fields, kind: string, text: string) {
    exists k | 0 <= k < |TITLE_KEYS| ::
      && text == "TITLE " + kind + ": " + TrimSpace(StringField(m, TITLE_KEYS[k]))
      && TrimSpace(StringField(m, TITLE_KEYS[k])) != ""
      && forall j | 0 <= j < k :: TrimSpace(StringField(m, TITLE_KEYS[j])) == ""
  }

  // A command with a description is told with both, the command cut at five hundred runes.
  ghost predicate BashSays(input: Fields, text: string) {
    var why, command := TrimSpace(StringField(input, "description")), TrimSpace(StringField(input, "command"));
    && why != "" && command != ""
    && text == "Ran: " + why + "\n$ " + if |command| <= 500 then command else command[..500] + "…"
  }

  predicate Present(v: Json) { v != Null && v != Str("") }

  // The first value that is there, as JSON.
  ghost predicate FirstJson(codec: Codec, values: seq<Json>, text: string) {
    exists k | 0 <= k < |values| ::
      Present(values[k]) && text == codec.json(values[k]) && forall j | 0 <= j < k :: !Present(values[j])
  }

  ghost predicate NonePresent(values: seq<Json>) { forall k | 0 <= k < |values| :: !Present(values[k]) }

  function Results(m: Fields): seq<Json> { [Get(m, "details"), Get(m, "data"), Get(m, "result")] }

  // A result is told as its content or, if that says nothing, as the first of its other values.
  ghost predicate ResultSays(codec: Codec, m: Fields, tool: string, text: string) {
    exists what: string ::
      && text == "TOOL " + tool + " RESULT:\n" + what && what != ""
      && (ReadsAs(Get(m, "content"), what)
          || (ReadsAs(Get(m, "content"), "") && FirstJson(codec, Results(m), what)))
  }

  function Todos(f: Fields): seq<Json> { [Get(f, "phases"), Get(f, "items"), Get(f, "todos"), Get(f, "tasks")] }

  // The place is an object whose list of todos is not blank as JSON.
  ghost predicate HoldsTodos(codec: Codec, place: Json, what: string) {
    place.Obj? && what != "" && FirstJson(codec, Todos(place.fields), what)
  }

  ghost predicate NoTodos(codec: Codec, place: Json) { forall w: string :: !HoldsTodos(codec, place, w) }

  // Todos are told as the first list of them that is found, or else as the first other value,
  // or else as the content.
  ghost predicate TodoSays(codec: Codec, m: Fields, source: string, text: string) {
    exists what: string :: text == "TODO " + source + ":\n" + what && what != "" && TodosAre(codec, m, what)
  }

  ghost predicate TodosAre(codec: Codec, m: Fields, what: string) {
    var a, b, c := Get(m, "details"), Get(m, "data"), Obj(m);
    || HoldsTodos(codec, a, what)
    || (NoTodos(codec, a) && HoldsTodos(codec, b, what))
    || (NoTodos(codec, a) && NoTodos(codec, b) && HoldsTodos(codec, c, what))
    || (NoTodos(codec, a) && NoTodos(codec, b) && NoTodos(codec, c)
        && (FirstJson(codec, [a, b], what)
            || ((NonePresent([a, b]) || FirstJson(codec, [a, b], "")) && ReadsAs(Get(m, "content"), what))))
  }

  // ---------- The parser tells them so ----------

  lemma {:induction false} FirstTitle(m: Fields, keys: seq<string>)
    ensures var title := FirstStringField(m, keys);
      if title == "" then forall j | 0 <= j < |keys| :: TrimSpace(StringField(m, keys[j])) == ""
      else exists k | 0 <= k < |keys| ::
             title == TrimSpace(StringField(m, keys[k]))
             && forall j | 0 <= j < k :: TrimSpace(StringField(m, keys[j])) == ""
  {
    if keys != [] {
      FirstTitle(m, keys[1..]);
      hide TrimSpace, StringField;
      var value, title := TrimSpace(StringField(m, keys[0])), FirstStringField(m, keys);
      if value != "" {
        assert title == TrimSpace(StringField(m, keys[0]));
      } else if title != "" {
        var k :| 0 <= k < |keys[1..]| && title == TrimSpace(StringField(m, keys[1..][k]))
          && forall j | 0 <= j < k :: TrimSpace(StringField(m, keys[1..][j])) == "";
        assert title == TrimSpace(StringField(m, keys[k + 1]));
        forall j | 0 <= j < k + 1
          ensures TrimSpace(StringField(m, keys[j])) == ""
        {
          assert j > 0 ==> keys[j] == keys[1..][j - 1];
        }
      } else {
        forall j | 0 <= j < |keys|
          ensures TrimSpace(StringField(m, keys[j])) == ""
        {
          assert j > 0 ==> keys[j] == keys[1..][j - 1];
        }
      }
    }
  }

  lemma TitleIs(m: Fields, kind: string, text: string)
    ensures TitleSays(m, kind, text) <==> text == TitleText(m, kind) && text != ""
  {
    var title := FirstStringField(m, TITLE_KEYS);
    FirstTitle(m, TITLE_KEYS);
    assert TITLE_KEYS == ["title", "name", "summary", "aiTitle", "customTitle"];
    hide FirstStringField, TrimSpace, StringField;
    assert ("TITLE " + kind + ": " + title)[0] == 'T';
    if TitleSays(m, kind, text) {
      var k :| 0 <= k < |TITLE_KEYS| && text == "TITLE " + kind + ": " + TrimSpace(StringField(m, TITLE_KEYS[k]))
        && TrimSpace(StringField(m, TITLE_KEYS[k])) != ""
        && forall j | 0 <= j < k :: TrimSpace(StringField(m, TITLE_KEYS[j])) == "";
      assert title == TrimSpace(StringField(m, TITLE_KEYS[k]));
      assert text[0] == 'T';
    }
  }

  lemma BashIs(input: Fields, text: string)
    ensures BashSays(input, text) <==> text == BashToolText(input) && text != ""
  {
    hide TrimSpace, StringField;
    var why := TrimSpace(StringField(input, "description"));
    assert forall rest: string :: ("Ran: " + why + "\n$ " + rest)[0] == 'R';
  }

  lemma {:induction false} FirstJsonIs(codec: Codec, values: seq<Json>, text: string)
    ensures FirstJson(codec, values, text) <==> FirstValue(values) != Null && text == codec.json(FirstValue(values))
    ensures NonePresent(values) <==> FirstValue(values) == Null
  {
    if values != [] {
      FirstJsonIs(codec, values[1..], text);
      assert forall j | 0 < j < |values| :: values[j] == values[1..][j - 1];
      if Present(values[0]) {
      } else {
        if FirstJson(codec, values[1..], text) {
          var k :| 0 <= k < |values[1..]| && Present(values[1..][k]) && text == codec.json(values[1..][k])
            && forall j | 0 <= j < k :: !Present(values[1..][j]);
          assert Present(values[k + 1]);
        }
        if k :|
          && 0 <= k < |values| && Present(values[k]) && text == codec.json(values[k])
          && forall j | 0 <= j < k :: !Present(values[j])
        {
          assert Present(values[1..][k - 1]);
          forall j | 0 <= j < k - 1
            ensures !Present(values[1..][j])
          {
            assert values[1..][j] == values[j + 1];
          }
        }
      }
    }
  }

  lemma ResultIs(codec: Codec, m: Fields, tool: string, text: string)
    ensures ResultSays(codec, m, tool, text) <==> text == ToolResultText(codec, m, tool) && text != ""
  {
    var content, said := Get(m, "content"), ContentText(Get(m, "content"));
    var head, json := "TOOL " + tool + " RESULT:\n", CompactJson(codec, FirstValue(Results(m)));
    forall what: string
      ensures ReadsAs(content, what) <==> what == said
      ensures what != "" && FirstJson(codec, Results(m), what) <==> what != "" && what == json
    {
      ContentReads(content, what);
      FirstJsonIs(codec, Results(m), what);
    }
    hide ReadsAs, ContentText, FirstJson, FirstValue, Get;
    assert forall what: string :: (head + what)[0] == 'T';
    assert ToolResultText(codec, m, tool) == if ValueOr(said, json) == "" then "" else head + ValueOr(said, json);
    if ToolResultText(codec, m, tool) != "" {
      assert ResultSays(codec, m, tool, head + ValueOr(said, json));
    }
    if ResultSays(codec, m, tool, text) {
      var what: string :| text == head + what && what != ""
        && (ReadsAs(content, what) || (ReadsAs(content, "") && FirstJson(codec, Results(m), what)));
      assert what == ValueOr(said, json);
    }
  }

  // The todos of one place as the parser writes them, if any.
  function PlaceText(codec: Codec, place: Json): string {
    if place.Obj? then CompactJson(codec, FirstValue(Todos(place.fields))) else ""
  }

  lemma PlaceIs(codec: Codec, place: Json)
    ensures forall what: string :: HoldsTodos(codec, place, what) <==> what != "" && what == PlaceText(codec, place)
    ensures NoTodos(codec, place) <==> PlaceText(codec, place) == ""
  {
    if place.Obj? {
      forall what: string
        ensures HoldsTodos(codec, place, what) <==> what != "" && what == PlaceText(codec, place)
      {
        FirstJsonIs(codec, Todos(place.fields), what);
      }
    }
    hide FirstJson, FirstValue, Todos, PlaceText;
    assert PlaceText(codec, place) != "" ==> HoldsTodos(codec, place, PlaceText(codec, place));
  }

  lemma StateIs(codec: Codec, a: Json, b: Json, c: Json)
    ensures TodoState(codec, [a, b, c]) ==
      ValueOr(PlaceText(codec, a), ValueOr(PlaceText(codec, b), PlaceText(codec, c)))
  {
    hide FirstValue, CompactJson;
    assert [a, b, c][1..] == [b, c] && [b, c][1..] == [c] && [c][1..] == [];
    assert TodoState(codec, []) == "";
    assert TodoState(codec, [c]) == ValueOr(PlaceText(codec, c), "") by { OnePlace(codec, c); }
    OnePlace(codec, a);
    OnePlace(codec, b);
  }

  lemma OnePlace(codec: Codec, place: Json)
    ensures PlaceText(codec, place) ==
      CompactJson(codec, if place.Obj? then
                           var f := place.fields;
                           FirstValue([Get(f, "phases"), Get(f, "items"), Get(f, "todos"), Get(f, "tasks")])
                         else Null)
  {
  }

  lemma TodosAreText(codec: Codec, m: Fields, what: string)
    requires what != ""
    ensures var a, b, c := Get(m, "details"), Get(m, "data"), Obj(m);
      TodosAre(codec, m, what) <==>
      what == ValueOr(TodoState(codec, [a, b, c]),
                      ValueOr(CompactJson(codec, FirstValue([a, b])), ContentText(Get(m, "content"))))
  {
    var a, b, c := Get(m, "details"), Get(m, "data"), Obj(m);
    PlaceIs(codec, a);
    PlaceIs(codec, b);
    PlaceIs(codec, c);
    StateIs(codec, a, b, c);
    FirstJsonIs(codec, [a, b], what);
    FirstJsonIs(codec, [a, b], "");
    ContentReads(Get(m, "content"), what);
    hide HoldsTodos, NoTodos, PlaceText, TodoState, FirstJson, NonePresent, FirstValue, ReadsAs, ContentText, Get;
  }

  lemma TodoIs(codec: Codec, m: Fields, source: string, text: string)
    ensures TodoSays(codec, m, source, text) <==> text == TodoText(codec, m, source) && text != ""
  {
    var head := "TODO " + source + ":\n";
    var said := ValueOr(TodoState(codec, [Get(m, "details"), Get(m, "data"), Obj(m)]),
                        ValueOr(CompactJson(codec, FirstValue([Get(m, "details"), Get(m, "data")])),
                                ContentText(Get(m, "content"))));
    forall what: string
      ensures what != "" && TodosAre(codec, m, what) <==> what != "" && what == said
    {
      if what != "" { TodosAreText(codec, m, what); }
    }
    hide TodosAre, TodoState, FirstValue, ContentText, Get;
    assert forall what: string :: (head + what)[0] == 'T';
    assert TodoText(codec, m, source) == if said == "" then "" else head + said;
    if said != "" { assert TodoSays(codec, m, source, head + said); }
  }

  // ---------- What a line notes ----------

  // A title, a list of todos, a tool call or the result of a task, with its id in the session
  // and its time.
  datatype Note = Note(kind: string, turn: string, role: string, text: string, stamp: int)

  ghost predicate PiNotes(codec: Codec, obj: Fields, lineNo: nat, note: Note) {
    var id, kind, msg := ValueOr(StringField(obj, "id"), LineId(lineNo)), StringField(obj, "type"),
                         MapField(obj, "message");
    var updated := Timestamp(codec, OrElse(Get(obj, "updatedAt"), Get(obj, "timestamp")));
    var said := Timestamp(codec, OrElse(Get(obj, "timestamp"), Get(msg, "timestamp")));
    var role, tool := StringField(msg, "role"), StringField(msg, "toolName");
    || (kind == "session" && note == Note("title", id + "-session", "system", note.text, updated)
        && TitleSays(obj, "session", note.text))
    || ((kind == "title" || kind == "title_change") && note == Note("title", id, "system", note.text, updated)
        && TitleSays(obj, kind, note.text))
    || (kind == "custom" && StringField(obj, "customType") == "user_todo_edit"
        && note == Note("todo", id, "user_todo_edit", note.text, Timestamp(codec, Get(obj, "timestamp")))
        && TodoSays(codec, obj, "user_todo_edit", note.text))
    || (kind == "message" && role == "toolResult" && tool == "todo"
        && note == Note("todo", id, "toolResult", note.text, said) && TodoSays(codec, msg, "todo", note.text))
    || (kind == "message" && role == "toolResult" && tool == "task"
        && note == Note("task", id, "toolResult", note.text, said) && ResultSays(codec, msg, "task", note.text))
  }

  ghost predicate CodexNotes(codec: Codec, obj: Fields, note: Note) {
    var payload := MapField(obj, "payload");
    && StringField(obj, "type") == "session_meta" && TitleSays(payload, "session", note.text)
    && note == Note("title", StringField(payload, "id") + "-session", "system", note.text,
                    Timestamp(codec, Get(obj, "timestamp")))
  }

  // Of a Claude message's part: todos written, a command run, or the result of a task that was
  // called and is not running on its own.
  ghost predicate PartNotes(codec: Codec, obj: Fields, part: Json, calls: set<string>, note: Note) {
    && part.Obj?
    && var f := part.fields;
       var role, ts := StringField(MapField(obj, "message"), "role"), Timestamp(codec, Get(obj, "timestamp"));
       var input, name, kind := MapField(f, "input"), StringField(f, "name"), StringField(f, "type");
       || (kind == "tool_use" && name == "TodoWrite" && TodoSays(codec, input, "TodoWrite", note.text)
           && note == Note("todo", StringField(f, "id"), role, note.text, ts))
       || (kind == "tool_use" && name == "Bash" && BashSays(input, note.text)
           && note == Note("tool", StringField(f, "id"), role, note.text, ts))
       || (kind == "tool_result" && StringField(f, "tool_use_id") in calls
           && Get(MapField(obj, "toolUseResult"), "isAsync") != Bool(true) && ResultSays(codec, f, "task", note.text)
           && note == Note("task", StringField(f, "tool_use_id"), "toolResult", note.text, ts))
  }

  predicate ClaudeTalks(obj: Fields) {
    (StringField(obj, "type") == "user" || StringField(obj, "type") == "assistant") && Get(obj, "isMeta") != Bool(true)
  }

  // A Claude title is known by its text.
  ghost predicate ClaudeNotes(codec: Codec, obj: Fields, calls: set<string>, note: Note) {
    var kind, content := StringField(obj, "type"), Get(MapField(obj, "message"), "content");
    || ((kind == "ai-title" || kind == "custom-title" || kind == "summary") && TitleSays(obj, kind, note.text)
        && note == Note("title", "title-" + Short(codec.hash(note.text)), "system", note.text, note.stamp))
    || (ClaudeTalks(obj) && content.Arr?
        && exists k | 0 <= k < |content.items| :: PartNotes(codec, obj, content.items[k], calls, note))
  }

  ghost predicate Notes(codec: Codec, o: Origin, line: Line, lineNo: nat, calls: set<string>, note: Note) {
    && line.Object? && o.harness != "grok"
    && if o.harness == "claude" then ClaudeNotes(codec, line.fields, calls, note)
       else if o.harness in {"pi", "omp", "grokbot"} then PiNotes(codec, line.fields, lineNo, note)
       else CodexNotes(codec, line.fields, note)
  }

  // The row tells the note, in some session and project.
  ghost predicate Tells(codec: Codec, o: Origin, x: MemoryItem, note: Note) {
    var m := x.metadata;
    && x.text == note.text && x.vector == [] && m.kind == note.kind && m.authorId == note.role
    && x.id == o.host + "/" + o.harness + "/" + m.containerId + "/" + note.kind + "/" + note.turn
    && m.timestamp == (if note.stamp == 0 then 1 else note.stamp)
    && m.source == o.harness && m.host == o.host && m.contentHash == codec.hash(x.text)
  }

  function Waiting(p: Pending): Note { Note("title", p.id, "system", p.text, p.timestamp) }

  // The note up to its time is in a row, or waits for the project.
  ghost predicate Kept(codec: Codec, o: Origin, s: State, note: Note) {
    || (exists x: MemoryItem, stamp: int :: x in s.items && Tells(codec, o, x, note.(stamp := stamp)))
    || (exists p: Pending :: p in s.pending && Waiting(p).(stamp := 0) == note.(stamp := 0))
  }

  // ---------- Every row comes from a line ----------

  // The time of the last line that has one.
  function LastStamp(codec: Codec, lines: seq<Line>): int {
    if lines == [] then 0
    else
      var ts := match lines[|lines| - 1] case Object(f) => Timestamp(codec, Get(f, "timestamp")) case Unreadable => 0;
      if ts != 0 then ts else LastStamp(codec, lines[..|lines| - 1])
  }

  // A Claude title takes the time of the last line, up to its own, that has one.
  ghost predicate Timed(codec: Codec, o: Origin, lines: seq<Line>, note: Note) {
    o.harness == "claude" && note.kind == "title" ==> note.stamp == LastStamp(codec, lines)
  }

  ghost predicate Noted(codec: Codec, o: Origin, lines: seq<Line>, calls: set<string>, note: Note) {
    exists i | 0 <= i < |lines| ::
      Notes(codec, o, lines[i], i + 1, calls, note) && Timed(codec, o, lines[..i + 1], note)
  }

  ghost predicate Told(codec: Codec, o: Origin, lines: seq<Line>, calls: set<string>, x: MemoryItem) {
    x.metadata.kind == "message" || exists note: Note :: Noted(codec, o, lines, calls, note) && Tells(codec, o, x, note)
  }

  // Rows that are no messages, and titles that wait, come from lines.
  ghost predicate Sound(codec: Codec, o: Origin, lines: seq<Line>, st: State) {
    && (forall x | x in st.items :: Told(codec, o, lines, st.taskCalls, x))
    && (forall p | p in st.pending :: Noted(codec, o, lines, st.taskCalls, Waiting(p)))
  }

  lemma NotesMore(codec: Codec, o: Origin, line: Line, lineNo: nat, calls: set<string>, more: set<string>, note: Note)
    requires Notes(codec, o, line, lineNo, calls, note) && calls <= more
    ensures Notes(codec, o, line, lineNo, more, note)
  {
    hide PiNotes, CodexNotes, TitleSays, TodoSays, BashSays, ResultSays, Get, StringField, MapField, Short, Timestamp;
    if o.harness == "claude" {
      var obj := line.fields;
      var content := Get(MapField(obj, "message"), "content");
      if ClaudeTalks(obj) && content.Arr? {
        if k :| 0 <= k < |content.items| && PartNotes(codec, obj, content.items[k], calls, note) {
          assert PartNotes(codec, obj, content.items[k], more, note);
        }
      }
    }
  }

  lemma NotedMore(codec: Codec, o: Origin, lines: seq<Line>, more: seq<Line>, calls: set<string>, calls': set<string>,
                  note: Note)
    requires Noted(codec, o, lines, calls, note) && lines <= more && calls <= calls'
    ensures Noted(codec, o, more, calls', note)
  {
    hide Notes, Timed;
    var i :| 0 <= i < |lines| && Notes(codec, o, lines[i], i + 1, calls, note) && Timed(codec, o, lines[..i + 1], note);
    NotesMore(codec, o, lines[i], i + 1, calls, calls', note);
    assert more[i] == lines[i] && more[..i + 1] == lines[..i + 1];
  }

  // More lines and more calls keep what is known of rows, and so does any other change.
  lemma SoundMore(codec: Codec, o: Origin, lines: seq<Line>, more: seq<Line>, st: State, s: State)
    requires Sound(codec, o, lines, st) && lines <= more
    requires s.items == st.items && s.pending == st.pending && st.taskCalls <= s.taskCalls
    ensures Sound(codec, o, more, s)
  {
    hide Noted, Tells;
    forall x | x in s.items
      ensures Told(codec, o, more, s.taskCalls, x)
    {
      assert Told(codec, o, lines, st.taskCalls, x);
      if x.metadata.kind != "message" {
        var note: Note :| Noted(codec, o, lines, st.taskCalls, note) && Tells(codec, o, x, note);
        NotedMore(codec, o, lines, more, st.taskCalls, s.taskCalls, note);
      }
    }
    forall p | p in s.pending
      ensures Noted(codec, o, more, s.taskCalls, Waiting(p))
    {
      NotedMore(codec, o, lines, more, st.taskCalls, s.taskCalls, Waiting(p));
    }
  }

  lemma RowTells(codec: Codec, o: Origin, session: string, project: string, note: Note)
    requires note.kind != "message"
    ensures Tells(codec, o,
                  RawRecord(codec, o, session, note.turn, note.role, note.text, note.stamp, project, note.kind), note)
  {
    assert o.host + "/" + o.harness + "/" + session + "/" + note.kind + "/" + note.turn ==
      o.host + "/" + o.harness + "/" + session + "/" + (note.kind + "/" + note.turn);
  }

  lemma AddSound(codec: Codec, o: Origin, lines: seq<Line>, st: State, note: Note)
    requires Sound(codec, o, lines, st) && (note.kind == "message" || Noted(codec, o, lines, st.taskCalls, note))
    ensures Sound(codec, o, lines, Add(codec, o, st, note.turn, note.role, note.text, note.stamp, note.kind))
  {
    if note.kind != "message" { RowTells(codec, o, st.sessionId, st.project, note); }
    var x := RawRecord(codec, o, st.sessionId, note.turn, note.role, note.text, note.stamp, st.project, note.kind);
    assert x.metadata.kind == note.kind;
    hide Noted, Tells, RawRecord;
    assert Told(codec, o, lines, st.taskCalls, x);
    hide Told;
  }

  lemma AddTextSound(codec: Codec, o: Origin, lines: seq<Line>, st: State, note: Note)
    requires Sound(codec, o, lines, st)
    requires note.text != "" ==> note.kind == "message" || Noted(codec, o, lines, st.taskCalls, note)
    ensures Sound(codec, o, lines, AddText(codec, o, st, note.turn, note.role, note.text, note.stamp, note.kind))
  {
    hide Sound, Noted, Add;
    if note.text != "" { AddSound(codec, o, lines, st, note); }
  }

  lemma {:induction false} FlushSound(codec: Codec, o: Origin, lines: seq<Line>, st: State)
    requires Sound(codec, o, lines, st)
    ensures Sound(codec, o, lines, FlushPending(codec, o, st))
    decreases |st.pending|
  {
    if st.pending != [] {
      var p := st.pending[0];
      AddSound(codec, o, lines, st, Waiting(p));
      var next := Add(codec, o, st, p.id, "system", p.text, p.timestamp, "title").(pending := st.pending[1..]);
      hide Told, Noted;
      assert Sound(codec, o, lines, next);
      FlushSound(codec, o, lines, next);
    }
  }

  lemma AddTitleSound(codec: Codec, o: Origin, lines: seq<Line>, st: State, id: string, text: string, ts: int)
    requires Sound(codec, o, lines, st) && Noted(codec, o, lines, st.taskCalls, Note("title", id, "system", text, ts))
    ensures Sound(codec, o, lines, AddTitle(codec, o, st, id, text, ts))
  {
    AddSound(codec, o, lines, st, Note("title", id, "system", text, ts));
    hide Told, Noted, Add;
  }

  // The last line's notes are noted.
  lemma NotedLast(codec: Codec, o: Origin, lines: seq<Line>, calls: set<string>, note: Note)
    requires lines != [] && Notes(codec, o, lines[|lines| - 1], |lines|, calls, note)
    requires Timed(codec, o, lines, note)
    ensures Noted(codec, o, lines, calls, note)
  {
    hide Notes, Timed;
    assert lines[..|lines|] == lines;
  }

  // ---------- Nothing noted is lost ----------

  // What was kept stays kept.
  ghost predicate Keeps(codec: Codec, o: Origin, st: State, s: State) {
    forall note: Note :: Kept(codec, o, st, note) ==> Kept(codec, o, s, note)
  }

  lemma AddKeeps(codec: Codec, o: Origin, st: State, note: Note)
    ensures var s := Add(codec, o, st, note.turn, note.role, note.text, note.stamp, note.kind);
      Keeps(codec, o, st, s) && (note.kind != "message" ==> Kept(codec, o, s, note))
  {
    if note.kind != "message" { RowTells(codec, o, st.sessionId, st.project, note); }
    var x := RawRecord(codec, o, st.sessionId, note.turn, note.role, note.text, note.stamp, st.project, note.kind);
    hide Tells, RawRecord;
    var s := Add(codec, o, st, note.turn, note.role, note.text, note.stamp, note.kind);
    assert s.items == st.items + [x] && s.items[|st.items|] == x;
    assert note.(stamp := note.stamp) == note;
  }

  lemma AddTextKeeps(codec: Codec, o: Origin, st: State, note: Note)
    requires note.kind != "message"
    ensures var s := AddText(codec, o, st, note.turn, note.role, note.text, note.stamp, note.kind);
      Keeps(codec, o, st, s) && (note.text != "" ==> Kept(codec, o, s, note))
  {
    AddKeeps(codec, o, st, note);
    hide Kept, Add;
  }

  lemma SameKeeps(codec: Codec, o: Origin, st: State, s: State)
    requires s.items == st.items && s.pending == st.pending
    ensures Keeps(codec, o, st, s)
  {
    hide Tells;
  }

  lemma KeepsMore(codec: Codec, o: Origin, st: State, s: State, u: State)
    requires Keeps(codec, o, st, s) && Keeps(codec, o, s, u)
    ensures Keeps(codec, o, st, u)
  {
    hide Kept;
  }

  lemma {:induction false} FlushKeeps(codec: Codec, o: Origin, st: State)
    ensures Keeps(codec, o, st, FlushPending(codec, o, st))
    decreases |st.pending|
  {
    if st.pending != [] {
      var p := st.pending[0];
      var next := Add(codec, o, st, p.id, "system", p.text, p.timestamp, "title").(pending := st.pending[1..]);
      OneWritten(codec, o, st, next);
      FlushKeeps(codec, o, next);
      KeepsMore(codec, o, st, next, FlushPending(codec, o, next));
    }
  }

  lemma OneWritten(codec: Codec, o: Origin, st: State, next: State)
    requires st.pending != []
    requires var p := st.pending[0];
      next == Add(codec, o, st, p.id, "system", p.text, p.timestamp, "title").(pending := st.pending[1..])
    ensures Keeps(codec, o, st, next)
  {
    var p := st.pending[0];
    RowTells(codec, o, st.sessionId, st.project, Waiting(p));
    var x := RawRecord(codec, o, st.sessionId, p.id, "system", p.text, p.timestamp, st.project, "title");
    hide Tells, RawRecord;
    assert next.items[|st.items|] == x;
    forall note: Note | Kept(codec, o, st, note)
      ensures Kept(codec, o, next, note)
    {
      if q: Pending :| q in st.pending && Waiting(q).(stamp := 0) == note.(stamp := 0) {
        if q == p {
          assert note.(stamp := p.timestamp) == Waiting(p);
          assert Tells(codec, o, x, note.(stamp := p.timestamp));
        } else {
          var k :| 0 <= k < |st.pending| && st.pending[k] == q;
          assert st.pending[1..][k - 1] == q;
        }
      }
    }
  }

  lemma AddTitleKeeps(codec: Codec, o: Origin, st: State, id: string, text: string, ts: int)
    ensures var s := AddTitle(codec, o, st, id, text, ts);
      Keeps(codec, o, st, s) && forall stamp: int :: Kept(codec, o, s, Note("title", id, "system", text, stamp))
  {
    var note, s := Note("title", id, "system", text, ts), AddTitle(codec, o, st, id, text, ts);
    AddKeeps(codec, o, st, note);
    hide Tells, Add;
    if st.project == "unknown" {
      var p := Pending(id, text, ts);
      assert s.pending[|st.pending|] == p;
      forall stamp: int
        ensures Kept(codec, o, s, Note("title", id, "system", text, stamp))
      {
        assert Waiting(p).(stamp := 0) == Note("title", id, "system", text, stamp).(stamp := 0);
      }
      assert forall x :: x in st.items ==> x in s.items;
      assert forall q :: q in st.pending ==> q in s.pending;
    } else {
      forall stamp: int
        ensures Kept(codec, o, s, Note("title", id, "system", text, stamp))
      {
        StampsDoNotMatter(codec, o, s, note, stamp);
      }
    }
  }

  lemma StampsDoNotMatter(codec: Codec, o: Origin, s: State, note: Note, stamp: int)
    requires Kept(codec, o, s, note)
    ensures Kept(codec, o, s, note.(stamp := stamp))
  {
    hide Tells;
    var other := note.(stamp := stamp);
    if x: MemoryItem, at: int :| x in s.items && Tells(codec, o, x, note.(stamp := at)) {
      assert note.(stamp := at) == other.(stamp := at);
    }
    assert note.(stamp := 0) == other.(stamp := 0);
  }

  // ---------- One line of each harness ----------

  // What one line does to a parse with state rows: rows come from lines, nothing kept is lost,
  // and what the line notes is kept. `calls` are the task calls known when its notes are read.
  ghost predicate LineKept(codec: Codec, o: Origin, lines: seq<Line>, st: State, s: State) {
    && lines != [] && Sound(codec, o, lines, s) && Keeps(codec, o, st, s)
    && forall note: Note :: Notes(codec, o, lines[|lines| - 1], |lines|, st.taskCalls, note) ==> Kept(codec, o, s, note)
  }

  lemma CodexKept(codec: Codec, o: Origin, lines: seq<Line>, st: State)
    requires lines != [] && lines[|lines| - 1].Object? && Sound(codec, o, lines, st)
    requires o.harness != "grok" && o.harness != "claude" && o.harness !in {"pi", "omp", "grokbot"}
    ensures LineKept(codec, o, lines, st, CodexStep(codec, o, st, lines[|lines| - 1].fields, |lines|, true))
  {
    var obj := lines[|lines| - 1].fields;
    var payload, ts := MapField(obj, "payload"), Timestamp(codec, Get(obj, "timestamp"));
    var s := CodexStep(codec, o, st, obj, |lines|, true);
    var title := TitleText(payload, "session");
    var note := Note("title", StringField(payload, "id") + "-session", "system", title, ts);
    forall text: string
      ensures TitleSays(payload, "session", text) <==> text == title && text != ""
    {
      TitleIs(payload, "session", text);
    }
    hide TitleSays, Timestamp, TitleText, Get, StringField, MapField, IndexableMessage, ContentText, Sound, Keeps, Kept,
      ProjectFromCwd, Add, AddText, Short, Noted;
    if StringField(obj, "type") == "session_meta" {
      var named := st.(sessionId := ValueOr(StringField(payload, "id"), st.sessionId),
                       project := ProjectFromCwd(StringField(payload, "cwd")));
      SoundMore(codec, o, lines, lines, st, named);
      SameKeeps(codec, o, st, named);
      if title != "" { NotedLast(codec, o, lines, named.taskCalls, note); }
      AddTextSound(codec, o, lines, named, note);
      AddTextKeeps(codec, o, named, note);
      KeepsMore(codec, o, st, named, s);
    } else {
      MessageKept(codec, o, lines, st, s);
    }
  }

  // A step that at most adds a message keeps everything.
  lemma MessageKept(codec: Codec, o: Origin, lines: seq<Line>, st: State, s: State)
    requires Sound(codec, o, lines, st) && s.pending == st.pending && s.taskCalls == st.taskCalls
    requires s.items == st.items
             || (exists x: MemoryItem :: x.metadata.kind == "message" && s.items == st.items + [x])
    ensures Sound(codec, o, lines, s) && Keeps(codec, o, st, s)
  {
    hide Tells, Noted;
    if s.items != st.items {
      var x: MemoryItem :| x.metadata.kind == "message" && s.items == st.items + [x];
      assert forall y :: y in st.items ==> y in s.items;
    }
  }

  // The line notes this, if it has a text, and nothing else.
  ghost predicate OnlyNotes(codec: Codec, o: Origin, line: Line, lineNo: nat, calls: set<string>, note: Note) {
    forall n: Note :: Notes(codec, o, line, lineNo, calls, n) ==> n == note && n.text != ""
  }

  // One note of a line, once its row is added.
  lemma NoteKept(codec: Codec, o: Origin, lines: seq<Line>, st: State, named: State, note: Note)
    requires lines != [] && Sound(codec, o, lines, named) && Keeps(codec, o, st, named) && note.kind != "message"
    requires note.text != "" ==> Notes(codec, o, lines[|lines| - 1], |lines|, named.taskCalls, note)
    requires OnlyNotes(codec, o, lines[|lines| - 1], |lines|, st.taskCalls, note) && o.harness != "claude"
    ensures LineKept(codec, o, lines, st,
                     AddText(codec, o, named, note.turn, note.role, note.text, note.stamp, note.kind))
  {
    hide Sound, Keeps, Kept, Notes, Noted, AddText;
    var s := AddText(codec, o, named, note.turn, note.role, note.text, note.stamp, note.kind);
    if note.text != "" { NotedLast(codec, o, lines, named.taskCalls, note); }
    AddTextSound(codec, o, lines, named, note);
    AddTextKeeps(codec, o, named, note);
    KeepsMore(codec, o, st, named, s);
    forall n: Note | Notes(codec, o, lines[|lines| - 1], |lines|, st.taskCalls, n)
      ensures Kept(codec, o, s, n)
    {
      assert n == note;
    }
  }

  // What Pi lines note, by their type.
  lemma PiNotesAre(codec: Codec, obj: Fields, lineNo: nat, n: Note)
    ensures var id, kind, msg := ValueOr(StringField(obj, "id"), LineId(lineNo)), StringField(obj, "type"),
                                 MapField(obj, "message");
            var updated := Timestamp(codec, OrElse(Get(obj, "updatedAt"), Get(obj, "timestamp")));
            var said := Timestamp(codec, OrElse(Get(obj, "timestamp"), Get(msg, "timestamp")));
      PiNotes(codec, obj, lineNo, n) ==>
        && n.text != ""
        && (kind == "session" ==>
              n == Note("title", id + "-session", "system", TitleText(obj, "session"), updated))
        && (kind == "title" || kind == "title_change" ==>
            n == Note("title", id, "system", TitleText(obj, kind), updated))
        && (kind == "custom" ==>
              StringField(obj, "customType") == "user_todo_edit" &&
              n == Note("todo", id, "user_todo_edit", TodoText(codec, obj, "user_todo_edit"),
                        Timestamp(codec, Get(obj, "timestamp"))))
        && (kind == "message" ==>
              StringField(msg, "role") == "toolResult" &&
              if StringField(msg, "toolName") == "todo"
              then n == Note("todo", id, "toolResult", TodoText(codec, msg, "todo"), said)
              else StringField(msg, "toolName") == "task" &&
                   n == Note("task", id, "toolResult", ToolResultText(codec, msg, "task"), said))
        && (kind == "session" || kind == "title" || kind == "title_change" || kind == "custom" || kind == "message")
  {
    var kind, msg := StringField(obj, "type"), MapField(obj, "message");
    TitleIs(obj, "session", n.text);
    TitleIs(obj, kind, n.text);
    TodoIs(codec, obj, "user_todo_edit", n.text);
    TodoIs(codec, msg, "todo", n.text);
    ResultIs(codec, msg, "task", n.text);
    hide TitleSays, TodoSays, ResultSays, Timestamp, TitleText, TodoText, ToolResultText, Get, StringField, MapField,
      OrElse, LineId, ValueOr;
  }

  predicate IsPi(o: Origin) { o.harness == "pi" || o.harness == "omp" || o.harness == "grokbot" }

  function PiSessionNote(codec: Codec, obj: Fields, lineNo: nat): Note {
    Note("title", ValueOr(StringField(obj, "id"), LineId(lineNo)) + "-session", "system", TitleText(obj, "session"),
         Timestamp(codec, OrElse(Get(obj, "updatedAt"), Get(obj, "timestamp"))))
  }

  function NamedBy(st: State, obj: Fields): State {
    st.(sessionId := ValueOr(StringField(obj, "id"), st.sessionId), project := ProjectFromCwd(StringField(obj, "cwd")))
  }

  lemma PiSessionStep(codec: Codec, o: Origin, st: State, line: Line, lineNo: nat, calls: set<string>)
    requires line.Object? && IsPi(o) && StringField(line.fields, "type") == "session" && lineNo > 0
    ensures var note := PiSessionNote(codec, line.fields, lineNo);
      && PiStep(codec, o, st, line.fields, lineNo, true) ==
         AddText(codec, o, FlushPending(codec, o, NamedBy(st, line.fields)), note.turn, note.role, note.text,
                 note.stamp, note.kind)
      && OnlyNotes(codec, o, line, lineNo, calls, note)
      && (note.text != "" ==> Notes(codec, o, line, lineNo, calls, note))
  {
    var obj, note := line.fields, PiSessionNote(codec, line.fields, lineNo);
    OrElseIs(Get(obj, "updatedAt"), Get(obj, "timestamp"));
    TitleIs(obj, "session", note.text);
    hide TitleSays, TodoSays, ResultSays, Timestamp, TitleText, Get, StringField, MapField, ProjectFromCwd, AddText,
      FirstValue, OrElse, LineId, FlushPending, PiMessage, TodoText, ValueOr;
    forall n: Note | Notes(codec, o, line, lineNo, calls, n)
      ensures n == note && n.text != ""
    {
      PiNotesAre(codec, obj, lineNo, n);
    }
  }

  lemma PiSessionKept(codec: Codec, o: Origin, lines: seq<Line>, st: State)
    requires lines != [] && lines[|lines| - 1].Object? && Sound(codec, o, lines, st) && IsPi(o)
    requires StringField(lines[|lines| - 1].fields, "type") == "session"
    ensures LineKept(codec, o, lines, st, PiStep(codec, o, st, lines[|lines| - 1].fields, |lines|, true))
  {
    var obj := lines[|lines| - 1].fields;
    var note, named := PiSessionNote(codec, obj, |lines|), NamedBy(st, obj);
    var flushed := FlushPending(codec, o, named);
    hide Timestamp, TitleText, StringField, Sound, Keeps, Kept, ProjectFromCwd, AddText, FlushPending, PiStep, Notes,
      OnlyNotes;
    SoundMore(codec, o, lines, lines, st, named);
    SameKeeps(codec, o, st, named);
    FlushSound(codec, o, lines, named);
    FlushKeeps(codec, o, named);
    KeepsMore(codec, o, st, named, flushed);
    FlushIsState(codec, o, named);
    PiSessionStep(codec, o, st, lines[|lines| - 1], |lines|, st.taskCalls);
    NoteKept(codec, o, lines, st, flushed, note);
  }

  lemma PiTitleKept(codec: Codec, o: Origin, lines: seq<Line>, st: State)
    requires lines != [] && lines[|lines| - 1].Object? && Sound(codec, o, lines, st) && IsPi(o)
    requires var kind := StringField(lines[|lines| - 1].fields, "type"); kind == "title" || kind == "title_change"
    ensures LineKept(codec, o, lines, st, PiStep(codec, o, st, lines[|lines| - 1].fields, |lines|, true))
  {
    var obj := lines[|lines| - 1].fields;
    var id, kind := ValueOr(StringField(obj, "id"), LineId(|lines|)), StringField(obj, "type");
    var updated := Timestamp(codec, FirstValue([Get(obj, "updatedAt"), Get(obj, "timestamp")]));
    var title := TitleText(obj, kind);
    OrElseIs(Get(obj, "updatedAt"), Get(obj, "timestamp"));
    forall text: string
      ensures TitleSays(obj, kind, text) <==> text == title && text != ""
    {
      TitleIs(obj, kind, text);
    }
    hide TitleSays, Timestamp, TitleText, Get, StringField, MapField, Sound, Keeps, Kept, ProjectFromCwd, AddTitle,
      Noted,
      FirstValue, OrElse, LineId, FlushPending, PiMessage, TodoText;
    if title == "" {
      SameKeeps(codec, o, st, st);
    } else {
      NotedLast(codec, o, lines, st.taskCalls, Note("title", id, "system", title, updated));
      AddTitleSound(codec, o, lines, st, id, title, updated);
      AddTitleKeeps(codec, o, st, id, title, updated);
    }
  }

  lemma PiCustomKept(codec: Codec, o: Origin, lines: seq<Line>, st: State)
    requires lines != [] && lines[|lines| - 1].Object? && Sound(codec, o, lines, st) && IsPi(o)
    requires StringField(lines[|lines| - 1].fields, "type") == "custom"
    ensures LineKept(codec, o, lines, st, PiStep(codec, o, st, lines[|lines| - 1].fields, |lines|, true))
  {
    var obj := lines[|lines| - 1].fields;
    var id := ValueOr(StringField(obj, "id"), LineId(|lines|));
    var todos := TodoText(codec, obj, "user_todo_edit");
    var note := Note("todo", id, "user_todo_edit", todos, Timestamp(codec, Get(obj, "timestamp")));
    forall text: string
      ensures TodoSays(codec, obj, "user_todo_edit", text) <==> text == todos && text != ""
    {
      TodoIs(codec, obj, "user_todo_edit", text);
    }
    hide TodoSays, Timestamp, TodoText, Get, StringField, MapField, Sound, Keeps, Kept, ProjectFromCwd, AddText, Noted,
      FirstValue, LineId, FlushPending, PiMessage, TitleText;
    SameKeeps(codec, o, st, st);
    forall n: Note | Notes(codec, o, lines[|lines| - 1], |lines|, st.taskCalls, n)
      ensures StringField(obj, "customType") == "user_todo_edit" && n == note && n.text != ""
    {
      PiNotesAre(codec, obj, |lines|, n);
    }
    if StringField(obj, "customType") == "user_todo_edit" { NoteKept(codec, o, lines, st, st, note); }
  }

  // The one note that a Pi message may hold.
  function PiMessageNote(codec: Codec, obj: Fields, lineNo: nat): Note {
    var id, msg := ValueOr(StringField(obj, "id"), LineId(lineNo)), MapField(obj, "message");
    var said := Timestamp(codec, OrElse(Get(obj, "timestamp"), Get(msg, "timestamp")));
    if StringField(msg, "role") != "toolResult" then Note("", "", "", "", 0)
    else if StringField(msg, "toolName") == "todo" then
      Note("todo", id, "toolResult", TodoText(codec, msg, "todo"), said)
    else if StringField(msg, "toolName") == "task" then
      Note("task", id, "toolResult", ToolResultText(codec, msg, "task"), said)
    else Note("", "", "", "", 0)
  }

  lemma PiMessageNotes(codec: Codec, o: Origin, line: Line, lineNo: nat, calls: set<string>)
    requires line.Object? && IsPi(o) && StringField(line.fields, "type") == "message"
    ensures var note := PiMessageNote(codec, line.fields, lineNo);
      OnlyNotes(codec, o, line, lineNo, calls, note)
      && (note.text != "" ==> Notes(codec, o, line, lineNo, calls, note))
  {
    var obj, msg := line.fields, MapField(line.fields, "message");
    var note := PiMessageNote(codec, obj, lineNo);
    TodoIs(codec, msg, "todo", note.text);
    ResultIs(codec, msg, "task", note.text);
    hide TodoSays, ResultSays, TitleSays, TodoText, ToolResultText, TitleText, Timestamp, Get, StringField, MapField,
      OrElse, LineId, ValueOr;
    forall n: Note | Notes(codec, o, line, lineNo, calls, n)
      ensures n == note && n.text != ""
    {
      PiNotesAre(codec, obj, lineNo, n);
    }
  }

  lemma PiMessageStep(codec: Codec, o: Origin, st: State, obj: Fields, lineNo: nat)
    requires StringField(obj, "type") == "message" && lineNo > 0
    ensures var s, note := PiStep(codec, o, st, obj, lineNo, true), PiMessageNote(codec, obj, lineNo);
      if note.kind != "" then
        && note.kind != "message"
        && s == AddText(codec, o, st, note.turn, note.role, note.text, note.stamp, note.kind)
      else
        && note.text == "" && s.pending == st.pending && s.taskCalls == st.taskCalls
        && (s.items == st.items || exists x: MemoryItem :: x.metadata.kind == "message" && s.items == st.items + [x])
  {
    OrElseIs(Get(obj, "timestamp"), Get(MapField(obj, "message"), "timestamp"));
    hide Timestamp, TodoText, ToolResultText, Get, StringField, MapField, AddText, FirstValue, OrElse, LineId,
      IndexableMessage, ContentText;
  }

  lemma PiMessageKept(codec: Codec, o: Origin, lines: seq<Line>, st: State)
    requires lines != [] && lines[|lines| - 1].Object? && Sound(codec, o, lines, st) && IsPi(o)
    requires StringField(lines[|lines| - 1].fields, "type") == "message"
    ensures LineKept(codec, o, lines, st, PiStep(codec, o, st, lines[|lines| - 1].fields, |lines|, true))
  {
    var obj := lines[|lines| - 1].fields;
    var note := PiMessageNote(codec, obj, |lines|);
    PiMessageNotes(codec, o, lines[|lines| - 1], |lines|, st.taskCalls);
    PiMessageStep(codec, o, st, obj, |lines|);
    hide PiStep, PiMessageNote, Sound, Keeps, Kept, AddText, Notes;
    if note.kind != "" {
      NoteKept(codec, o, lines, st, st, note);
    } else {
      MessageKept(codec, o, lines, st, PiStep(codec, o, st, obj, |lines|, true));
    }
  }

  lemma PiKept(codec: Codec, o: Origin, lines: seq<Line>, st: State)
    requires lines != [] && lines[|lines| - 1].Object? && Sound(codec, o, lines, st) && IsPi(o)
    ensures LineKept(codec, o, lines, st, PiStep(codec, o, st, lines[|lines| - 1].fields, |lines|, true))
  {
    var kind := StringField(lines[|lines| - 1].fields, "type");
    hide Sound, Keeps, Kept, Get, StringField, MapField, TitleSays, TodoSays, ResultSays, Timestamp, TitleText,
      TodoText,
      ToolResultText, PiMessage, FlushPending, AddText, AddTitle, FirstValue, OrElse, LineId, ProjectFromCwd;
    if kind == "session" { PiSessionKept(codec, o, lines, st); }
    else if kind == "title" || kind == "title_change" { PiTitleKept(codec, o, lines, st); }
    else if kind == "custom" { PiCustomKept(codec, o, lines, st); }
    else if kind == "message" { PiMessageKept(codec, o, lines, st); }
    else { SameKeeps(codec, o, st, st); }
  }

  // ---------- Claude lines ----------

  // What one part of a Claude message does.
  ghost predicate PartKept(codec: Codec, o: Origin, lines: seq<Line>, obj: Fields, part: Json, calls: set<string>,
                           st: State, s: State)
  {
    && Sound(codec, o, lines, s) && Keeps(codec, o, st, s) && st.taskCalls <= s.taskCalls
    && forall note: Note :: PartNotes(codec, obj, part, calls, note) ==> Kept(codec, o, s, note)
  }

  // The note of a part comes from its line.
  lemma PartIsNoted(codec: Codec, o: Origin, lines: seq<Line>, k: nat, calls: set<string>, note: Note)
    requires lines != [] && lines[|lines| - 1].Object? && o.harness == "claude"
      && ClaudeTalks(lines[|lines| - 1].fields)
    requires var content := Get(MapField(lines[|lines| - 1].fields, "message"), "content");
      content.Arr? && k < |content.items| && PartNotes(codec, lines[|lines| - 1].fields, content.items[k], calls, note)
    ensures Noted(codec, o, lines, calls, note)
  {
    assert note.kind != "title";
    hide PartNotes, ClaudeTalks, Get, StringField, MapField, TitleSays, Short, LastStamp;
    assert Notes(codec, o, lines[|lines| - 1], |lines|, calls, note);
    NotedLast(codec, o, lines, calls, note);
  }

  // What parts note, by their type.
  lemma PartNotesAre(codec: Codec, obj: Fields, part: Json, calls: set<string>, n: Note)
    requires part.Obj?
    ensures var f := part.fields;
            var role, ts := StringField(MapField(obj, "message"), "role"), Timestamp(codec, Get(obj, "timestamp"));
            var input, name, kind := MapField(f, "input"), StringField(f, "name"), StringField(f, "type");
      PartNotes(codec, obj, part, calls, n) <==>
        && n.text != ""
        && (if kind == "tool_use" && name == "TodoWrite"
            then n == Note("todo", StringField(f, "id"), role, TodoText(codec, input, "TodoWrite"), ts)
            else if kind == "tool_use" && name == "Bash"
            then n == Note("tool", StringField(f, "id"), role, BashToolText(input), ts)
            else
              && kind == "tool_result" && StringField(f, "tool_use_id") in calls
              && Get(MapField(obj, "toolUseResult"), "isAsync") != Bool(true)
              && n == Note("task", StringField(f, "tool_use_id"), "toolResult", ToolResultText(codec, f, "task"), ts))
  {
    var f := part.fields;
    TodoIs(codec, MapField(f, "input"), "TodoWrite", n.text);
    BashIs(MapField(f, "input"), n.text);
    ResultIs(codec, f, "task", n.text);
    hide TodoSays, BashSays, ResultSays, Timestamp, TodoText, BashToolText, ToolResultText, Get, StringField, MapField;
  }

  // One part with one note.
  lemma PartNoteKept(codec: Codec, o: Origin, lines: seq<Line>, obj: Fields, part: Json, calls: set<string>, st: State,
                     note: Note)
    requires Sound(codec, o, lines, st) && note.kind != "message"
    requires note.text != "" ==> Noted(codec, o, lines, st.taskCalls, note)
    requires forall n: Note :: PartNotes(codec, obj, part, calls, n) ==> n == note && n.text != ""
    ensures PartKept(codec, o, lines, obj, part, calls, st,
                     AddText(codec, o, st, note.turn, note.role, note.text, note.stamp, note.kind))
  {
    AddTextSound(codec, o, lines, st, note);
    AddTextKeeps(codec, o, st, note);
    var s := AddText(codec, o, st, note.turn, note.role, note.text, note.stamp, note.kind);
    assert s.taskCalls == st.taskCalls;
    hide Sound, Keeps, Kept, PartNotes, Noted, AddText;
    forall n: Note | PartNotes(codec, obj, part, calls, n)
      ensures Kept(codec, o, s, n)
    {
      assert n == note;
    }
  }

  lemma OnePartKept(codec: Codec, o: Origin, lines: seq<Line>, st: State, k: nat, calls: set<string>)
    requires lines != [] && lines[|lines| - 1].Object? && o.harness == "claude"
      && ClaudeTalks(lines[|lines| - 1].fields)
    requires Sound(codec, o, lines, st) && calls <= st.taskCalls
    requires var content := Get(MapField(lines[|lines| - 1].fields, "message"), "content");
      content.Arr? && k < |content.items| && content.items[k].Obj?
    ensures var obj := lines[|lines| - 1].fields;
            var part := Get(MapField(obj, "message"), "content").items[k];
            var role, ts := StringField(MapField(obj, "message"), "role"), Timestamp(codec, Get(obj, "timestamp"));
      PartKept(codec, o, lines, obj, part, calls, st, ClaudePart(codec, o, st, obj, part.fields, role, ts))
  {
    var obj := lines[|lines| - 1].fields;
    var part := Get(MapField(obj, "message"), "content").items[k];
    var f := part.fields;
    var role, ts := StringField(MapField(obj, "message"), "role"), Timestamp(codec, Get(obj, "timestamp"));
    var input, name, kind := MapField(f, "input"), StringField(f, "name"), StringField(f, "type");
    var note :=
      if kind == "tool_use" && name == "TodoWrite"
      then Note("todo", StringField(f, "id"), role, TodoText(codec, input, "TodoWrite"), ts)
      else if kind == "tool_use" then Note("tool", StringField(f, "id"), role, BashToolText(input), ts)
      else Note("task", StringField(f, "tool_use_id"), "toolResult", ToolResultText(codec, f, "task"), ts);
    forall n: Note
      ensures PartNotes(codec, obj, part, calls, n) ==> n == note && n.text != ""
    {
      PartNotesAre(codec, obj, part, calls, n);
    }
    PartNotesAre(codec, obj, part, st.taskCalls, note);
    PartNotesAre(codec, obj, part, calls, note);
    if PartNotes(codec, obj, part, st.taskCalls, note) { PartIsNoted(codec, o, lines, k, st.taskCalls, note); }
    var s := ClaudePart(codec, o, st, obj, f, role, ts);
    hide PartNotes, ClaudeTalks, Get, StringField, MapField, TodoText, BashToolText, ToolResultText, Timestamp, Sound,
      Keeps, Kept, Noted, AddText;
    if s.items == st.items && s.pending == st.pending {
      SoundMore(codec, o, lines, lines, st, s);
      SameKeeps(codec, o, st, s);
    }
    if s == AddText(codec, o, st, note.turn, note.role, note.text, note.stamp, note.kind)
      && (note.text != "" ==> PartNotes(codec, obj, part, st.taskCalls, note)) {
      PartNoteKept(codec, o, lines, obj, part, calls, st, note);
    }
  }

  ghost predicate PartsFrom(codec: Codec, obj: Fields, items: seq<Json>, k: nat, calls: set<string>, note: Note) {
    exists j | k <= j < |items| :: PartNotes(codec, obj, items[j], calls, note)
  }

  lemma {:induction false} PartsKept(codec: Codec, o: Origin, lines: seq<Line>, st: State, k: nat, calls: set<string>)
    requires lines != [] && lines[|lines| - 1].Object? && o.harness == "claude"
      && ClaudeTalks(lines[|lines| - 1].fields)
    requires Sound(codec, o, lines, st) && calls <= st.taskCalls
    requires var content := Get(MapField(lines[|lines| - 1].fields, "message"), "content");
      content.Arr? && k <= |content.items|
    ensures var obj := lines[|lines| - 1].fields;
            var items := Get(MapField(obj, "message"), "content").items;
            var role, ts := StringField(MapField(obj, "message"), "role"), Timestamp(codec, Get(obj, "timestamp"));
            var s := ClaudeParts(codec, o, st, obj, items[k..], role, ts);
      && Sound(codec, o, lines, s) && Keeps(codec, o, st, s)
      && forall note: Note :: PartsFrom(codec, obj, items, k, calls, note) ==> Kept(codec, o, s, note)
    decreases |Get(MapField(lines[|lines| - 1].fields, "message"), "content").items| - k
  {
    var obj := lines[|lines| - 1].fields;
    var items := Get(MapField(obj, "message"), "content").items;
    var role, ts := StringField(MapField(obj, "message"), "role"), Timestamp(codec, Get(obj, "timestamp"));
    if k == |items| {
      SameKeeps(codec, o, st, st);
      assert items[k..] == [];
    } else {
      var part: Fields := match items[k] case Obj(f) => f case _ => map[];
      var next := ClaudePart(codec, o, st, obj, part, role, ts);
      if items[k].Obj? { OnePartKept(codec, o, lines, st, k, calls); } else { NoPart(codec, o, st, obj, role, ts); }
      assert items[k..][0] == items[k] && items[k..][1..] == items[k + 1..];
      var s := ClaudeParts(codec, o, next, obj, items[k + 1..], role, ts);
      assert s == ClaudeParts(codec, o, st, obj, items[k..], role, ts);
      hide ClaudePart, ClaudeParts, PartNotes, ClaudeTalks, StringField, MapField, Get, Timestamp, Sound, Kept,
        PartsFrom;
      SameKeeps(codec, o, st, st);
      PartsKept(codec, o, lines, next, k + 1, calls);
      KeepsMore(codec, o, st, next, s);
      forall note: Note | PartsFrom(codec, obj, items, k, calls, note)
        ensures Kept(codec, o, s, note)
      {
        PartsFromStep(codec, obj, items, k, calls, note);
      }
    }
  }

  lemma PartsFromStep(codec: Codec, obj: Fields, items: seq<Json>, k: nat, calls: set<string>, note: Note)
    requires k < |items|
    ensures PartsFrom(codec, obj, items, k, calls, note) <==>
      (items[k].Obj? && PartNotes(codec, obj, items[k], calls, note))
        || PartsFrom(codec, obj, items, k + 1, calls, note)
  {
    assert PartNotes(codec, obj, items[k], calls, note) ==> items[k].Obj?;
    hide PartNotes;
  }

  lemma NoPart(codec: Codec, o: Origin, st: State, obj: Fields, role: string, ts: int)
    ensures ClaudePart(codec, o, st, obj, map[], role, ts) == st
  {
    hide AddText, TodoText, BashToolText, ToolResultText;
  }

  // Titles seen are kept.
  ghost predicate SeenKept(codec: Codec, o: Origin, st: State) {
    o.harness == "claude" ==>
      forall text: string, stamp: int | text in st.seen ::
        Kept(codec, o, st, Note("title", "title-" + Short(codec.hash(text)), "system", text, stamp))
  }

  lemma SeenStay(codec: Codec, o: Origin, st: State, s: State)
    requires SeenKept(codec, o, st) && Keeps(codec, o, st, s) && s.seen == st.seen
    ensures SeenKept(codec, o, s)
  {
    hide Kept, Short;
  }

  lemma ClaudeTitleKept(codec: Codec, o: Origin, lines: seq<Line>, st: State)
    requires lines != [] && lines[|lines| - 1].Object? && o.harness == "claude"
    requires var kind := StringField(lines[|lines| - 1].fields, "type");
      kind == "ai-title" || kind == "custom-title" || kind == "summary"
    requires Sound(codec, o, lines, st) && SeenKept(codec, o, st) && st.lastTs == LastStamp(codec, lines)
    ensures var obj := lines[|lines| - 1].fields;
            var s := ClaudeTitle(codec, o, st, obj, StringField(obj, "type"), true);
      LineKept(codec, o, lines, st, s) && SeenKept(codec, o, s)
  {
    var obj := lines[|lines| - 1].fields;
    var kind := StringField(obj, "type");
    var title, s := TitleText(obj, kind), ClaudeTitle(codec, o, st, obj, kind, true);
    var turn := "title-" + Short(codec.hash(title));
    forall n: Note
      ensures Notes(codec, o, lines[|lines| - 1], |lines|, st.taskCalls, n) <==>
              title != "" && n == Note("title", turn, "system", title, n.stamp)
    {
      ClaudeTitleNotes(codec, o, lines[|lines| - 1], |lines|, st.taskCalls, n);
    }
    hide Notes, TitleSays, TitleText, Get, StringField, MapField, Sound, Keeps, Kept, AddTitle, Noted, Short, SeenKept,
      LastStamp;
    if title == "" || title in st.seen {
      SameKeeps(codec, o, st, st);
      if title != "" { SeenIsKept(codec, o, st, title); }
    } else {
      NotedLast(codec, o, lines, st.taskCalls, Note("title", turn, "system", title, st.lastTs));
      NewTitleKept(codec, o, lines, st, turn, title);
      assert s == AddTitle(codec, o, st.(seen := st.seen + {title}), turn, title, st.lastTs);
    }
  }

  lemma SeenIsKept(codec: Codec, o: Origin, st: State, title: string)
    requires SeenKept(codec, o, st) && title in st.seen && o.harness == "claude"
    ensures forall stamp: int ::
      Kept(codec, o, st, Note("title", "title-" + Short(codec.hash(title)), "system", title, stamp))
  {
    hide Kept, Short;
  }

  lemma NewTitleKept(codec: Codec, o: Origin, lines: seq<Line>, st: State, turn: string, title: string)
    requires Sound(codec, o, lines, st) && SeenKept(codec, o, st) && turn == "title-" + Short(codec.hash(title))
    requires Noted(codec, o, lines, st.taskCalls, Note("title", turn, "system", title, st.lastTs))
    ensures var s := AddTitle(codec, o, st.(seen := st.seen + {title}), turn, title, st.lastTs);
      && Sound(codec, o, lines, s) && Keeps(codec, o, st, s) && SeenKept(codec, o, s)
      && forall stamp: int :: Kept(codec, o, s, Note("title", turn, "system", title, stamp))
  {
    var noted := st.(seen := st.seen + {title});
    var s := AddTitle(codec, o, noted, turn, title, st.lastTs);
    SoundMore(codec, o, lines, lines, st, noted);
    SameKeeps(codec, o, st, noted);
    AddTitleSound(codec, o, lines, noted, turn, title, st.lastTs);
    AddTitleKeeps(codec, o, noted, turn, title, st.lastTs);
    KeepsMore(codec, o, st, noted, s);
    AddTitleIsState(codec, o, noted, turn, title, st.lastTs);
    hide Sound, Keeps, Kept, AddTitle, Noted, Short, SeenKept;
    SeenGrows(codec, o, st, s, title);
  }

  lemma SeenGrows(codec: Codec, o: Origin, st: State, s: State, title: string)
    requires SeenKept(codec, o, st) && Keeps(codec, o, st, s) && s.seen == st.seen + {title}
    requires forall stamp: int ::
      Kept(codec, o, s, Note("title", "title-" + Short(codec.hash(title)), "system", title, stamp))
    ensures SeenKept(codec, o, s)
  {
    KeptStays(codec, o, st, s);
    hide Kept, Short, Keeps;
  }

  lemma ClaudeTitleNotes(codec: Codec, o: Origin, line: Line, lineNo: nat, calls: set<string>, n: Note)
    requires line.Object? && o.harness == "claude"
    requires var kind := StringField(line.fields, "type");
      kind == "ai-title" || kind == "custom-title" || kind == "summary"
    ensures var title := TitleText(line.fields, StringField(line.fields, "type"));
      Notes(codec, o, line, lineNo, calls, n) <==>
      title != "" && n == Note("title", "title-" + Short(codec.hash(title)), "system", title, n.stamp)
  {
    var kind := StringField(line.fields, "type");
    TitleIs(line.fields, kind, n.text);
    assert kind != "user" && kind != "assistant";
    hide TitleSays, TitleText, Get, StringField, MapField, Short, PartNotes;
  }

  lemma KeptStays(codec: Codec, o: Origin, st: State, s: State)
    requires Keeps(codec, o, st, s)
    ensures forall note: Note :: Kept(codec, o, st, note) ==> Kept(codec, o, s, note)
  {
    hide Kept;
  }

  lemma ClaudeMessageKept(codec: Codec, o: Origin, lines: seq<Line>, st: State)
    requires lines != [] && lines[|lines| - 1].Object? && o.harness == "claude"
      && ClaudeTalks(lines[|lines| - 1].fields)
    requires Sound(codec, o, lines, st) && SeenKept(codec, o, st)
    ensures var s := ClaudeMessage(codec, o, st, lines[|lines| - 1].fields, true);
      LineKept(codec, o, lines, st, s) && SeenKept(codec, o, s)
  {
    var obj := lines[|lines| - 1].fields;
    var msg := MapField(obj, "message");
    var content := Get(msg, "content");
    var role, ts := StringField(msg, "role"), Timestamp(codec, Get(obj, "timestamp"));
    var s := ClaudeMessage(codec, o, st, obj, true);
    var kind := StringField(obj, "type");
    assert kind != "ai-title" && kind != "custom-title" && kind != "summary";
    var st1 := if content.Arr? then ClaudeParts(codec, o, st, obj, content.items, role, ts) else st;
    SameKeeps(codec, o, st, st);
    if content.Arr? {
      PartsKept(codec, o, lines, st, 0, st.taskCalls);
      assert content.items[0..] == content.items;
      PartsAreState(codec, o, st, obj, content.items, role, ts);
    }
    hide ClaudeParts, PartNotes, Get, StringField, MapField, Timestamp, Sound, Keeps, Kept, IndexableMessage,
      ContentText,
      TitleSays, Short, RawRecord;
    MessageKept(codec, o, lines, st1, s);
    KeepsMore(codec, o, st, st1, s);
    SeenStay(codec, o, st, s);
    KeptStays(codec, o, st1, s);
    forall note: Note | Notes(codec, o, lines[|lines| - 1], |lines|, st.taskCalls, note)
      ensures Kept(codec, o, s, note)
    {
      assert PartsFrom(codec, obj, content.items, 0, st.taskCalls, note);
    }
  }

  // A Claude line first notes its time and its directory; then waiting titles are written.
  function Placed(codec: Codec, o: Origin, st: State, obj: Fields): State {
    var ts, cwd := Timestamp(codec, Get(obj, "timestamp")), StringField(obj, "cwd");
    var timed := if ts != 0 then st.(lastTs := ts) else st;
    if timed.project == "unknown" && cwd != "" then FlushPending(codec, o, timed.(project := ProjectFromCwd(cwd)))
    else timed
  }

  lemma PlacedKept(codec: Codec, o: Origin, lines: seq<Line>, st: State, obj: Fields)
    requires Sound(codec, o, lines, st) && SeenKept(codec, o, st)
    ensures var s := Placed(codec, o, st, obj);
      && Sound(codec, o, lines, s) && SeenKept(codec, o, s) && Keeps(codec, o, st, s) && s.taskCalls == st.taskCalls
      && s.lastTs == var ts := Timestamp(codec, Get(obj, "timestamp")); if ts != 0 then ts else st.lastTs
  {
    var ts, cwd := Timestamp(codec, Get(obj, "timestamp")), StringField(obj, "cwd");
    var timed := if ts != 0 then st.(lastTs := ts) else st;
    var moved := timed.(project := ProjectFromCwd(cwd));
    hide FlushPending, Get, StringField, Timestamp, Sound, Keeps, SeenKept, ProjectFromCwd;
    SoundMore(codec, o, lines, lines, st, timed);
    SoundMore(codec, o, lines, lines, st, moved);
    SameKeeps(codec, o, st, timed);
    SameKeeps(codec, o, st, moved);
    FlushSound(codec, o, lines, moved);
    FlushKeeps(codec, o, moved);
    FlushIsState(codec, o, moved);
    KeepsMore(codec, o, st, moved, FlushPending(codec, o, moved));
    SeenStay(codec, o, st, Placed(codec, o, st, obj));
  }

  lemma ClaudeKept(codec: Codec, o: Origin, lines: seq<Line>, st: State)
    requires lines != [] && lines[|lines| - 1].Object? && o.harness == "claude"
    requires Sound(codec, o, lines, st) && SeenKept(codec, o, st)
    requires st.lastTs == LastStamp(codec, lines[..|lines| - 1])
    ensures var s := ClaudeStep(codec, o, st, lines[|lines| - 1].fields, true);
      LineKept(codec, o, lines, st, s) && SeenKept(codec, o, s)
  {
    var obj := lines[|lines| - 1].fields;
    var kind, placed := StringField(obj, "type"), Placed(codec, o, st, obj);
    var s := ClaudeStep(codec, o, st, obj, true);
    assert s == if kind in {"ai-title", "custom-title", "summary"} then ClaudeTitle(codec, o, placed, obj, kind, true)
                else if ClaudeTalks(obj) then ClaudeMessage(codec, o, placed, obj, true) else placed;
    hide ClaudeStep, ClaudeTitle, ClaudeMessage, Placed, Get, StringField, MapField, Sound, Keeps, Kept, SeenKept,
      TitleSays, PartNotes, Short;
    PlacedKept(codec, o, lines, st, obj);
    assert placed.lastTs == LastStamp(codec, lines);
    hide LastStamp;
    if kind == "ai-title" || kind == "custom-title" || kind == "summary" {
      ClaudeTitleKept(codec, o, lines, placed);
    } else if ClaudeTalks(obj) {
      ClaudeMessageKept(codec, o, lines, placed);
    } else {
      SameKeeps(codec, o, placed, placed);
    }
    KeepsMore(codec, o, st, placed, s);
  }

  lemma GrokKept(codec: Codec, o: Origin, lines: seq<Line>, st: State)
    requires lines != [] && lines[|lines| - 1].Object? && o.harness == "grok" && Sound(codec, o, lines, st)
    ensures LineKept(codec, o, lines, st, GrokStep(codec, o, st, lines[|lines| - 1].fields, |lines|))
  {
    var s := GrokStep(codec, o, st, lines[|lines| - 1].fields, |lines|);
    hide Sound, Keeps, IndexableMessage, Timestamp, Get, StringField, MapField, FirstValue, LineId;
    MessageKept(codec, o, lines, st, s);
  }

  lemma LineIsKept(codec: Codec, o: Origin, lines: seq<Line>, st: State)
    requires lines != [] && Sound(codec, o, lines, st) && SeenKept(codec, o, st)
    requires o.harness == "claude" ==> st.lastTs == LastStamp(codec, lines[..|lines| - 1])
    ensures var s := Step(codec, o, st, lines[|lines| - 1], |lines|, true);
      LineKept(codec, o, lines, st, s) && SeenKept(codec, o, s)
  {
    hide GrokStep, ClaudeStep, PiStep, CodexStep, Sound, Keeps, Kept, LastStamp;
    if lines[|lines| - 1].Unreadable? { SameKeeps(codec, o, st, st); }
    else if o.harness == "grok" { GrokKept(codec, o, lines, st); }
    else if o.harness == "claude" { ClaudeKept(codec, o, lines, st); }
    else if o.harness in {"pi", "omp", "grokbot"} { PiKept(codec, o, lines, st); }
    else { CodexKept(codec, o, lines, st); }
  }

  // A step of a Claude log remembers its time and the tasks its message calls.
  predicate PartCalls(part: Json, id: string) {
    && part.Obj? && StringField(part.fields, "type") == "tool_use" && StringField(part.fields, "id") == id
    && (StringField(part.fields, "name") == "Agent" || StringField(part.fields, "name") == "Task")
  }

  ghost predicate LineCalls(line: Line, id: string) {
    && line.Object? && ClaudeTalks(line.fields)
    && var content := Get(MapField(line.fields, "message"), "content");
       content.Arr? && exists k | 0 <= k < |content.items| :: PartCalls(content.items[k], id)
  }

  lemma PartRemembers(codec: Codec, o: Origin, st: State, obj: Fields, part: Json, role: string, ts: int, id: string)
    ensures var f := match part case Obj(f) => f case _ => map[];
            var s := ClaudePart(codec, o, st, obj, f, role, ts);
      s.lastTs == st.lastTs && (id in s.taskCalls <==> id in st.taskCalls || PartCalls(part, id))
  {
    hide TodoText, BashToolText, ToolResultText, RawRecord;
  }

  lemma {:induction false} PartsRemember(codec: Codec, o: Origin, st: State, obj: Fields, parts: seq<Json>,
                                         role: string, ts: int, id: string)
    ensures var s := ClaudeParts(codec, o, st, obj, parts, role, ts);
      && s.lastTs == st.lastTs
      && (id in s.taskCalls <==> id in st.taskCalls || exists k | 0 <= k < |parts| :: PartCalls(parts[k], id))
    decreases |parts|
  {
    if parts != [] {
      var f := match parts[0] case Obj(f) => f case _ => map[];
      PartRemembers(codec, o, st, obj, parts[0], role, ts, id);
      PartsRemember(codec, o, ClaudePart(codec, o, st, obj, f, role, ts), obj, parts[1..], role, ts, id);
      hide ClaudePart, PartCalls;
      assert forall k | 0 < k < |parts| :: parts[k] == parts[1..][k - 1];
    }
  }

  lemma ClaudeRemembers(codec: Codec, o: Origin, st: State, obj: Fields, id: string)
    ensures var s, ts := ClaudeStep(codec, o, st, obj, true), Timestamp(codec, Get(obj, "timestamp"));
      && s.lastTs == (if ts != 0 then ts else st.lastTs)
      && (id in s.taskCalls <==> id in st.taskCalls || LineCalls(Object(obj), id))
  {
    var kind, placed := StringField(obj, "type"), Placed(codec, o, st, obj);
    assert ClaudeStep(codec, o, st, obj, true) ==
      if kind in {"ai-title", "custom-title", "summary"} then ClaudeTitle(codec, o, placed, obj, kind, true)
      else if ClaudeTalks(obj) then ClaudeMessage(codec, o, placed, obj, true) else placed;
    assert kind in {"ai-title", "custom-title", "summary"} ==> !ClaudeTalks(obj);
    hide ClaudeStep, ClaudeTitle, ClaudeMessage, Placed, Get, StringField, MapField, Timestamp, PartCalls;
    PlacedRemembers(codec, o, st, obj);
    TitleRemembers(codec, o, placed, obj, kind);
    if ClaudeTalks(obj) { MessageRemembers(codec, o, placed, obj, id); }
    hide ClaudeTalks;
  }

  lemma PlacedRemembers(codec: Codec, o: Origin, st: State, obj: Fields)
    ensures var s, ts := Placed(codec, o, st, obj), Timestamp(codec, Get(obj, "timestamp"));
      s.lastTs == (if ts != 0 then ts else st.lastTs) && s.taskCalls == st.taskCalls
  {
    var ts, cwd := Timestamp(codec, Get(obj, "timestamp")), StringField(obj, "cwd");
    FlushIsState(codec, o, (if ts != 0 then st.(lastTs := ts) else st).(project := ProjectFromCwd(cwd)));
    hide Timestamp, ProjectFromCwd, FlushPending, Get, StringField;
  }

  lemma TitleRemembers(codec: Codec, o: Origin, st: State, obj: Fields, kind: string)
    ensures var s := ClaudeTitle(codec, o, st, obj, kind, true); s.lastTs == st.lastTs && s.taskCalls == st.taskCalls
  {
    hide TitleText, RawRecord;
  }

  lemma MessageRemembers(codec: Codec, o: Origin, st: State, obj: Fields, id: string)
    requires ClaudeTalks(obj)
    ensures var s := ClaudeMessage(codec, o, st, obj, true);
      s.lastTs == st.lastTs && (id in s.taskCalls <==> id in st.taskCalls || LineCalls(Object(obj), id))
  {
    var msg, ts := MapField(obj, "message"), Timestamp(codec, Get(obj, "timestamp"));
    var content := Get(msg, "content");
    if content.Arr? { PartsRemember(codec, o, st, obj, content.items, StringField(msg, "role"), ts, id); }
    hide Timestamp, Get, StringField, MapField, ContentText, IndexableMessage, ClaudeParts, PartCalls, RawRecord;
  }

  lemma NothingCalled(line: Line, id: string)
    requires line.Unreadable?
    ensures !LineCalls(line, id)
  {
  }

  // After any lines of a Claude log: the time of the last line that has one, and the tasks called.
  lemma {:induction false} RunRemembers(codec: Codec, o: Origin, key: string, lines: seq<Line>, id: string)
    requires o.harness == "claude"
    ensures var s := Run(codec, o, key, lines, true);
      && s.lastTs == LastStamp(codec, lines)
      && (id in s.taskCalls <==> exists i | 0 <= i < |lines| :: LineCalls(lines[i], id))
  {
    hide ClaudeStep, LineCalls, ProjectFromCwd;
    if lines != [] {
      var n := |lines| - 1;
      RunRemembers(codec, o, key, lines[..n], id);
      if lines[n].Object? {
        ClaudeRemembers(codec, o, Run(codec, o, key, lines[..n], true), lines[n].fields, id);
      } else {
        NothingCalled(lines[n], id);
      }
      assert forall i | 0 <= i < n :: lines[..n][i] == lines[i];
    }
  }

  // What line i notes, given the task calls of the lines before it, is kept.
  ghost predicate NotesKept(codec: Codec, o: Origin, key: string, lines: seq<Line>, i: nat, s: State)
    requires i < |lines|
  {
    forall note: Note | Notes(codec, o, lines[i], i + 1, Run(codec, o, key, lines[..i], true).taskCalls, note) ::
      Kept(codec, o, s, note)
  }

  // A parse with state rows, whatever the body: every row that is no message tells what some line
  // notes, and what a line notes is told by a row, or waits for a project that is never named.
  lemma {:induction false} StateRowsAreTold(codec: Codec, o: Origin, key: string, lines: seq<Line>)
    ensures var s := Run(codec, o, key, lines, true);
      && Sound(codec, o, lines, s) && SeenKept(codec, o, s)
      && forall i | 0 <= i < |lines| :: NotesKept(codec, o, key, lines, i, s)
  {
    hide Step, Sound, SeenKept, Keeps, Kept, Notes;
    if lines == [] {
      NothingNoted(codec, o, key);
    } else {
      var n := |lines| - 1;
      var before, s := Run(codec, o, key, lines[..n], true), Run(codec, o, key, lines, true);
      StateRowsAreTold(codec, o, key, lines[..n]);
      SoundMore(codec, o, lines[..n], lines, before, before);
      if o.harness == "claude" { RunRemembers(codec, o, key, lines[..n], ""); }
      LineIsKept(codec, o, lines, before);
      KeptStays(codec, o, before, s);
      forall i | 0 <= i < |lines|
        ensures NotesKept(codec, o, key, lines, i, s)
      {
        if i < n {
          assert lines[..n][..i] == lines[..i];
          assert NotesKept(codec, o, key, lines[..n], i, before);
        }
      }
    }
  }

  lemma NothingNoted(codec: Codec, o: Origin, key: string)
    ensures Sound(codec, o, [], Start(codec, o, key)) && SeenKept(codec, o, Start(codec, o, key))
  {
    hide ProjectFromCwd;
  }
}
