// Agent session logs, with and without the rows for titles, todos, tools and tasks
// (raw_parser.go).
module SessionParse {
  import opened Wrappers
  import opened Text
  import opened Records
  import opened ChunkIds
  import TP = TelegramParse

  datatype Json = Null | Bool(b: bool) | Num(n: real) | Str(s: string) | Arr(items: seq<Json>) | Obj(fields: Fields)

  type Fields = map<string, Json>

  // A line that is blank or no JSON object is unreadable.
  datatype Line = Unreadable | Object(fields: Fields)

  // What the parser takes from its libraries: scanning and decoding a body (which may
  // fail), JSON encoding, SHA-256, timestamps as text, and what an object's key says.
  datatype Codec = Codec(lines: string -> Option<seq<Line>>, telegram: string -> Option<seq<Option<TP.TelegramLine>>>,
                         json: Json -> string, hash: string -> string, time: string -> int, stem: string -> string,
                         grokCwd: string -> Option<string>, chat: TP.Codec)

  const SKIPPED_USER_PREFIXES: seq<string> := ["# AGENTS.md", "<permissions instructions>", "<INSTRUCTIONS>"]
  const SKIPPED_SESSION_PREFIX: string := "Summarize the relationship with \""
  const TOOL_COMMAND_RUNES: nat := 500
  const RAW_SOURCES: set<string> := {"pi", "codex", "omp", "claude", "grok", "grokbot", "telegram"}

  // ----- Fields -----

  function Get(m: Fields, key: string): Json { if key in m then m[key] else Null }

  function StringField(m: Fields, key: string): string {
    match Get(m, key) case Str(s) => s case _ => ""
  }

  function MapField(m: Fields, key: string): Fields {
    match Get(m, key) case Obj(f) => f case _ => map[]
  }

  function FirstValue(values: seq<Json>): Json {
    if values == [] then Null
    else if values[0] != Null && values[0] != Str("") then values[0]
    else FirstValue(values[1..])
  }

  function FirstStringField(m: Fields, keys: seq<string>): string {
    if keys == [] then ""
    else
      var value := TrimSpace(StringField(m, keys[0]));
      if value != "" then value else FirstStringField(m, keys[1..])
  }

  function Truncated(n: real): int { if n >= 0.0 then n.Floor else -(-n).Floor }

  function Timestamp(codec: Codec, v: Json): int {
    match v
    case Num(n) => if n > 10_000_000_000.0 then n.Floor / 1000 else Truncated(n)
    case Str(s) => if TrimSpace(s) == "" then 0 else codec.time(TrimSpace(s))
    case _ => 0
  }

  function PartTexts(parts: seq<Json>): seq<string> {
    if parts == [] then []
    else
      var text := if parts[0].Obj? && StringField(parts[0].fields, "type") !in {"thinking", "reasoning"}
                  then TrimSpace(StringField(parts[0].fields, "text")) else "";
      (if text != "" then [text] else []) + PartTexts(parts[1..])
  }

  function ContentText(v: Json): string {
    match v
    case Str(s) => TrimSpace(s)
    case Arr(parts) => Join(PartTexts(parts), "\n")
    case _ => ""
  }

  function CompactJson(codec: Codec, v: Json): string { if v.Null? then "" else codec.json(v) }

  function TitleText(m: Fields, source: string): string {
    var title := FirstStringField(m, ["title", "name", "summary", "aiTitle", "customTitle"]);
    if title == "" then "" else "TITLE " + source + ": " + title
  }

  function ToolResultText(codec: Codec, m: Fields, toolName: string): string {
    var text := ValueOr(ContentText(Get(m, "content")),
                        CompactJson(codec, FirstValue([Get(m, "details"), Get(m, "data"), Get(m, "result")])));
    if text == "" then "" else "TOOL " + toolName + " RESULT:\n" + text
  }

  function BashToolText(input: Fields): string {
    var description, command := TrimSpace(StringField(input, "description")), TrimSpace(StringField(input, "command"));
    if command == "" || description == "" then ""
    else
      var shown := if |command| > TOOL_COMMAND_RUNES then command[..TOOL_COMMAND_RUNES] + "…" else command;
      "Ran: " + description + "\n$ " + shown
  }

  function TodoState(codec: Codec, candidates: seq<Json>): string {
    if candidates == [] then ""
    else
      var state := if candidates[0].Obj? then
                     var f := candidates[0].fields;
                     FirstValue([Get(f, "phases"), Get(f, "items"), Get(f, "todos"), Get(f, "tasks")])
                   else Null;
      ValueOr(CompactJson(codec, state), TodoState(codec, candidates[1..]))
  }

  function TodoText(codec: Codec, m: Fields, source: string): string {
    var text := ValueOr(TodoState(codec, [Get(m, "details"), Get(m, "data"), Obj(m)]),
                        ValueOr(CompactJson(codec, FirstValue([Get(m, "details"), Get(m, "data")])),
                                ContentText(Get(m, "content"))));
    if text == "" then "" else "TODO " + source + ":\n" + text
  }

  predicate IndexableMessage(role: string, text: string) {
    && (role == "user" || role == "assistant") && Utf8Length(text) >= 8
    && (role == "user" ==>
        !exists i | 0 <= i < |SKIPPED_USER_PREFIXES| ::
          HasPrefix(TrimLeftOf(text, {' ', '\t', '\r', '\n'}), SKIPPED_USER_PREFIXES[i]))
  }

  function ProjectFromCwd(cwd: string): string {
    var name := AfterLastSlash(TrimRightOf(cwd, '/'));
    if TrimSpace(cwd) == "" || name == "." || name == "" then "unknown" else name
  }

  // ----- Rows -----

  // Where a row comes from.
  datatype Origin = Origin(host: string, harness: string)

  function RawRecord(codec: Codec, o: Origin, sessionId: string, turnId: string, role: string, text: string,
                     timestamp: int, project: string, kind: string): MemoryItem {
    var session := o.host + "/" + o.harness + "/" + sessionId + "/";
    MemoryItem(if kind != "message" then session + kind + "/" + turnId else session + turnId, [], text,
               Metadata(o.harness, o.host, sessionId, "agent_session", "", project, role, "", kind, "",
                        if timestamp == 0 then 1 else timestamp, "", codec.hash(text), "", 0, 0))
  }

  // A title seen before the session's project is known.
  datatype Pending = Pending(id: string, text: string, timestamp: int)

  // The variables of the parsing loop.
  datatype State = State(sessionId: string, project: string, seen: set<string>, items: seq<MemoryItem>,
                         pending: seq<Pending>, lastTs: int, taskCalls: set<string>)

  function Short(hash: string): (short: string)
    ensures short <= hash && |short| == Min(|hash|, 16)
  {
    if |hash| > 16 then hash[..16] else hash
  }

  function LineId(n: nat): string { "line-" + Itoa(n) }

  function Add(codec: Codec, o: Origin, st: State, turnId: string, role: string, text: string, timestamp: int,
               kind: string): State {
    st.(items := st.items + [RawRecord(codec, o, st.sessionId, turnId, role, text, timestamp, st.project, kind)])
  }

  function AddText(codec: Codec, o: Origin, st: State, turnId: string, role: string, text: string, timestamp: int,
                   kind: string): State {
    if text == "" then st else Add(codec, o, st, turnId, role, text, timestamp, kind)
  }

  // Writes the titles that waited for the project.
  function FlushPending(codec: Codec, o: Origin, st: State): State
    decreases |st.pending|
  {
    if st.pending == [] then st
    else
      var p := st.pending[0];
      FlushPending(codec, o,
                   Add(codec, o, st, p.id, "system", p.text, p.timestamp, "title").(pending := st.pending[1..]))
  }

  function AddTitle(codec: Codec, o: Origin, st: State, id: string, text: string, timestamp: int): State {
    if st.project == "unknown" then st.(pending := st.pending + [Pending(id, text, timestamp)])
    else Add(codec, o, st, id, "system", text, timestamp, "title")
  }

  // ----- One line of each harness -----

  function GrokStep(codec: Codec, o: Origin, st: State, obj: Fields, lineNo: nat): State {
    var params := MapField(obj, "params");
    var update, meta := MapField(params, "update"), MapField(params, "_meta");
    var chunk := StringField(update, "sessionUpdate");
    var role :=
      if chunk == "user_message_chunk" then "user" else if chunk == "agent_message_chunk" then "assistant" else "";
    var text := TrimSpace(StringField(MapField(update, "content"), "text"));
    if StringField(obj, "method") != "session/update" || role == "" || HasPrefix(text, "<runtime_info>")
      || !IndexableMessage(role, text)
    then st
    else
      var st1 := st.(sessionId := ValueOr(StringField(params, "sessionId"), st.sessionId));
      Add(codec, o, st1, ValueOr(StringField(meta, "eventId"), LineId(lineNo)), role, text,
          Timestamp(codec, FirstValue([Get(meta, "agentTimestampMs"), Get(obj, "timestamp")])), "message")
  }

  // The state rows of one part of a Claude message.
  function ClaudePart(codec: Codec, o: Origin, st: State, obj: Fields, part: Fields, role: string, ts: int): State {
    var kind := StringField(part, "type");
    if kind == "tool_use" then
      var name, id, input := StringField(part, "name"), StringField(part, "id"), MapField(part, "input");
      if name == "TodoWrite" then AddText(codec, o, st, id, role, TodoText(codec, input, "TodoWrite"), ts, "todo")
      else if name == "Agent" || name == "Task" then st.(taskCalls := st.taskCalls + {id})
      else if name == "Bash" then AddText(codec, o, st, id, role, BashToolText(input), ts, "tool")
      else st
    else if kind == "tool_result" then
      var id := StringField(part, "tool_use_id");
      if id !in st.taskCalls || Get(MapField(obj, "toolUseResult"), "isAsync") == Bool(true) then st
      else AddText(codec, o, st, id, "toolResult", ToolResultText(codec, part, "task"), ts, "task")
    else st
  }

  function ClaudeParts(codec: Codec, o: Origin, st: State, obj: Fields, parts: seq<Json>, role: string, ts: int): State
    decreases |parts|
  {
    if parts == [] then st
    else
      var part := match parts[0] case Obj(f) => f case _ => map[];
      ClaudeParts(codec, o, ClaudePart(codec, o, st, obj, part, role, ts), obj, parts[1..], role, ts)
  }

  function ClaudeMessage(codec: Codec, o: Origin, st: State, obj: Fields, includeState: bool): State {
    var msg := MapField(obj, "message");
    var role, ts := StringField(msg, "role"), Timestamp(codec, Get(obj, "timestamp"));
    var content := Get(msg, "content");
    var st1 := if content.Arr? && includeState then ClaudeParts(codec, o, st, obj, content.items, role, ts) else st;
    var text, uuid := ContentText(content), StringField(obj, "uuid");
    if !IndexableMessage(role, text) || uuid == "" || HasPrefix(text, "<local-command-stdout>") then st1
    else Add(codec, o, st1, uuid, role, text, ts, "message")
  }

  function ClaudeTitle(codec: Codec, o: Origin, st: State, obj: Fields, kind: string, includeState: bool): State {
    var text := TitleText(obj, kind);
    if !includeState || text == "" || text in st.seen then st
    else AddTitle(codec, o, st.(seen := st.seen + {text}), "title-" + Short(codec.hash(text)), text, st.lastTs)
  }

  function ClaudeStep(codec: Codec, o: Origin, st: State, obj: Fields, includeState: bool): State {
    var ts := Timestamp(codec, Get(obj, "timestamp"));
    var timed := if ts != 0 then st.(lastTs := ts) else st;
    var cwd := StringField(obj, "cwd");
    var placed := if timed.project == "unknown" && cwd != ""
                  then FlushPending(codec, o, timed.(project := ProjectFromCwd(cwd))) else timed;
    var kind := StringField(obj, "type");
    if kind in {"ai-title", "custom-title", "summary"} then ClaudeTitle(codec, o, placed, obj, kind, includeState)
    else if kind in {"user", "assistant"} && Get(obj, "isMeta") != Bool(true)
      then ClaudeMessage(codec, o, placed, obj, includeState)
    else placed
  }

  function PiMessage(codec: Codec, o: Origin, st: State, obj: Fields, entryId: string, includeState: bool): State {
    var msg := MapField(obj, "message");
    var role := StringField(msg, "role");
    var ts := Timestamp(codec, FirstValue([Get(obj, "timestamp"), Get(msg, "timestamp")]));
    if includeState && role == "toolResult" then
      var tool := StringField(msg, "toolName");
      if tool == "todo" then AddText(codec, o, st, entryId, role, TodoText(codec, msg, "todo"), ts, "todo")
      else if tool == "task" then AddText(codec, o, st, entryId, role, ToolResultText(codec, msg, "task"), ts, "task")
      else st
    else
      var text := ContentText(Get(msg, "content"));
      if !IndexableMessage(role, text) || entryId == "" then st
      else Add(codec, o, st, entryId, role, text, ts, "message")
  }

  function PiStep(codec: Codec, o: Origin, st: State, obj: Fields, lineNo: nat, includeState: bool): State {
    var entryId := ValueOr(StringField(obj, "id"), LineId(lineNo));
    var updated := Timestamp(codec, FirstValue([Get(obj, "updatedAt"), Get(obj, "timestamp")]));
    var kind := StringField(obj, "type");
    if kind == "session" then
      var named :=
        st.(sessionId := ValueOr(StringField(obj, "id"), st.sessionId),
            project := ProjectFromCwd(StringField(obj, "cwd")));
      var flushed := FlushPending(codec, o, named);
      if includeState
        then AddText(codec, o, flushed, entryId + "-session", "system", TitleText(obj, "session"), updated, "title")
      else flushed
    else if kind == "title" || kind == "title_change" then
      var text := TitleText(obj, kind);
      if includeState && text != "" then AddTitle(codec, o, st, entryId, text, updated) else st
    else if kind == "custom" then
      if includeState && StringField(obj, "customType") == "user_todo_edit" then
        AddText(codec, o, st, entryId, "user_todo_edit", TodoText(codec, obj, "user_todo_edit"),
                Timestamp(codec, Get(obj, "timestamp")), "todo")
      else st
    else if kind == "message" then PiMessage(codec, o, st, obj, entryId, includeState)
    else st
  }

  function CodexStep(codec: Codec, o: Origin, st: State, obj: Fields, lineNo: nat, includeState: bool): State
    requires lineNo > 0
  {
    var payload := MapField(obj, "payload");
    var ts := Timestamp(codec, Get(obj, "timestamp"));
    if StringField(obj, "type") == "session_meta" then
      var named := st.(sessionId := ValueOr(StringField(payload, "id"), st.sessionId),
                       project := ProjectFromCwd(StringField(payload, "cwd")));
      if includeState then
        AddText(codec, o, named, StringField(payload, "id") + "-session", "system", TitleText(payload, "session"), ts,
                "title")
      else named
    else if StringField(obj, "type") != "response_item" || StringField(payload, "type") != "message" then st
    else
      var role, text := StringField(payload, "role"), ContentText(Get(payload, "content"));
      var sourceId := TrimSpace(StringField(payload, "id"));
      var key := ValueOr(sourceId, "legacy-" + Short(codec.hash(text)));
      if !IndexableMessage(role, text) || key in st.seen then st
      else
        Add(codec, o, st.(seen := st.seen + {key}), ValueOr(sourceId, LineId(lineNo - 1)), role, text, ts, "message")
  }

  function Step(codec: Codec, o: Origin, st: State, line: Line, lineNo: nat, includeState: bool): State
    requires lineNo > 0
  {
    match line
    case Unreadable => st
    case Object(obj) =>
      if o.harness == "grok" then GrokStep(codec, o, st, obj, lineNo)
      else if o.harness == "claude" then ClaudeStep(codec, o, st, obj, includeState)
      else if o.harness in {"pi", "omp", "grokbot"} then PiStep(codec, o, st, obj, lineNo, includeState)
      else CodexStep(codec, o, st, obj, lineNo, includeState)
  }

  function Start(codec: Codec, o: Origin, key: string): State {
    var cwd := codec.grokCwd(key);
    State(codec.stem(key), if o.harness == "grok" && cwd.Some? then ProjectFromCwd(cwd.value) else "unknown", {}, [],
          [], 0, {})
  }

  // The state after some lines.
  function Run(codec: Codec, o: Origin, key: string, lines: seq<Line>, includeState: bool): State {
    if lines == [] then Start(codec, o, key)
    else
      Step(codec, o, Run(codec, o, key, lines[..|lines| - 1], includeState), lines[|lines| - 1], |lines|, includeState)
  }

  // ----- State rows change nothing else -----

  // The rows of kind "message", in order.
  function Messages(items: seq<MemoryItem>): (r: seq<MemoryItem>)
    ensures forall x | x in r :: x.metadata.kind == "message"
  {
    if items == [] then []
    else
      var before := Messages(items[..|items| - 1]);
      if items[|items| - 1].metadata.kind == "message" then before + [items[|items| - 1]] else before
  }

  lemma MessagesSnoc(items: seq<MemoryItem>, x: MemoryItem)
    ensures Messages(items + [x]) == if x.metadata.kind == "message" then Messages(items) + [x] else Messages(items)
  {
    assert (items + [x])[..|items|] == items;
  }

  // A run with state rows, beside one without: they differ in titles waiting, titles seen,
  // task calls and rows of other kinds.
  ghost predicate Agree(harness: string, a: State, b: State) {
    && a.sessionId == b.sessionId && a.project == b.project && a.lastTs == b.lastTs
    && Messages(a.items) == b.items && b.pending == []
    && (harness != "claude" ==> a.seen == b.seen)
  }

  // A step that adds only rows of other kinds.
  ghost predicate OnlyState(a: State, a': State) {
    && a'.sessionId == a.sessionId && a'.project == a.project && a'.lastTs == a.lastTs && a'.seen == a.seen
    && Messages(a'.items) == Messages(a.items)
  }

  lemma AddIsState(codec: Codec, o: Origin, st: State, turnId: string, role: string, text: string, ts: int,
                   kind: string)
    requires kind != "message"
    ensures OnlyState(st, Add(codec, o, st, turnId, role, text, ts, kind))
    ensures OnlyState(st, AddText(codec, o, st, turnId, role, text, ts, kind))
  {
    MessagesSnoc(st.items, RawRecord(codec, o, st.sessionId, turnId, role, text, ts, st.project, kind));
  }

  lemma AddMessage(codec: Codec, o: Origin, a: State, b: State, turnId: string, role: string, text: string, ts: int)
    requires Agree(o.harness, a, b)
    ensures Agree(o.harness, Add(codec, o, a, turnId, role, text, ts, "message"),
                  Add(codec, o, b, turnId, role, text, ts, "message"))
  {
    MessagesSnoc(a.items, RawRecord(codec, o, a.sessionId, turnId, role, text, ts, a.project, "message"));
  }

  lemma {:induction false} FlushIsState(codec: Codec, o: Origin, st: State)
    ensures OnlyState(st, FlushPending(codec, o, st)) && FlushPending(codec, o, st).taskCalls == st.taskCalls
    ensures st.pending == [] ==> FlushPending(codec, o, st) == st
    decreases |st.pending|
  {
    if st.pending != [] {
      var p := st.pending[0];
      AddIsState(codec, o, st, p.id, "system", p.text, p.timestamp, "title");
      FlushIsState(codec, o,
                   Add(codec, o, st, p.id, "system", p.text, p.timestamp, "title").(pending := st.pending[1..]));
    }
  }

  lemma AddTitleIsState(codec: Codec, o: Origin, st: State, id: string, text: string, ts: int)
    ensures OnlyState(st, AddTitle(codec, o, st, id, text, ts))
  {
    AddIsState(codec, o, st, id, "system", text, ts, "title");
  }

  lemma PartIsState(codec: Codec, o: Origin, st: State, obj: Fields, part: Fields, role: string, ts: int)
    ensures OnlyState(st, ClaudePart(codec, o, st, obj, part, role, ts))
  {
    hide AddText, TodoText, BashToolText, ToolResultText;
    var id, input := StringField(part, "id"), MapField(part, "input");
    AddIsState(codec, o, st, id, role, TodoText(codec, input, "TodoWrite"), ts, "todo");
    AddIsState(codec, o, st, id, role, BashToolText(input), ts, "tool");
    AddIsState(codec, o, st, StringField(part, "tool_use_id"), "toolResult", ToolResultText(codec, part, "task"), ts,
               "task");
  }

  lemma {:induction false} PartsAreState(codec: Codec, o: Origin, st: State, obj: Fields, parts: seq<Json>,
                                         role: string, ts: int)
    ensures OnlyState(st, ClaudeParts(codec, o, st, obj, parts, role, ts))
    decreases |parts|
  {
    if parts != [] {
      var part := match parts[0] case Obj(f) => f case _ => map[];
      PartIsState(codec, o, st, obj, part, role, ts);
      PartsAreState(codec, o, ClaudePart(codec, o, st, obj, part, role, ts), obj, parts[1..], role, ts);
      hide ClaudePart;
    }
  }

  lemma ClaudeMessagesAgree(codec: Codec, o: Origin, a: State, b: State, obj: Fields)
    requires Agree(o.harness, a, b) && o.harness == "claude"
    ensures Agree(o.harness, ClaudeMessage(codec, o, a, obj, true), ClaudeMessage(codec, o, b, obj, false))
  {
    var msg := MapField(obj, "message");
    var role, ts := StringField(msg, "role"), Timestamp(codec, Get(obj, "timestamp"));
    var content := Get(msg, "content");
    var a1 := if content.Arr? then ClaudeParts(codec, o, a, obj, content.items, role, ts) else a;
    if content.Arr? { PartsAreState(codec, o, a, obj, content.items, role, ts); }
    hide ClaudeParts, Timestamp, Messages, IndexableMessage, ContentText, Add;
    AddMessage(codec, o, a1, b, StringField(obj, "uuid"), role, ContentText(content), ts);
  }

  lemma ClaudeAgrees(codec: Codec, o: Origin, a: State, b: State, obj: Fields)
    requires Agree(o.harness, a, b) && o.harness == "claude"
    ensures Agree(o.harness, ClaudeStep(codec, o, a, obj, true), ClaudeStep(codec, o, b, obj, false))
  {
    hide Messages, Timestamp, ClaudeMessage, FlushPending, AddTitle, TitleText;
    var ts, cwd := Timestamp(codec, Get(obj, "timestamp")), StringField(obj, "cwd");
    var at, bt := if ts != 0 then a.(lastTs := ts) else a, if ts != 0 then b.(lastTs := ts) else b;
    var project := ProjectFromCwd(cwd);
    FlushIsState(codec, o, at.(project := project));
    FlushIsState(codec, o, bt.(project := project));
    var placed := at.project == "unknown" && cwd != "";
    var ap, bp := if placed then FlushPending(codec, o, at.(project := project)) else at,
                  if placed then FlushPending(codec, o, bt.(project := project)) else bt;
    assert Agree(o.harness, ap, bp);
    ClaudeMessagesAgree(codec, o, ap, bp, obj);
    var kind := StringField(obj, "type");
    var text := TitleText(obj, kind);
    AddTitleIsState(codec, o, ap.(seen := ap.seen + {text}), "title-" + Short(codec.hash(text)), text, ap.lastTs);
  }

  lemma PiMessagesAgree(codec: Codec, o: Origin, a: State, b: State, obj: Fields, entryId: string)
    requires Agree(o.harness, a, b)
    ensures Agree(o.harness, PiMessage(codec, o, a, obj, entryId, true), PiMessage(codec, o, b, obj, entryId, false))
  {
    hide Messages, Timestamp, Add, AddText, TodoText, ToolResultText, ContentText, Utf8Length;
    var msg := MapField(obj, "message");
    var role := StringField(msg, "role");
    var ts := Timestamp(codec, FirstValue([Get(obj, "timestamp"), Get(msg, "timestamp")]));
    AddIsState(codec, o, a, entryId, role, TodoText(codec, msg, "todo"), ts, "todo");
    AddIsState(codec, o, a, entryId, role, ToolResultText(codec, msg, "task"), ts, "task");
    AddTextKeeps(codec, o, a, entryId, role, TodoText(codec, msg, "todo"), ts, "todo");
    AddMessage(codec, o, a, b, entryId, role, ContentText(Get(msg, "content")), ts);
  }

  lemma AddTextKeeps(codec: Codec, o: Origin, st: State, turnId: string, role: string, text: string, ts: int,
                     kind: string)
    ensures AddText(codec, o, st, turnId, role, text, ts, kind).pending == st.pending
  {
  }

  lemma PiAgrees(codec: Codec, o: Origin, a: State, b: State, obj: Fields, lineNo: nat)
    requires Agree(o.harness, a, b)
    ensures Agree(o.harness, PiStep(codec, o, a, obj, lineNo, true), PiStep(codec, o, b, obj, lineNo, false))
  {
    hide Messages, Timestamp, PiMessage, FlushPending, Add, AddText, AddTitle, TitleText, TodoText, ProjectFromCwd;
    var entryId := ValueOr(StringField(obj, "id"), LineId(lineNo));
    var updated := Timestamp(codec, FirstValue([Get(obj, "updatedAt"), Get(obj, "timestamp")]));
    var kind := StringField(obj, "type");
    var id, project := ValueOr(StringField(obj, "id"), a.sessionId), ProjectFromCwd(StringField(obj, "cwd"));
    var an, bn := a.(sessionId := id, project := project), b.(sessionId := id, project := project);
    FlushIsState(codec, o, an);
    FlushIsState(codec, o, bn);
    AddIsState(codec, o, FlushPending(codec, o, an), entryId + "-session", "system", TitleText(obj, "session"),
               updated, "title");
    AddTitleIsState(codec, o, a, entryId, TitleText(obj, kind), updated);
    AddIsState(codec, o, a, entryId, "user_todo_edit", TodoText(codec, obj, "user_todo_edit"),
               Timestamp(codec, Get(obj, "timestamp")), "todo");
    PiMessagesAgree(codec, o, a, b, obj, entryId);
  }

  lemma CodexAgrees(codec: Codec, o: Origin, a: State, b: State, obj: Fields, lineNo: nat)
    requires Agree(o.harness, a, b) && o.harness != "claude" && lineNo > 0
    ensures Agree(o.harness, CodexStep(codec, o, a, obj, lineNo, true), CodexStep(codec, o, b, obj, lineNo, false))
  {
    hide Messages, Timestamp, Add, AddText, TitleText, ProjectFromCwd, ContentText, IndexableMessage;
    var payload := MapField(obj, "payload");
    var ts := Timestamp(codec, Get(obj, "timestamp"));
    var id, project := ValueOr(StringField(payload, "id"), a.sessionId), ProjectFromCwd(StringField(payload, "cwd"));
    var named := a.(sessionId := id, project := project);
    AddIsState(codec, o, named, StringField(payload, "id") + "-session", "system", TitleText(payload, "session"), ts,
               "title");
    var role, text := StringField(payload, "role"), ContentText(Get(payload, "content"));
    var sourceId := TrimSpace(StringField(payload, "id"));
    var key := ValueOr(sourceId, "legacy-" + Short(codec.hash(text)));
    AddMessage(codec, o, a.(seen := a.seen + {key}), b.(seen := b.seen + {key}), ValueOr(sourceId, LineId(lineNo - 1)),
               role, text, ts);
  }

  lemma GrokAgrees(codec: Codec, o: Origin, a: State, b: State, obj: Fields, lineNo: nat)
    requires Agree(o.harness, a, b)
    ensures Agree(o.harness, GrokStep(codec, o, a, obj, lineNo), GrokStep(codec, o, b, obj, lineNo))
  {
    hide Messages, Timestamp, Add, IndexableMessage;
    var params := MapField(obj, "params");
    var update, meta := MapField(params, "update"), MapField(params, "_meta");
    var chunk := StringField(update, "sessionUpdate");
    var role :=
      if chunk == "user_message_chunk" then "user" else if chunk == "agent_message_chunk" then "assistant" else "";
    var id := ValueOr(StringField(params, "sessionId"), a.sessionId);
    AddMessage(codec, o, a.(sessionId := id), b.(sessionId := id),
               ValueOr(StringField(meta, "eventId"), LineId(lineNo)), role,
               TrimSpace(StringField(MapField(update, "content"), "text")),
               Timestamp(codec, FirstValue([Get(meta, "agentTimestampMs"), Get(obj, "timestamp")])));
  }

  lemma {:induction false} RunsAgree(codec: Codec, o: Origin, key: string, lines: seq<Line>)
    ensures Agree(o.harness, Run(codec, o, key, lines, true), Run(codec, o, key, lines, false))
  {
    if lines != [] {
      var n := |lines| - 1;
      RunsAgree(codec, o, key, lines[..n]);
      var a, b := Run(codec, o, key, lines[..n], true), Run(codec, o, key, lines[..n], false);
      hide Agree, GrokStep, ClaudeStep, PiStep, CodexStep;
      if lines[n].Object? {
        var obj := lines[n].fields;
        if o.harness == "grok" { GrokAgrees(codec, o, a, b, obj, n + 1); }
        else if o.harness == "claude" { ClaudeAgrees(codec, o, a, b, obj); }
        else if o.harness in {"pi", "omp", "grokbot"} { PiAgrees(codec, o, a, b, obj, n + 1); }
        else { CodexAgrees(codec, o, a, b, obj, n + 1); }
      }
    }
  }

  // ----- What every row is -----

  // A row's id says which host, harness and session it is from, its hash covers its text,
  // its time is not zero, and the text of a message is worth indexing.
  ghost predicate WellMade(codec: Codec, o: Origin, x: MemoryItem) {
    var m := x.metadata;
    && m.source == o.harness && m.host == o.host && m.containerKind == "agent_session"
    && m.contentHash == codec.hash(x.text) && m.timestamp != 0 && x.text != ""
    && (o.host + "/" + o.harness + "/" + m.containerId + "/" + (if m.kind == "message" then "" else m.kind + "/")) <=
      x.id
    && (m.kind == "message" ==> IndexableMessage(m.authorId, x.text))
  }

  ghost predicate AllWellMade(codec: Codec, o: Origin, st: State) {
    && (forall x | x in st.items :: WellMade(codec, o, x))
    && (forall p | p in st.pending :: p.text != "")
  }

  lemma RecordWellMade(codec: Codec, o: Origin, sessionId: string, turnId: string, role: string, text: string, ts: int,
                       project: string, kind: string)
    requires text != "" && (kind == "message" ==> IndexableMessage(role, text))
    ensures WellMade(codec, o, RawRecord(codec, o, sessionId, turnId, role, text, ts, project, kind))
  {
    hide IndexableMessage;
    var session := o.host + "/" + o.harness + "/" + sessionId + "/";
    assert session + "" == session;
    assert session + kind + "/" + turnId == (session + (kind + "/")) + turnId;
  }

  lemma AddWellMade(codec: Codec, o: Origin, st: State, turnId: string, role: string, text: string, ts: int,
                    kind: string)
    requires AllWellMade(codec, o, st) && (kind == "message" ==> IndexableMessage(role, text))
    ensures text != "" ==> AllWellMade(codec, o, Add(codec, o, st, turnId, role, text, ts, kind))
    ensures AllWellMade(codec, o, AddText(codec, o, st, turnId, role, text, ts, kind))
  {
    if text != "" { RecordWellMade(codec, o, st.sessionId, turnId, role, text, ts, st.project, kind); }
    hide WellMade, IndexableMessage, RawRecord;
  }

  lemma IndexableNotEmpty(role: string, text: string)
    ensures IndexableMessage(role, text) ==> text != ""
  {
  }

  lemma {:induction false} FlushWellMade(codec: Codec, o: Origin, st: State)
    requires AllWellMade(codec, o, st)
    ensures AllWellMade(codec, o, FlushPending(codec, o, st))
    decreases |st.pending|
  {
    if st.pending != [] {
      var p := st.pending[0];
      AddWellMade(codec, o, st, p.id, "system", p.text, p.timestamp, "title");
      hide WellMade;
      FlushWellMade(codec, o,
                    Add(codec, o, st, p.id, "system", p.text, p.timestamp, "title").(pending := st.pending[1..]));
    }
  }

  lemma AddTitleWellMade(codec: Codec, o: Origin, st: State, id: string, text: string, ts: int)
    requires AllWellMade(codec, o, st) && text != ""
    ensures AllWellMade(codec, o, AddTitle(codec, o, st, id, text, ts))
  {
    AddWellMade(codec, o, st, id, "system", text, ts, "title");
    hide WellMade, Add;
  }

  lemma {:induction false} PartsWellMade(codec: Codec, o: Origin, st: State, obj: Fields, parts: seq<Json>,
                                         role: string, ts: int)
    requires AllWellMade(codec, o, st)
    ensures AllWellMade(codec, o, ClaudeParts(codec, o, st, obj, parts, role, ts))
    decreases |parts|
  {
    if parts != [] {
      var part := match parts[0] case Obj(f) => f case _ => map[];
      PartWellMade(codec, o, st, obj, part, role, ts);
      hide ClaudePart, WellMade;
      PartsWellMade(codec, o, ClaudePart(codec, o, st, obj, part, role, ts), obj, parts[1..], role, ts);
    }
  }

  lemma PartWellMade(codec: Codec, o: Origin, st: State, obj: Fields, part: Fields, role: string, ts: int)
    requires AllWellMade(codec, o, st)
    ensures AllWellMade(codec, o, ClaudePart(codec, o, st, obj, part, role, ts))
  {
    hide AddText, TodoText, BashToolText, ToolResultText, WellMade;
    var id, input := StringField(part, "id"), MapField(part, "input");
    AddWellMade(codec, o, st, id, role, TodoText(codec, input, "TodoWrite"), ts, "todo");
    AddWellMade(codec, o, st, id, role, BashToolText(input), ts, "tool");
    AddWellMade(codec, o, st, StringField(part, "tool_use_id"), "toolResult", ToolResultText(codec, part, "task"), ts,
                "task");
  }

  lemma ClaudeMessageWellMade(codec: Codec, o: Origin, st: State, obj: Fields, includeState: bool)
    requires AllWellMade(codec, o, st)
    ensures AllWellMade(codec, o, ClaudeMessage(codec, o, st, obj, includeState))
  {
    hide Timestamp, ClaudeParts, Add, IndexableMessage, ContentText, WellMade;
    var ts, msg := Timestamp(codec, Get(obj, "timestamp")), MapField(obj, "message");
    var role, content := StringField(msg, "role"), Get(msg, "content");
    if content.Arr? { PartsWellMade(codec, o, st, obj, content.items, role, ts); }
    var st1 := if content.Arr? && includeState then ClaudeParts(codec, o, st, obj, content.items, role, ts) else st;
    IndexableNotEmpty(role, ContentText(content));
    if IndexableMessage(role, ContentText(content)) {
      AddWellMade(codec, o, st1, StringField(obj, "uuid"), role, ContentText(content), ts, "message");
    }
  }

  lemma ClaudeWellMade(codec: Codec, o: Origin, st: State, obj: Fields, includeState: bool)
    requires AllWellMade(codec, o, st)
    ensures AllWellMade(codec, o, ClaudeStep(codec, o, st, obj, includeState))
  {
    hide Timestamp, ClaudeMessage, FlushPending, AddTitle, TitleText, WellMade;
    var ts, cwd := Timestamp(codec, Get(obj, "timestamp")), StringField(obj, "cwd");
    var timed := if ts != 0 then st.(lastTs := ts) else st;
    FlushWellMade(codec, o, timed.(project := ProjectFromCwd(cwd)));
    var placed :=
      if timed.project == "unknown" && cwd != "" then FlushPending(codec, o, timed.(project := ProjectFromCwd(cwd)))
      else timed;
    var kind := StringField(obj, "type");
    var title := TitleText(obj, kind);
    if title != "" {
      AddTitleWellMade(codec, o, placed.(seen := placed.seen + {title}), "title-" + Short(codec.hash(title)), title,
                       placed.lastTs);
    }
    ClaudeMessageWellMade(codec, o, placed, obj, includeState);
  }

  lemma PiMessageWellMade(codec: Codec, o: Origin, st: State, obj: Fields, entryId: string, includeState: bool)
    requires AllWellMade(codec, o, st)
    ensures AllWellMade(codec, o, PiMessage(codec, o, st, obj, entryId, includeState))
  {
    hide Timestamp, Add, AddText, TodoText, ToolResultText, IndexableMessage, ContentText, WellMade;
    var msg := MapField(obj, "message");
    var role, text := StringField(msg, "role"), ContentText(Get(msg, "content"));
    var ts := Timestamp(codec, FirstValue([Get(obj, "timestamp"), Get(msg, "timestamp")]));
    AddWellMade(codec, o, st, entryId, role, TodoText(codec, msg, "todo"), ts, "todo");
    AddWellMade(codec, o, st, entryId, role, ToolResultText(codec, msg, "task"), ts, "task");
    IndexableNotEmpty(role, text);
    if IndexableMessage(role, text) { AddWellMade(codec, o, st, entryId, role, text, ts, "message"); }
  }

  lemma PiWellMade(codec: Codec, o: Origin, st: State, obj: Fields, lineNo: nat, includeState: bool)
    requires AllWellMade(codec, o, st)
    ensures AllWellMade(codec, o, PiStep(codec, o, st, obj, lineNo, includeState))
  {
    hide Timestamp, PiMessage, FlushPending, Add, AddText, AddTitle, TitleText, TodoText, ProjectFromCwd, WellMade;
    var entryId := ValueOr(StringField(obj, "id"), LineId(lineNo));
    var updated := Timestamp(codec, FirstValue([Get(obj, "updatedAt"), Get(obj, "timestamp")]));
    var kind := StringField(obj, "type");
    var named :=
      st.(sessionId := ValueOr(StringField(obj, "id"), st.sessionId),
          project := ProjectFromCwd(StringField(obj, "cwd")));
    FlushWellMade(codec, o, named);
    AddWellMade(codec, o, FlushPending(codec, o, named), entryId + "-session", "system", TitleText(obj, "session"),
                updated, "title");
    var title := TitleText(obj, kind);
    if title != "" { AddTitleWellMade(codec, o, st, entryId, title, updated); }
    AddWellMade(codec, o, st, entryId, "user_todo_edit", TodoText(codec, obj, "user_todo_edit"),
                Timestamp(codec, Get(obj, "timestamp")), "todo");
    PiMessageWellMade(codec, o, st, obj, entryId, includeState);
  }

  lemma CodexWellMade(codec: Codec, o: Origin, st: State, obj: Fields, lineNo: nat, includeState: bool)
    requires AllWellMade(codec, o, st) && lineNo > 0
    ensures AllWellMade(codec, o, CodexStep(codec, o, st, obj, lineNo, includeState))
  {
    hide Timestamp, Add, AddText, TitleText, ProjectFromCwd, ContentText, IndexableMessage, WellMade;
    var payload := MapField(obj, "payload");
    var ts := Timestamp(codec, Get(obj, "timestamp"));
    var named :=
      st.(sessionId := ValueOr(StringField(payload, "id"), st.sessionId),
          project := ProjectFromCwd(StringField(payload, "cwd")));
    AddWellMade(codec, o, named, StringField(payload, "id") + "-session", "system", TitleText(payload, "session"), ts,
                "title");
    var role, text := StringField(payload, "role"), ContentText(Get(payload, "content"));
    var sourceId := TrimSpace(StringField(payload, "id"));
    var key := ValueOr(sourceId, "legacy-" + Short(codec.hash(text)));
    IndexableNotEmpty(role, text);
    if IndexableMessage(role, text) {
      AddWellMade(codec, o, st.(seen := st.seen + {key}), ValueOr(sourceId, LineId(lineNo - 1)), role, text, ts,
                  "message");
    }
  }

  lemma GrokWellMade(codec: Codec, o: Origin, st: State, obj: Fields, lineNo: nat)
    requires AllWellMade(codec, o, st)
    ensures AllWellMade(codec, o, GrokStep(codec, o, st, obj, lineNo))
  {
    hide Timestamp, Add, IndexableMessage, WellMade;
    var params := MapField(obj, "params");
    var update, meta := MapField(params, "update"), MapField(params, "_meta");
    var chunk := StringField(update, "sessionUpdate");
    var role :=
      if chunk == "user_message_chunk" then "user" else if chunk == "agent_message_chunk" then "assistant" else "";
    var text := TrimSpace(StringField(MapField(update, "content"), "text"));
    IndexableNotEmpty(role, text);
    if IndexableMessage(role, text) {
      AddWellMade(codec, o, st.(sessionId := ValueOr(StringField(params, "sessionId"), st.sessionId)),
                  ValueOr(StringField(meta, "eventId"), LineId(lineNo)), role, text,
                  Timestamp(codec, FirstValue([Get(meta, "agentTimestampMs"), Get(obj, "timestamp")])), "message");
    }
  }

  // Every row of every parse is well made, whatever the body holds.
  lemma {:induction false} RowsAreWellMade(codec: Codec, o: Origin, key: string, lines: seq<Line>, includeState: bool)
    ensures AllWellMade(codec, o, Run(codec, o, key, lines, includeState))
  {
    if lines != [] {
      var n := |lines| - 1;
      RowsAreWellMade(codec, o, key, lines[..n], includeState);
      var st := Run(codec, o, key, lines[..n], includeState);
      hide AllWellMade, GrokStep, ClaudeStep, PiStep, CodexStep;
      if lines[n].Object? {
        var obj := lines[n].fields;
        if o.harness == "grok" { GrokWellMade(codec, o, st, obj, n + 1); }
        else if o.harness == "claude" { ClaudeWellMade(codec, o, st, obj, includeState); }
        else if o.harness in {"pi", "omp", "grokbot"} { PiWellMade(codec, o, st, obj, n + 1, includeState); }
        else { CodexWellMade(codec, o, st, obj, n + 1, includeState); }
      }
    }
  }

  // ----- Skipped sessions and whole objects -----

  predicate IsPrompt(x: MemoryItem) { x.metadata.kind == "message" && x.metadata.authorId == "user" }

  // The text of the first user message.
  function FirstPrompt(items: seq<MemoryItem>): Option<string> {
    if items == [] then None
    else
      var before, last := FirstPrompt(items[..|items| - 1]), items[|items| - 1];
      if before.Some? then before else if IsPrompt(last) then Some(last.text) else None
  }

  predicate Skipped(items: seq<MemoryItem>) {
    FirstPrompt(items).Some? && HasPrefix(TrimSpace(FirstPrompt(items).value), SKIPPED_SESSION_PREFIX)
  }

  lemma {:induction false} FirstPromptStays(items: seq<MemoryItem>, n: nat)
    requires n <= |items| && FirstPrompt(items[..n]).Some?
    ensures FirstPrompt(items) == FirstPrompt(items[..n])
  {
    if n < |items| {
      assert items[..|items| - 1][..n] == items[..n];
      FirstPromptStays(items[..|items| - 1], n);
    } else {
      assert items[..n] == items;
    }
  }

  method SkippedSession(items: seq<MemoryItem>) returns (skipped: bool)
    ensures skipped == Skipped(items)
  {
    for i := 0 to |items|
      invariant FirstPrompt(items[..i]).None?
    {
      assert items[..i + 1][..i] == items[..i];
      if items[i].metadata.kind != "message" || items[i].metadata.authorId != "user" { continue; }
      FirstPromptStays(items, i + 1);
      return HasPrefix(TrimSpace(items[i].text), SKIPPED_SESSION_PREFIX);
    }
    assert items[..|items|] == items;
    skipped := false;
  }

  // The first prompt is a message, so state rows do not matter to it.
  lemma {:induction false} FirstPromptOfMessages(items: seq<MemoryItem>)
    ensures FirstPrompt(Messages(items)) == FirstPrompt(items)
  {
    if items != [] {
      var n := |items| - 1;
      FirstPromptOfMessages(items[..n]);
      var before := Messages(items[..n]);
      assert (before + [items[n]])[..|before|] == before;
    }
  }

  method ParseSessionJsonl(codec: Codec, o: Origin, key: string, lines: seq<Line>, includeState: bool)
    returns (items: seq<MemoryItem>)
    ensures items == Run(codec, o, key, lines, includeState).items
  {
    hide Step;
    var st := Start(codec, o, key);
    for i := 0 to |lines|
      invariant st == Run(codec, o, key, lines[..i], includeState)
    {
      assert lines[..i + 1][..i] == lines[..i];
      st := Step(codec, o, st, lines[i], i + 1, includeState);
    }
    assert lines[..|lines|] == lines;
    items := st.items;
  }

  predicate IsJsonl(name: string) {
    |name| >= 6 && forall i | 0 <= i < 6 :: Lower(name[|name| - 6 + i]) == ".jsonl"[i]
  }

  function Lower(c: char): char { if 'A' <= c <= 'Z' then c + 'a' - 'A' else c }

  // The host and the source that an object's key names.
  function RawObjectIdentity(key: string): Option<Origin> {
    var parts := SplitOn(if HasPrefix(key, "/") then key[1..] else key, '/');
    if |parts| < 3 || parts[0] == "" || parts[1] !in RAW_SOURCES || !IsJsonl(parts[|parts| - 1]) then None
    else Some(Origin(parts[0], parts[1]))
  }

  datatype ParseError = BadKey | ScanError

  // What parsing a session object returns: nothing for a skipped session.
  function SessionResult(codec: Codec, o: Origin, key: string, body: string,
                         includeState: bool): Result<seq<MemoryItem>, ParseError> {
    var lines := codec.lines(body);
    if lines.None? then Err(ScanError)
    else
      var items := Run(codec, o, key, lines.value, includeState).items;
      Ok(if Skipped(items) then [] else items)
  }

  function MessagesOf(r: Result<seq<MemoryItem>, ParseError>): Result<seq<MemoryItem>, ParseError> {
    match r case Ok(items) => Ok(Messages(items)) case Err(e) => Err(e)
  }

  // Keeping the messages of a parse with state rows gives exactly the parse without them:
  // the same rows in the same order, the same decision to skip, the same errors.
  lemma StateRowsChangeNothing(codec: Codec, o: Origin, key: string, body: string)
    ensures MessagesOf(SessionResult(codec, o, key, body, true)) == SessionResult(codec, o, key, body, false)
  {
    var lines := codec.lines(body);
    if lines.Some? {
      RunsAgree(codec, o, key, lines.value);
      var a := Run(codec, o, key, lines.value, true).items;
      hide Run;
      FirstPromptOfMessages(a);
    }
  }

  // A parse of an object: a chat export or a session.
  ghost predicate IsParse(codec: Codec, key: string, body: string, includeState: bool,
                          r: Result<seq<MemoryItem>, ParseError>) {
    var o := RawObjectIdentity(key);
    if o.None? then r == Err(BadKey)
    else if o.value.harness == "telegram" then
      var lines := codec.telegram(body);
      if lines.None? then r == Err(ScanError)
      else r.Ok? && TP.Parsed(TP.Versions(codec.chat, o.value.host, lines.value), r.value)
    else r == SessionResult(codec, o.value, key, body, includeState)
  }

  method ParseRawObject(codec: Codec, key: string, body: string, includeState: bool)
    returns (r: Result<seq<MemoryItem>, ParseError>)
    ensures IsParse(codec, key, body, includeState, r)
  {
    hide Run, TP.Parsed;
    var o := RawObjectIdentity(key);
    if o.None? { return Err(BadKey); }
    if o.value.harness == "telegram" {
      var lines := codec.telegram(body);
      if lines.None? { return Err(ScanError); }
      var chat := TP.ParseTelegram(codec.chat, o.value.host, lines.value);
      return Ok(chat);
    }
    var lines := codec.lines(body);
    if lines.None? { return Err(ScanError); }
    var items := ParseSessionJsonl(codec, o.value, key, lines.value, includeState);
    var skipped := SkippedSession(items);
    if skipped { return Ok([]); }
    r := Ok(items);
  }

  lemma {:induction false} AllMessages(items: seq<MemoryItem>)
    requires forall x | x in items :: x.metadata.kind == "message"
    ensures Messages(items) == items
  {
    if items != [] {
      var n := |items| - 1;
      AllMessages(items[..n]);
      assert items[n] in items;
      SplitLast(items);
    }
  }

  // Whatever the object, parsing it with state rows and keeping the messages is parsing it
  // without.
  lemma MessagesAreTheParse(codec: Codec, key: string, body: string, full: Result<seq<MemoryItem>, ParseError>,
                            plain: Result<seq<MemoryItem>, ParseError>)
    requires IsParse(codec, key, body, true, full) && IsParse(codec, key, body, false, plain)
    ensures MessagesOf(full) == plain
  {
    var o := RawObjectIdentity(key);
    if o.Some? {
      if o.value.harness != "telegram" {
        StateRowsChangeNothing(codec, o.value, key, body);
      } else if codec.telegram(body).Some? {
        var vs := TP.Versions(codec.chat, o.value.host, codec.telegram(body).value);
        TP.VersionsAreTelegram(codec.chat, o.value.host, codec.telegram(body).value);
        TP.OneParse(vs, full.value, plain.value);
        forall x | x in full.value
          ensures x.metadata.kind == "message"
        {
          assert TP.IsLast(vs, x);
        }
        AllMessages(full.value);
      }
    }
  }
}
