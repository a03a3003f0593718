// Where the fields of a turn come from: its own line, and the session lines before it
// (cmd/tireless/index/parse.go).
module TurnOrigins {
  import opened Wrappers
  import opened Text
  import opened LogTurns

  // The decoded line, if it is neither blank nor undecodable.
  function PiAt(d: Decoder, raw: Bytes): Option<PiLine> {
    var line := TrimRightOf(raw, '\r');
    if line == "" then None else d.pi(line)
  }

  function CodexAt(d: Decoder, raw: Bytes): Option<CodexLine> {
    var line := TrimRightOf(raw, '\r');
    if line == "" then None else d.codex(line)
  }

  // The session that a line names, or nothing.
  function NamedSession(d: Decoder, source: Source, raw: Bytes): string {
    if source.Codex? then
      match CodexAt(d, raw) case Some(l) => if l.kind == "session_meta" then l.id else "" case None => ""
    else
      match PiAt(d, raw) case Some(l) => if l.kind == "session" then l.id else "" case None => ""
  }

  // The directory that a line names, or nothing.
  function NamedCwd(d: Decoder, source: Source, raw: Bytes): string {
    if source.Codex? then
      match CodexAt(d, raw) case Some(l) => if l.kind == "session_meta" then l.cwd else "" case None => ""
    else
      match PiAt(d, raw) case Some(l) => if l.kind == "session" then l.cwd else "" case None => ""
  }

  // cwd[from..to] is the last part of a path.
  ghost predicate LastPart(cwd: string, from: nat, to: nat) {
    && from <= to <= |cwd| && (to > 0 ==> cwd[to - 1] != '/') && (forall i | to <= i < |cwd| :: cwd[i] == '/')
    && (from > 0 ==> cwd[from - 1] == '/') && (forall i | from <= i < to :: cwd[i] != '/')
  }

  // The project of a directory is the last part of its path.
  ghost predicate ProjectOf(cwd: string, project: string) {
    exists from: nat, to: nat | LastPart(cwd, from, to) ::
      project == if cwd[from..to] == "" || cwd[from..to] == "." then "unknown" else cwd[from..to]
  }

  lemma {:induction false} TrimRightOfIs(s: string, c: char)
    ensures var t := TrimRightOf(s, c);
      t <= s && (t != "" ==> t[|t| - 1] != c) && forall i | |t| <= i < |s| :: s[i] == c
  {
    if s != [] && s[|s| - 1] == c { TrimRightOfIs(s[..|s| - 1], c); }
  }

  lemma CwdNamesProject(cwd: string)
    ensures ProjectOf(cwd, ProjectFromCwd(cwd))
  {
    var path := TrimRightOf(cwd, '/');
    var part := AfterLastSlash(path);
    TrimRightOfIs(cwd, '/');
    AfterLastSlashIs(path);
    hide TrimRightOf, AfterLastSlash;
    var from := |path| - |part|;
    assert cwd[from..|path|] == part;
    forall i | from <= i < |path|
      ensures cwd[i] != '/'
    {
      assert cwd[i] == part[i - from];
    }
    assert LastPart(cwd, from, |path|);
  }

  // What a message says: `key` identifies it in its session.
  datatype Message = Message(key: string, author: string, text: string, stamp: int)

  // A user or an assistant says something of some length that is not an instruction.
  predicate Said(role: string, text: string) {
    && (role == "user" || role == "assistant") && Utf8Length(text) >= 8
    && (role == "user" ==>
        !HasPrefix(TrimLeftOf(text, {' ', '\t'}), "# AGENTS.md")
        && !HasPrefix(TrimLeftOf(text, {' ', '\t'}), "<permissions instructions>")
        && !HasPrefix(TrimLeftOf(text, {' ', '\t'}), "<INSTRUCTIONS>"))
  }

  // The message on a line. Pi lines need an id; a Codex line without one is known by its text.
  function MessageAt(d: Decoder, source: Source, raw: Bytes): Option<Message> {
    if source.Codex? then
      match CodexAt(d, raw)
      case None => None
      case Some(l) =>
        if l.kind != "response_item" || l.payloadKind != "message" || !Said(l.role, l.text) then None
        else
          Some(Message(if TrimSpace(l.id) != "" then TrimSpace(l.id) else d.hash(l.text), l.role, l.text, l.stamp))
    else
      match PiAt(d, raw)
      case None => None
      case Some(l) =>
        if l.kind != "message" || l.id == "" || !Said(l.role, l.text) then None
        else Some(Message(l.id, l.role, l.text, if l.stamp != 0 then l.stamp else l.messageStamp))
  }

  ghost predicate HasKey(d: Decoder, source: Source, raw: Bytes, key: string) {
    MessageAt(d, source, raw).Some? && MessageAt(d, source, raw).value.key == key
  }

  // The line is sent: it holds a message, of a Codex log the first one of its key.
  ghost predicate Sent(d: Decoder, source: Source, c: Carried, lines: seq<Bytes>, i: nat)
    requires i < |lines|
  {
    var m := MessageAt(d, source, lines[i]);
    && m.Some?
    && (source.Codex? ==> m.value.key !in c.seen && !AnyHasKey(d, source, lines[..i], m.value.key))
  }

  function Sessions(d: Decoder, source: Source, lines: seq<Bytes>): seq<string> {
    seq(|lines|, i requires 0 <= i < |lines| => NamedSession(d, source, lines[i]))
  }

  function Projects(d: Decoder, source: Source, lines: seq<Bytes>): seq<string> {
    seq(|lines|, i requires 0 <= i < |lines| =>
      var cwd := NamedCwd(d, source, lines[i]); if cwd == "" then "" else ProjectFromCwd(cwd))
  }

  // The turn says what line i says, in the last session and project named before it, or in
  // those that the pass started with.
  ghost predicate TurnOf(d: Decoder, host: string, source: Source, c: Carried, lines: seq<Bytes>, i: nat, t: Turn)
    requires i < |lines|
  {
    var m := MessageAt(d, source, lines[i]);
    && m.Some? && t.text == m.value.text && t.author == m.value.author
    && t.ts == (if m.value.stamp == 0 then 1 else m.value.stamp)
    && t.host == host && t.source == (if source.Pi? then "pi" else if source.Omp? then "omp" else "codex")
    && LastNamed(Sessions(d, source, lines[..i]), c.container, t.container)
    && LastNamed(Projects(d, source, lines[..i]), c.project, t.project)
    && t.id == t.host + "/" + t.source + "/" + t.container + "/" + m.value.key
  }

  // The turns are those of the sent lines, in order.
  ghost predicate TurnsOf(d: Decoder, host: string, source: Source, c: Carried, lines: seq<Bytes>, turns: seq<Turn>) {
    if lines == [] then turns == []
    else
      var n, m := |lines| - 1, |turns| - 1;
      if Sent(d, source, c, lines, n) then
        && m >= 0 && TurnOf(d, host, source, c, lines, n, turns[m])
        && TurnsOf(d, host, source, c, lines[..n], turns[..m])
      else TurnsOf(d, host, source, c, lines[..n], turns)
  }

  // What a pass carries after some lines.
  ghost predicate CarriesOf(d: Decoder, source: Source, c: Carried, lines: seq<Bytes>, now: Carried) {
    && LastNamed(Sessions(d, source, lines), c.container, now.container)
    && LastNamed(Projects(d, source, lines), c.project, now.project)
    && (source.Codex? ==> forall key :: key in now.seen <==> key in c.seen || AnyHasKey(d, source, lines, key))
  }

  ghost predicate AnyHasKey(d: Decoder, source: Source, lines: seq<Bytes>, key: string) {
    exists j | 0 <= j < |lines| :: HasKey(d, source, lines[j], key)
  }

  lemma KeysMore(d: Decoder, source: Source, lines: seq<Bytes>, raw: Bytes, key: string)
    ensures AnyHasKey(d, source, lines + [raw], key) <==>
      AnyHasKey(d, source, lines, key) || HasKey(d, source, raw, key)
  {
    hide HasKey;
    var more := lines + [raw];
    if j :| 0 <= j < |lines| && HasKey(d, source, lines[j], key) { assert more[j] == lines[j]; }
    if HasKey(d, source, raw, key) { assert more[|lines|] == raw; }
  }

  // One line, from what the pass carries.
  lemma StepIs(d: Decoder, host: string, source: Source, now: Carried, raw: Bytes)
    ensures var s := LineStep(d, host, source, now, raw);
            var m := MessageAt(d, source, raw);
            var id, cwd := NamedSession(d, source, raw), NamedCwd(d, source, raw);
      && s.carried.container == (if id != "" then id else now.container)
      && s.carried.project == (if cwd != "" then ProjectFromCwd(cwd) else now.project)
      && (source.Codex? ==> s.carried.seen == now.seen + if m.Some? then {m.value.key} else {})
      && (s.turn.Some? <==> m.Some? && (source.Codex? ==> m.value.key !in now.seen))
      && (s.turn.Some? ==>
            s.turn.value ==
            Turn(host + "/" + SourceName(source) + "/" + now.container + "/" + m.value.key, m.value.text, now.project,
                 if m.value.stamp == 0 then 1 else m.value.stamp, now.container, host, SourceName(source),
                 m.value.author))
  {
    SaidIsSendable(d, source, raw);
    hide Said, Sendable, ProjectFromCwd, TrimRightOf, TrimSpace;
  }

  lemma SaidIsSendable(d: Decoder, source: Source, raw: Bytes)
    ensures forall role, text :: Said(role, text) <==> Sendable(role, text)
  {
    hide Utf8Length, TrimLeftOf;
    forall role: string, text: string
      ensures Said(role, text) <==> Sendable(role, text)
    {
      assert SKIP_USER[0] == "# AGENTS.md" && SKIP_USER[1] == "<permissions instructions>"
        && SKIP_USER[2] == "<INSTRUCTIONS>" && |SKIP_USER| == 3;
    }
  }

  lemma CarriesMore(d: Decoder, host: string, source: Source, c: Carried, lines: seq<Bytes>, now: Carried, raw: Bytes)
    requires CarriesOf(d, source, c, lines, now)
    ensures CarriesOf(d, source, c, lines + [raw], LineStep(d, host, source, now, raw).carried)
  {
    StepIs(d, host, source, now, raw);
    hide LineStep, NamedSession, NamedCwd, MessageAt, ProjectFromCwd;
    var more := lines + [raw];
    var cwd := NamedCwd(d, source, raw);
    var project := if cwd == "" then "" else ProjectFromCwd(cwd);
    assert Sessions(d, source, more) == Sessions(d, source, lines) + [NamedSession(d, source, raw)];
    assert Projects(d, source, more) == Projects(d, source, lines) + [project];
    LastNamedSnoc(Sessions(d, source, lines), c.container, now.container, NamedSession(d, source, raw));
    LastNamedSnoc(Projects(d, source, lines), c.project, now.project, project);
    hide LastNamed, AnyHasKey, Sessions, Projects;
    forall key
      ensures AnyHasKey(d, source, more, key) <==> AnyHasKey(d, source, lines, key) || HasKey(d, source, raw, key)
    {
      KeysMore(d, source, lines, raw, key);
    }
  }

  // Every pass from any start: its turns are those of the sent lines, each with the text,
  // author and time of its own line, in the session and project last named before it.
  lemma {:induction false} TurnsAreTold(d: Decoder, host: string, source: Source, c: Carried, lines: seq<Bytes>)
    ensures var p := ParseLines(d, host, source, c, lines);
      TurnsOf(d, host, source, c, lines, p.turns) && CarriesOf(d, source, c, lines, p.carried)
  {
    hide LineStep, CarriesOf, Sent, TurnOf;
    if lines == [] {
      NothingCarried(d, source, c);
    } else {
      var n := |lines| - 1;
      var most, raw := lines[..n], lines[n];
      TurnsAreTold(d, host, source, c, most);
      var before := ParseLines(d, host, source, c, most);
      assert lines == most + [raw];
      CarriesMore(d, host, source, c, most, before.carried, raw);
      LastLine(d, host, source, c, most, before.carried, raw);
      var turn := LineStep(d, host, source, before.carried, raw).turn;
      if turn.Some? { assert (before.turns + [turn.value])[..|before.turns|] == before.turns; }
    }
  }

  lemma NothingCarried(d: Decoder, source: Source, c: Carried)
    ensures CarriesOf(d, source, c, [], c)
  {
  }

  // The last line is sent when it gives a turn, and that is its turn.
  lemma LastLine(d: Decoder, host: string, source: Source, c: Carried, lines: seq<Bytes>, now: Carried, raw: Bytes)
    requires CarriesOf(d, source, c, lines, now)
    ensures var turn := LineStep(d, host, source, now, raw).turn;
            var more := lines + [raw];
      && (turn.Some? <==> Sent(d, source, c, more, |lines|))
      && (turn.Some? ==> TurnOf(d, host, source, c, more, |lines|, turn.value))
  {
    StepIs(d, host, source, now, raw);
    hide LineStep, MessageAt, LastNamed, Sessions, Projects, AnyHasKey;
    var more := lines + [raw];
    assert more[..|lines|] == lines && more[|lines|] == raw;
  }

  // A line has one turn.
  lemma OneTurn(d: Decoder, host: string, source: Source, c: Carried, lines: seq<Bytes>, i: nat, a: Turn, b: Turn)
    requires i < |lines| && TurnOf(d, host, source, c, lines, i, a) && TurnOf(d, host, source, c, lines, i, b)
    ensures a == b
  {
    hide MessageAt, LastNamed, Sessions, Projects;
    OneLastNamed(Sessions(d, source, lines[..i]), c.container, a.container, b.container);
    OneLastNamed(Projects(d, source, lines[..i]), c.project, a.project, b.project);
  }
}
