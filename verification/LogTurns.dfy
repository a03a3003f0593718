// Turns read off a session log (cmd/tireless/index/parse.go). Logs and their lines are bytes;
// the fields that decoding a line yields are texts, as sequences of runes.
module LogTurns {
  import opened Wrappers
  import opened Text

  // One character a byte.
  type Bytes = string

  // The shortest text sent, in bytes.
  const MIN_CHARS: nat := 8
  const SKIP_USER: seq<string> := ["# AGENTS.md", "<permissions instructions>", "<INSTRUCTIONS>"]

  datatype Source = Pi | Omp | Codex

  // The fields the parsers read off one decoded line. Absent fields are zero values, a
  // content is already its joined text, and a timestamp is already in seconds.
  datatype PiLine = PiLine(kind: string, id: string, cwd: string, role: string, text: string, stamp: int,
                           messageStamp: int)
  datatype CodexLine = CodexLine(kind: string, payloadKind: string, id: string, cwd: string, role: string,
                                 text: string, stamp: int)

  // Decoding a line, and the first sixteen digits of a text's hash.
  datatype Decoder = Decoder(pi: Bytes -> Option<PiLine>, codex: Bytes -> Option<CodexLine>, hash: string -> string)

  datatype Turn = Turn(id: string, text: string, project: string, ts: int, container: string, host: string,
                       source: string, author: string)

  // What a parse carries from line to line.
  datatype Carried = Carried(container: string, project: string, seen: set<string>)

  datatype Step = Step(carried: Carried, turn: Option<Turn>)

  function SourceName(s: Source): string {
    match s case Pi => "pi" case Omp => "omp" case Codex => "codex"
  }

  function ProjectFromCwd(cwd: string): (p: string)
    ensures p != "" && p != "."
  {
    var base := AfterLastSlash(TrimRightOf(cwd, '/'));
    if base == "" || base == "." then "unknown" else base
  }

  predicate SkipUserText(text: string) {
    exists i | 0 <= i < |SKIP_USER| :: HasPrefix(TrimLeftOf(text, {' ', '\t'}), SKIP_USER[i])
  }

  predicate Sendable(role: string, text: string) {
    && (role == "user" || role == "assistant")
    && Utf8Length(text) >= MIN_CHARS && !(role == "user" && SkipUserText(text))
  }

  function MakeTurn(host: string, source: string, c: Carried, native: string, author: string, text: string,
                    ts: int): Turn {
    Turn(host + "/" + source + "/" + c.container + "/" + native, text, c.project, if ts == 0 then 1 else ts,
         c.container, host, source, author)
  }

  // A session line renames the container and the project where it names them.
  function Renamed(c: Carried, id: string, cwd: string): Carried {
    c.(container := ValueOr(id, c.container), project := if cwd != "" then ProjectFromCwd(cwd) else c.project)
  }

  function PiStep(host: string, source: Source, c: Carried, line: PiLine): Step {
    if line.kind == "session" then Step(Renamed(c, line.id, line.cwd), None)
    else if line.kind == "message" && Sendable(line.role, line.text) && line.id != "" then
      var ts := if line.stamp == 0 then line.messageStamp else line.stamp;
      Step(c, Some(MakeTurn(host, SourceName(source), c, line.id, line.role, line.text, ts)))
    else Step(c, None)
  }

  function CodexKey(d: Decoder, line: CodexLine): string { ValueOr(TrimSpace(line.id), d.hash(line.text)) }

  predicate CodexMessage(line: CodexLine) {
    line.kind == "response_item" && line.payloadKind == "message" && Sendable(line.role, line.text)
  }

  function CodexStep(d: Decoder, host: string, c: Carried, line: CodexLine): Step {
    if line.kind == "session_meta" then Step(Renamed(c, line.id, line.cwd), None)
    else if CodexMessage(line) && CodexKey(d, line) !in c.seen then
      var key := CodexKey(d, line);
      Step(c.(seen := c.seen + {key}), Some(MakeTurn(host, "codex", c, key, line.role, line.text, line.stamp)))
    else Step(c, None)
  }

  // One line, with its carriage returns still on.
  function LineStep(d: Decoder, host: string, source: Source, c: Carried, raw: Bytes): Step {
    var line := TrimRightOf(raw, '\r');
    if line == "" then Step(c, None)
    else if source.Codex? then
      (match d.codex(line) case None => Step(c, None) case Some(l) => CodexStep(d, host, c, l))
    else
      (match d.pi(line) case None => Step(c, None) case Some(l) => PiStep(host, source, c, l))
  }

  datatype Parse = Parse(turns: seq<Turn>, carried: Carried)

  // One pass over lines.
  function ParseLines(d: Decoder, host: string, source: Source, c: Carried, lines: seq<Bytes>): Parse {
    if lines == [] then Parse([], c)
    else
      var before := ParseLines(d, host, source, c, lines[..|lines| - 1]);
      var s := LineStep(d, host, source, before.carried, lines[|lines| - 1]);
      Parse(if s.turn.Some? then before.turns + [s.turn.value] else before.turns, s.carried)
  }

  lemma {:induction false} ParseLinesAppend(d: Decoder, host: string, source: Source, c: Carried, a: seq<string>,
                                            b: seq<string>)
    ensures var first := ParseLines(d, host, source, c, a);
            var rest := ParseLines(d, host, source, first.carried, b);
      ParseLines(d, host, source, c, a + b) == Parse(first.turns + rest.turns, rest.carried)
  {
    hide LineStep;
    if b == [] {
      assert a + b == a;
    } else {
      ParseLinesAppend(d, host, source, c, a, b[..|b| - 1]);
      assert (a + b)[..|a + b| - 1] == a + b[..|b| - 1];
    }
  }

  // The pieces between newlines.
  function Split(b: Bytes): seq<Bytes> { SplitOn(b, '\n') }

  // The length of the longest prefix that is empty or ends a line.
  function CompleteLength(b: Bytes): (n: nat)
    ensures n <= |b| && AtLineEnd(b[..n])
    ensures forall i | n <= i < |b| :: b[i] != '\n'
  {
    if b == [] || b[|b| - 1] == '\n' then assert b[..|b|] == b; |b|
    else
      var shorter := b[..|b| - 1];
      assert shorter[..CompleteLength(shorter)] == b[..CompleteLength(shorter)];
      CompleteLength(shorter)
  }

  predicate AtLineEnd(b: Bytes) { b == [] || b[|b| - 1] == '\n' }

  // The pieces of a text that starts with `c` and goes on with these pieces.
  function Pieced(c: char, pieces: seq<string>): seq<string>
    requires pieces != []
  {
    if c == '\n' then [""] + pieces else [[c] + pieces[0]] + pieces[1..]
  }

  lemma SplitIsPieced(b: string)
    requires b != ""
    ensures Split(b) == Pieced(b[0], Split(b[1..]))
  {
    SplitOnStep(b, '\n');
  }

  lemma {:induction false} SplitAppend(a: string, b: string)
    requires AtLineEnd(a)
    ensures Split(a)[|Split(a)| - 1] == ""
    ensures Split(a + b) == Split(a)[..|Split(a)| - 1] + Split(b)
  {
    if a == [] {
      assert a + b == b;
    } else {
      var c, rest := a[0], a[1..];
      assert rest != [] ==> rest[|rest| - 1] == a[|a| - 1];
      assert (a + b)[1..] == rest + b && (a + b)[0] == c;
      SplitAppend(rest, b);
      SplitIsPieced(a);
      SplitIsPieced(a + b);
      LastPieceAlone(rest);
      hide Split, Pieced;
      PiecedAppend(c, Split(rest), Split(b));
    }
  }

  lemma PiecedAppend(c: char, pieces: seq<string>, more: seq<string>)
    requires pieces != [] && more != [] && (c == '\n' || |pieces| > 1)
    ensures |Pieced(c, pieces)| > 0 && Pieced(c, pieces)[|Pieced(c, pieces)| - 1] == pieces[|pieces| - 1]
    ensures Pieced(c, pieces[..|pieces| - 1] + more) == Pieced(c, pieces)[..|Pieced(c, pieces)| - 1] + more
  {
    if c != '\n' { GluePieces(c, pieces, more); }
  }

  // Text whose only piece is empty is empty.
  lemma LastPieceAlone(b: string)
    ensures Split(b) == [""] ==> b == ""
  {
    if b != "" {
      SplitOnStep(b, '\n');
      assert b[0] == '\n' ==> |Split(b)| >= 2;
      assert b[0] != '\n' ==> |Split(b)[0]| > 0;
    }
  }

  lemma GluePieces(c: char, pieces: seq<string>, more: seq<string>)
    requires |pieces| > 1
    ensures var n := |pieces| - 1;
            var all := pieces[..n] + more;
      [[c] + all[0]] + all[1..] == ([[c] + pieces[0]] + pieces[1..])[..n] + more
  {
    var n := |pieces| - 1;
    var all := pieces[..n] + more;
    assert all[1..] == pieces[1..n] + more;
    assert ([[c] + pieces[0]] + pieces[1..])[..n] == [[c] + pieces[0]] + pieces[1..n];
  }

  // One pass over complete lines.
  function OnePass(d: Decoder, host: string, source: Source, c: Carried, b: Bytes): Parse {
    ParseLines(d, host, source, c, Split(b))
  }

  // Parsing may stop at any line end and go on from there with what it carries.
  lemma OnePassAppend(d: Decoder, host: string, source: Source, c: Carried, a: string, b: string)
    requires AtLineEnd(a)
    ensures var first := OnePass(d, host, source, c, a);
            var rest := OnePass(d, host, source, first.carried, b);
      OnePass(d, host, source, c, a + b) == Parse(first.turns + rest.turns, rest.carried)
  {
    SplitAppend(a, b);
    var whole := Split(a)[..|Split(a)| - 1];
    assert Split(a) == whole + [""];
    ParseLinesAppend(d, host, source, c, whole, [""]);
    EmptyLine(d, host, source, ParseLines(d, host, source, c, whole).carried);
    ParseLinesAppend(d, host, source, c, whole, Split(b));
  }

  lemma EmptyLine(d: Decoder, host: string, source: Source, c: Carried)
    ensures ParseLines(d, host, source, c, [""]) == Parse([], c)
  {
    assert [""][..0] == [];
    assert ParseLines(d, host, source, c, []) == Parse([], c);
  }

  // Containers and projects are never cleared, and Pi and OMP lines leave the seen keys alone.
  lemma {:induction false} CarriedStays(d: Decoder, host: string, source: Source, c: Carried, lines: seq<string>)
    ensures var p := ParseLines(d, host, source, c, lines).carried;
      && (c.container != "" ==> p.container != "") && (c.project != "" ==> p.project != "")
      && (!source.Codex? ==> p.seen == c.seen)
  {
    if lines != [] {
      var before := ParseLines(d, host, source, c, lines[..|lines| - 1]).carried;
      CarriedStays(d, host, source, c, lines[..|lines| - 1]);
      StepStays(d, host, source, before, lines[|lines| - 1]);
      hide LineStep;
    }
  }

  lemma StepStays(d: Decoder, host: string, source: Source, c: Carried, raw: string)
    ensures var s := LineStep(d, host, source, c, raw);
      && (c.container != "" ==> s.carried.container != "") && (c.project != "" ==> s.carried.project != "")
      && (!source.Codex? ==> s.carried.seen == c.seen)
  {
    hide Sendable, ProjectFromCwd, CodexKey, MakeTurn;
  }

  // A Codex message whose key is already among `seen`.
  predicate Repeats(d: Decoder, raw: string, seen: set<string>) {
    var line := TrimRightOf(raw, '\r');
    && line != "" && d.codex(line).Some?
    && CodexMessage(d.codex(line).value) && CodexKey(d, d.codex(line).value) in seen
  }

  predicate AnyRepeats(d: Decoder, lines: seq<string>, seen: set<string>) {
    exists i | 0 <= i < |lines| :: Repeats(d, lines[i], seen)
  }

  lemma AnyRepeatsGrows(d: Decoder, lines: seq<string>, seen: set<string>)
    requires lines != []
    ensures AnyRepeats(d, lines, seen) <==>
            AnyRepeats(d, lines[..|lines| - 1], seen) || Repeats(d, lines[|lines| - 1], seen)
  {
    hide Repeats;
    var n := |lines| - 1;
    if AnyRepeats(d, lines[..n], seen) {
      var i :| 0 <= i < n && Repeats(d, lines[..n][i], seen);
      assert Repeats(d, lines[i], seen);
    }
    if i :| 0 <= i < |lines| && Repeats(d, lines[i], seen) {
      assert i < n ==> Repeats(d, lines[..n][i], seen);
    }
  }

  lemma CodexStepForgets(d: Decoder, host: string, a: Carried, b: Carried, seen: set<string>, raw: string)
    requires a == b.(seen := b.seen + seen)
    ensures var s, t := LineStep(d, host, Codex, a, raw), LineStep(d, host, Codex, b, raw);
      && s.carried == t.carried.(seen := t.carried.seen + seen)
      && (s.turn == None || s.turn == t.turn)
      && (s.turn == t.turn <==> !(Repeats(d, raw, seen) && t.turn.Some?))
      && (Repeats(d, raw, seen) && t.turn.None? ==> Repeats(d, raw, b.seen))
  {
    hide Sendable, CodexKey, ProjectFromCwd, TrimRightOf;
  }

  lemma {:induction false} SeenComesFromLines(d: Decoder, host: string, c: Carried, lines: seq<string>, raw: string,
                                              seen: set<string>)
    requires c.seen == {} && Repeats(d, raw, seen)
    requires Repeats(d, raw, ParseLines(d, host, Codex, c, lines).carried.seen)
    ensures AnyRepeats(d, lines, seen)
  {
    if lines == [] { return; }
    var n := |lines| - 1;
    var before := ParseLines(d, host, Codex, c, lines[..n]).carried;
    if Repeats(d, raw, before.seen) {
      SeenComesFromLines(d, host, c, lines[..n], raw, seen);
    } else {
      KeyOfStep(d, host, before, lines[n], raw, seen);
    }
    AnyRepeatsGrows(d, lines, seen);
  }

  lemma KeyOfStep(d: Decoder, host: string, c: Carried, last: string, raw: string, seen: set<string>)
    requires Repeats(d, raw, seen) && !Repeats(d, raw, c.seen)
    requires Repeats(d, raw, LineStep(d, host, Codex, c, last).carried.seen)
    ensures Repeats(d, last, seen)
  {
    hide CodexMessage, CodexKey, MakeTurn, ProjectFromCwd, TrimRightOf;
  }

  // The cursor does not save the keys a Codex log has shown. Forgetting them loses no turn,
  // and sends one again exactly when a later line repeats a key.
  lemma {:induction false} CodexForgets(d: Decoder, host: string, c: Carried, lines: seq<string>)
    ensures var whole := ParseLines(d, host, Codex, c, lines);
            var cut := ParseLines(d, host, Codex, c.(seen := {}), lines);
      && whole.carried == cut.carried.(seen := cut.carried.seen + c.seen)
      && (forall t | t in whole.turns :: t in cut.turns)
      && |whole.turns| <= |cut.turns|
      && (whole.turns == cut.turns <==> !AnyRepeats(d, lines, c.seen))
  {
    if lines == [] { return; }
    var n := |lines| - 1;
    var c0 := c.(seen := {});
    CodexForgets(d, host, c, lines[..n]);
    var whole, cut := ParseLines(d, host, Codex, c, lines[..n]), ParseLines(d, host, Codex, c0, lines[..n]);
    CodexStepForgets(d, host, whole.carried, cut.carried, c.seen, lines[n]);
    if Repeats(d, lines[n], c.seen) && LineStep(d, host, Codex, cut.carried, lines[n]).turn.None? {
      SeenComesFromLines(d, host, c0, lines[..n], lines[n], c.seen);
    }
    var s, t :=
      LineStep(d, host, Codex, whole.carried, lines[n]).turn, LineStep(d, host, Codex, cut.carried, lines[n]).turn;
    if s.Some? && t.Some? { SnocEqual(whole.turns, cut.turns, s.value, t.value); }
    AnyRepeatsGrows(d, lines, c.seen);
    hide LineStep, Repeats, AnyRepeats;
  }

  predicate Yields(d: Decoder, raw: string) {
    var line := TrimRightOf(raw, '\r');
    && line != "" && d.pi(line).Some? && d.pi(line).value.kind == "message"
    && Sendable(d.pi(line).value.role, d.pi(line).value.text) && d.pi(line).value.id != ""
  }

  predicate NamesContainer(d: Decoder, raw: string) {
    var line := TrimRightOf(raw, '\r');
    line != "" && d.pi(line).Some? && d.pi(line).value.kind == "session" && d.pi(line).value.id != ""
  }

  predicate NamesProject(d: Decoder, raw: string) {
    var line := TrimRightOf(raw, '\r');
    line != "" && d.pi(line).Some? && d.pi(line).value.kind == "session" && d.pi(line).value.cwd != ""
  }

  // Some turn comes before the first line that names its container, or its project.
  ghost predicate UnnamedTurn(d: Decoder, lines: seq<string>, names: (Decoder, string) -> bool) {
    exists i | 0 <= i < |lines| :: Yields(d, lines[i]) && forall j | 0 <= j < i :: !names(d, lines[j])
  }

  ghost predicate Named(d: Decoder, lines: seq<string>, names: (Decoder, string) -> bool) {
    exists i | 0 <= i < |lines| :: names(d, lines[i])
  }

  lemma PiStepFrom(d: Decoder, host: string, source: Source, a: Carried, b: Carried, raw: string)
    requires !source.Codex?
    ensures var s, t := LineStep(d, host, source, a, raw), LineStep(d, host, source, b, raw);
      && s.turn.Some? == t.turn.Some? == Yields(d, raw)
      && (s.turn.Some? ==> (s.turn == t.turn <==> a.container == b.container && a.project == b.project))
      && (if NamesContainer(d, raw) then s.carried.container == t.carried.container
          else s.carried.container == a.container && t.carried.container == b.container)
      && (if NamesProject(d, raw) then s.carried.project == t.carried.project
          else s.carried.project == a.project && t.carried.project == b.project)
  {
    hide Sendable, ProjectFromCwd, TrimRightOf;
  }

  lemma UnnamedGrows(d: Decoder, lines: seq<string>, names: (Decoder, string) -> bool)
    requires lines != []
    ensures var before, last := lines[..|lines| - 1], lines[|lines| - 1];
      && (UnnamedTurn(d, lines, names) <==>
          UnnamedTurn(d, before, names) || (Yields(d, last) && !Named(d, before, names)))
      && (Named(d, lines, names) <==> Named(d, before, names) || names(d, last))
  {
    hide Yields;
    var n := |lines| - 1;
    assert forall i | 0 <= i < n :: lines[..n][i] == lines[i];
    if UnnamedTurn(d, lines[..n], names) {
      var i :| 0 <= i < n && Yields(d, lines[..n][i]) && forall j | 0 <= j < i :: !names(d, lines[..n][j]);
      assert Yields(d, lines[i]) && forall j | 0 <= j < i :: !names(d, lines[..n][j]) && lines[..n][j] == lines[j];
    }
    if UnnamedTurn(d, lines, names) {
      var i :| 0 <= i < |lines| && Yields(d, lines[i]) && forall j | 0 <= j < i :: !names(d, lines[j]);
      if i < n { assert Yields(d, lines[..n][i]); }
    }
  }

  // Starting from another container or project changes the turns exactly when a turn comes
  // before the line that names it.
  lemma {:induction false} TurnsFromAnotherStart(d: Decoder, host: string, source: Source, a: Carried, b: Carried,
                                                 lines: seq<string>)
    requires !source.Codex?
    ensures var p, q := ParseLines(d, host, source, a, lines), ParseLines(d, host, source, b, lines);
      && |p.turns| == |q.turns|
      && (p.turns == q.turns <==>
          && (a.container == b.container || !UnnamedTurn(d, lines, NamesContainer))
          && (a.project == b.project || !UnnamedTurn(d, lines, NamesProject)))
      && (p.carried.container == q.carried.container <==> a.container == b.container || Named(d, lines, NamesContainer))
      && (p.carried.project == q.carried.project <==> a.project == b.project || Named(d, lines, NamesProject))
  {
    if lines == [] { return; }
    var n := |lines| - 1;
    TurnsFromAnotherStart(d, host, source, a, b, lines[..n]);
    var p, q := ParseLines(d, host, source, a, lines[..n]), ParseLines(d, host, source, b, lines[..n]);
    PiStepFrom(d, host, source, p.carried, q.carried, lines[n]);
    var s, t :=
      LineStep(d, host, source, p.carried, lines[n]).turn, LineStep(d, host, source, q.carried, lines[n]).turn;
    if s.Some? { SnocEqual(p.turns, q.turns, s.value, t.value); }
    UnnamedGrows(d, lines, NamesContainer);
    UnnamedGrows(d, lines, NamesProject);
    hide LineStep, UnnamedTurn, Named, Yields;
  }

  // The parser's state, updated line by line.
  class FileState {
    const decoder: Decoder
    const source: Source
    const host: string
    var container: string
    var project: string
    var seen: set<string>

    function Value(): Carried
      reads this
    {
      Carried(container, project, seen)
    }

    constructor (decoder: Decoder, source: Source, host: string, container: string, project: string)
      ensures this.decoder == decoder && this.source == source && this.host == host
      ensures Value() == Carried(container, project, {})
    {
      this.decoder, this.source, this.host, this.container, this.project := decoder, source, host, container, project;
      seen := {};
    }

    method Rename(id: string, cwd: string)
      modifies this
      ensures Value() == Renamed(old(Value()), id, cwd)
    {
      if id != "" { container := id; }
      if cwd != "" { project := ProjectFromCwd(cwd); }
    }

    method ParsePi(line: PiLine) returns (turn: Option<Turn>)
      modifies this
      ensures Step(Value(), turn) == PiStep(host, source, old(Value()), line)
    {
      if line.kind == "session" {
        Rename(line.id, line.cwd);
        return None;
      }
      if line.kind != "message" || (line.role != "user" && line.role != "assistant") { return None; }
      if Utf8Length(line.text) < MIN_CHARS || (line.role == "user" && SkipUserText(line.text)) { return None; }
      if line.id == "" { return None; }
      var ts := line.stamp;
      if ts == 0 { ts := line.messageStamp; }
      turn := Some(MakeTurn(host, SourceName(source), Value(), line.id, line.role, line.text, ts));
    }

    method ParseCodex(line: CodexLine) returns (turn: Option<Turn>)
      modifies this
      ensures Step(Value(), turn) == CodexStep(decoder, host, old(Value()), line)
    {
      if line.kind == "session_meta" {
        Rename(line.id, line.cwd);
        return None;
      }
      if line.kind != "response_item" || line.payloadKind != "message" { return None; }
      if line.role != "user" && line.role != "assistant" { return None; }
      if Utf8Length(line.text) < MIN_CHARS || (line.role == "user" && SkipUserText(line.text)) { return None; }
      var key := TrimSpace(line.id);
      if key == "" { key := decoder.hash(line.text); }
      if key in seen { return None; }
      seen := seen + {key};
      turn := Some(MakeTurn(host, "codex", Value(), key, line.role, line.text, line.stamp));
    }

    method ParseLine(line: Bytes) returns (turn: Option<Turn>)
      requires line != "" && line[|line| - 1] != '\r'
      modifies this
      ensures Step(Value(), turn) == LineStep(decoder, host, source, old(Value()), line)
    {
      hide PiStep, CodexStep;
      if !source.Codex? {
        var decoded := decoder.pi(line);
        if decoded.None? { return None; }
        turn := ParsePi(decoded.value);
      } else {
        var decoded := decoder.codex(line);
        if decoded.None? { return None; }
        turn := ParseCodex(decoded.value);
      }
    }

    // The turns of the complete lines, and how many bytes those lines take.
    method ReadTurns(b: Bytes) returns (turns: seq<Turn>, consumed: nat)
      modifies this
      ensures consumed == CompleteLength(b)
      ensures Parse(turns, Value()) == OnePass(decoder, host, source, old(Value()), b[..consumed])
    {
      hide LineStep;
      turns := [];
      consumed := CompleteLength(b);
      if consumed == 0 {
        EmptyLine(decoder, host, source, Value());
        return;
      }
      var lines := Split(b[..consumed]);
      var i := 0;
      while i < |lines|
        invariant 0 <= i <= |lines|
        invariant Parse(turns, Value()) == ParseLines(decoder, host, source, old(Value()), lines[..i])
      {
        assert lines[..i + 1][..i] == lines[..i];
        var line := TrimRightOf(lines[i], '\r');
        TrimmedStep(decoder, host, source, Value(), lines[i]);
        if line != "" {
          var turn := ParseLine(line);
          if turn.Some? { turns := turns + [turn.value]; }
        }
        i := i + 1;
      }
      assert lines[..i] == lines;
    }
  }

  lemma TrimmedStep(d: Decoder, host: string, source: Source, c: Carried, raw: string)
    ensures var line := TrimRightOf(raw, '\r');
      && LineStep(d, host, source, c, raw) == LineStep(d, host, source, c, line)
      && (line != "" ==> line[|line| - 1] != '\r')
      && (line == "" ==> LineStep(d, host, source, c, raw) == Step(c, None))
  {
    hide PiStep, CodexStep;
    TrimmedEnd(raw, '\r');
  }

  lemma {:induction false} TrimmedEnd(s: string, c: char)
    ensures var t := TrimRightOf(s, c); (t == "" || t[|t| - 1] != c) && TrimRightOf(t, c) == t
  {
    if s != [] && s[|s| - 1] == c { TrimmedEnd(s[..|s| - 1], c); }
  }
}
