// What the content of a message says, and that thinking does not matter to a parse
// (raw_parser.go, `contentText`).
module MessageContents {
  import opened Wrappers
  import opened Text
  import opened Records
  import opened SessionParse

  // ---------- Fields and contents ----------

  // A non-empty field is the string, or the object, under its key.
  lemma FieldIs(m: Fields, key: string, s: string, f: Fields)
    ensures s != "" ==> (StringField(m, key) == s <==> key in m && m[key] == Str(s))
    ensures f != map[] ==> (MapField(m, key) == f <==> key in m && m[key] == Obj(f))
  {
    if key in m { assert Get(m, key) == m[key]; }
  }

  // The first of two values that is there and not the empty string.
  function OrElse(a: Json, b: Json): Json {
    if a != Null && a != Str("") then a else if b != Null && b != Str("") then b else Null
  }

  lemma OrElseIs(a: Json, b: Json)
    ensures FirstValue([a, b]) == OrElse(a, b)
  {
    assert [a, b][1..] == [b] && [b][1..] == [];
    assert FirstValue([]) == Null;
    assert FirstValue([b]) == if b != Null && b != Str("") then b else Null;
  }

  predicate Thinking(part: Json) {
    part.Obj? && (StringField(part.fields, "type") == "thinking" || StringField(part.fields, "type") == "reasoning")
  }

  // A part that is neither thinking nor reasoning and whose text is more than spaces.
  predicate Spoken(part: Json) {
    part.Obj? && !Thinking(part) && TrimSpace(StringField(part.fields, "text")) != ""
  }

  predicate Among(at: seq<nat>, i: nat) { i in at }

  ghost predicate AllSpoken(parts: seq<Json>, at: seq<nat>) {
    forall k | 0 <= k < |at| :: at[k] < |parts| && Spoken(parts[at[k]])
  }

  ghost predicate Rising(at: seq<nat>) { forall k, l | 0 <= k < l < |at| :: at[k] < at[l] }

  ghost predicate NoneLeft(parts: seq<Json>, at: seq<nat>) {
    forall i | 0 <= i < |parts| && Spoken(parts[i]) :: Among(at, i)
  }

  // The positions of the spoken parts, in order.
  ghost predicate SpokenAt(parts: seq<Json>, at: seq<nat>) {
    AllSpoken(parts, at) && Rising(at) && NoneLeft(parts, at)
  }

  // Their texts, trimmed.
  function Speech(parts: seq<Json>, at: seq<nat>): (texts: seq<string>)
    requires forall k | 0 <= k < |at| :: at[k] < |parts| && parts[at[k]].Obj?
    ensures |texts| == |at|
  {
    seq(|at|, k requires 0 <= k < |at| => TrimSpace(StringField(parts[at[k]].fields, "text")))
  }

  // What a content says: a string is trimmed; of a list of parts the spoken ones are taken in
  // order, one a line; anything else says nothing.
  ghost predicate ReadsAs(content: Json, text: string) {
    match content
    case Str(s) => text == TrimSpace(s)
    case Arr(parts) => exists at: seq<nat> :: SpokenAt(parts, at) && text == Join(Speech(parts, at), "\n")
    case _ => text == ""
  }

  lemma {:induction false} PartTextsSnoc(parts: seq<Json>, part: Json)
    ensures PartTexts(parts + [part]) ==
      PartTexts(parts) + if Spoken(part) then [TrimSpace(StringField(part.fields, "text"))] else []
  {
    if parts == [] {
      assert parts + [part] == [part] && [part][1..] == [];
      assert PartTexts([]) == [];
    } else {
      assert (parts + [part])[1..] == parts[1..] + [part];
      PartTextsSnoc(parts[1..], part);
    }
  }

  // The last part is listed last, when it is spoken.
  lemma LastSpoken(parts: seq<Json>, at: seq<nat>)
    requires parts != [] && SpokenAt(parts, at)
    ensures var n, m := |parts| - 1, |at| - 1;
      if Spoken(parts[n]) then m >= 0 && at[m] == n && SpokenAt(parts[..n], at[..m])
      else SpokenAt(parts[..n], at)
  {
    hide Spoken;
    var n, m := |parts| - 1, |at| - 1;
    if Spoken(parts[n]) {
      var k := Position(at, n);
      assert at[m] <= n;
    }
    var before := if Spoken(parts[n]) then at[..m] else at;
    hide NoneLeft, Among;
    assert AllSpoken(parts[..n], before) by {
      forall k | 0 <= k < |before|
        ensures at[k] < n && parts[..n][at[k]] == parts[at[k]]
      {
      }
    }
    FewerLeft(parts, at);
  }

  lemma FewerLeft(parts: seq<Json>, at: seq<nat>)
    requires parts != [] && NoneLeft(parts, at)
    requires var n, m := |parts| - 1, |at| - 1; Spoken(parts[n]) ==> m >= 0 && at[m] == n
    ensures var n, m := |parts| - 1, |at| - 1; NoneLeft(parts[..n], if Spoken(parts[n]) then at[..m] else at)
  {
    hide Spoken, Among;
    var n, m := |parts| - 1, |at| - 1;
    forall i | 0 <= i < n && Spoken(parts[..n][i])
      ensures Among(if Spoken(parts[n]) then at[..m] else at, i)
    {
      assert parts[..n][i] == parts[i];
      if Spoken(parts[n]) { AmongBefore(at, i); }
    }
  }

  lemma AmongBefore(at: seq<nat>, i: nat)
    requires at != [] && Among(at, i) && at[|at| - 1] != i
    ensures Among(at[..|at| - 1], i)
  {
    var k := Position(at, i);
    assert at[..|at| - 1][k] == i;
  }

  lemma Position(at: seq<nat>, i: nat) returns (k: nat)
    requires Among(at, i)
    ensures k < |at| && at[k] == i
  {
    k :| 0 <= k < |at| && at[k] == i;
  }

  lemma MoreSpoken(parts: seq<Json>, at: seq<nat>)
    requires parts != [] && SpokenAt(parts[..|parts| - 1], at)
    ensures SpokenAt(parts, if Spoken(parts[|parts| - 1]) then at + [|parts| - 1] else at)
  {
    hide Spoken, NoneLeft;
    var n := |parts| - 1;
    var more := if Spoken(parts[n]) then at + [n] else at;
    assert AllSpoken(parts, more) by {
      forall k | 0 <= k < |at|
        ensures at[k] < n && parts[..n][at[k]] == parts[at[k]]
      {
      }
    }
    MoreLeft(parts, at);
  }

  lemma MoreLeft(parts: seq<Json>, at: seq<nat>)
    requires parts != [] && NoneLeft(parts[..|parts| - 1], at)
    ensures NoneLeft(parts, if Spoken(parts[|parts| - 1]) then at + [|parts| - 1] else at)
  {
    hide Spoken;
    var n := |parts| - 1;
    assert Among(at + [n], n) && forall i :: Among(at, i) ==> Among(at + [n], i);
    hide Among;
    forall i | 0 <= i < n && Spoken(parts[i])
      ensures Among(at, i)
    {
      assert parts[..n][i] == parts[i];
    }
  }

  // There are such positions.
  lemma {:induction false} SpokenPositions(parts: seq<Json>) returns (at: seq<nat>)
    ensures SpokenAt(parts, at)
  {
    at := [];
    if parts != [] {
      var n := |parts| - 1;
      var before := SpokenPositions(parts[..n]);
      MoreSpoken(parts, before);
      at := if Spoken(parts[n]) then before + [n] else before;
    }
  }

  lemma PositionsInside(parts: seq<Json>, at: seq<nat>)
    requires SpokenAt(parts, at)
    ensures forall k | 0 <= k < |at| :: at[k] < |parts| && parts[at[k]].Obj?
    ensures parts == [] ==> at == []
  {
    hide NoneLeft;
    if at != [] { assert at[0] < |parts|; }
  }

  // Positions before n are not changed by what follows.
  lemma SpeechBefore(parts: seq<Json>, at: seq<nat>, n: nat)
    requires n <= |parts| && forall k | 0 <= k < |at| :: at[k] < n && parts[..n][at[k]].Obj?
    ensures forall k | 0 <= k < |at| :: parts[at[k]].Obj?
    ensures Speech(parts, at) == Speech(parts[..n], at)
  {
    assert forall k | 0 <= k < |at| :: parts[..n][at[k]] == parts[at[k]];
  }

  lemma SpeechSnoc(parts: seq<Json>, at: seq<nat>)
    requires at != [] && forall k | 0 <= k < |at| :: at[k] < |parts| && parts[at[k]].Obj?
    ensures var m := |at| - 1;
      Speech(parts, at) == Speech(parts, at[..m]) + [TrimSpace(StringField(parts[at[m]].fields, "text"))]
  {
  }

  lemma NoTexts()
    ensures PartTexts([]) == []
  {
  }

  // Their texts are what the parser collects.
  lemma {:induction false} SpeechIsPartTexts(parts: seq<Json>, at: seq<nat>)
    requires SpokenAt(parts, at)
    ensures Speech(parts, at) == PartTexts(parts)
    decreases |parts|
  {
    hide SpokenAt, Spoken, PartTexts;
    PositionsInside(parts, at);
    if parts == [] {
      NoTexts();
    } else {
      var n, m := |parts| - 1, |at| - 1;
      LastSpoken(parts, at);
      var before := if Spoken(parts[n]) then at[..m] else at;
      PositionsInside(parts[..n], before);
      SpeechIsPartTexts(parts[..n], before);
      PartTextsSnoc(parts[..n], parts[n]);
      assert parts == parts[..n] + [parts[n]];
      hide Speech;
      SpeechBefore(parts, before, n);
      if Spoken(parts[n]) { SpeechSnoc(parts, at); }
    }
  }

  // The text that the parser takes from a content is the one that the content says.
  lemma ContentReads(content: Json, text: string)
    ensures ReadsAs(content, text) <==> text == ContentText(content)
  {
    if content.Arr? {
      var at := SpokenPositions(content.items);
      SpeechIsPartTexts(content.items, at);
      hide SpokenAt, Join, PartTexts, Speech;
      if other: seq<nat> :| SpokenAt(content.items, other) && text == Join(Speech(content.items, other), "\n") {
        SpeechIsPartTexts(content.items, other);
      }
    }
  }

  // What a content says does not start with a space.
  lemma ContentStarts(content: Json)
    ensures ContentText(content) != "" ==> !IsSpace(ContentText(content)[0])
  {
    match content {
      case Str(s) => TrimSpaceIs(s);
      case Arr(parts) => PartTextsStart(parts);
      case _ =>
    }
  }

  lemma {:induction false} PartTextsStart(parts: seq<Json>)
    ensures PartTexts(parts) != [] ==> PartTexts(parts)[0] != "" && !IsSpace(PartTexts(parts)[0][0])
  {
    if parts != [] {
      PartTextsStart(parts[1..]);
      if parts[0].Obj? { TrimSpaceIs(StringField(parts[0].fields, "text")); }
    }
  }

  // ---------- Thinking does not matter ----------

  // The parts that are not thinking, in order.
  function Aloud(parts: seq<Json>): seq<Json> {
    if parts == [] then []
    else if Thinking(parts[0]) then Aloud(parts[1..])
    else [parts[0]] + Aloud(parts[1..])
  }

  // Two contents that differ in their thinking alone.
  ghost predicate SameAloud(a: Json, b: Json) { a == b || (a.Arr? && b.Arr? && Aloud(a.items) == Aloud(b.items)) }

  // Two lines that differ in the thinking of their message alone; the message of a Codex line
  // is its payload.
  ghost predicate SameLine(o: Origin, a: Line, b: Line) {
    var key := if o.harness in {"pi", "omp", "grokbot", "claude"} then "message" else "payload";
    a == b ||
    exists content: Json, content': Json :: ThoughtsDiffer(a, b, key, content, content')
  }

  ghost predicate ThoughtsDiffer(a: Line, b: Line, key: string, content: Json, content': Json) {
    && a.Object? && b.Object? && SameAloud(content, content')
    && key in a.fields && a.fields[key].Obj? && Get(a.fields[key].fields, "content") == content
    && b.fields == a.fields[key := Obj(a.fields[key].fields["content" := content'])]
  }

  lemma {:induction false} AloudTexts(parts: seq<Json>)
    ensures PartTexts(Aloud(parts)) == PartTexts(parts)
  {
    if parts != [] {
      AloudTexts(parts[1..]);
      assert !Thinking(parts[0]) ==> ([parts[0]] + Aloud(parts[1..]))[1..] == Aloud(parts[1..]);
    }
  }

  lemma {:induction false} AloudParts(codec: Codec, o: Origin, st: State, obj: Fields, parts: seq<Json>, role: string,
                                      ts: int)
    ensures ClaudeParts(codec, o, st, obj, Aloud(parts), role, ts) == ClaudeParts(codec, o, st, obj, parts, role, ts)
    decreases |parts|
  {
    if parts != [] {
      var part := match parts[0] case Obj(f) => f case _ => map[];
      SilentPart(codec, o, st, obj, parts[0], role, ts);
      hide ClaudePart;
      AloudParts(codec, o, ClaudePart(codec, o, st, obj, part, role, ts), obj, parts[1..], role, ts);
      assert !Thinking(parts[0]) ==>
        Aloud(parts)[0] == parts[0] && Aloud(parts)[1..] == Aloud(parts[1..]);
    }
  }

  lemma SilentPart(codec: Codec, o: Origin, st: State, obj: Fields, part: Json, role: string, ts: int)
    ensures Thinking(part) ==> ClaudePart(codec, o, st, obj, part.fields, role, ts) == st
  {
    hide AddText, TodoText, BashToolText, ToolResultText;
  }

  lemma SameTexts(codec: Codec, o: Origin, st: State, obj: Fields, a: Json, b: Json, role: string, ts: int)
    requires SameAloud(a, b)
    ensures ContentText(a) == ContentText(b)
    ensures a.Arr? <==> b.Arr?
    ensures a.Arr? ==>
      ClaudeParts(codec, o, st, obj, a.items, role, ts) == ClaudeParts(codec, o, st, obj, b.items, role, ts)
  {
    if a.Arr? {
      AloudTexts(a.items);
      AloudTexts(b.items);
      AloudParts(codec, o, st, obj, a.items, role, ts);
      AloudParts(codec, o, st, obj, b.items, role, ts);
    }
    hide ClaudeParts, PartTexts, Aloud, Join;
  }

  // Apart from one key the objects read alike.
  ghost predicate SameFields(m: Fields, m': Fields, key: string) {
    forall k: string :: k != key ==> Get(m, k) == Get(m', k)
  }

  lemma OneFieldDiffers(m: Fields, key: string, v: Json)
    ensures SameFields(m, m[key := v], key) && Get(m[key := v], key) == v
  {
  }

  lemma TodoSame(codec: Codec, m: Fields, m': Fields, key: string, source: string)
    requires SameFields(m, m', key) && key in {"content", "message", "payload"}
    requires ContentText(Get(m, "content")) == ContentText(Get(m', "content"))
    ensures TodoText(codec, m, source) == TodoText(codec, m', source)
  {
    hide ContentText, CompactJson;
    var a, b := [Get(m, "details"), Get(m, "data"), Obj(m)], [Get(m', "details"), Get(m', "data"), Obj(m')];
    assert a[1..][1..] == [Obj(m)] && b[1..][1..] == [Obj(m')];
    assert TodoState(codec, [Obj(m)]) == TodoState(codec, [Obj(m')]);
    assert TodoState(codec, a[1..]) == TodoState(codec, b[1..]);
  }

  lemma ResultSame(codec: Codec, m: Fields, m': Fields, tool: string)
    requires SameFields(m, m', "content") && ContentText(Get(m, "content")) == ContentText(Get(m', "content"))
    ensures ToolResultText(codec, m, tool) == ToolResultText(codec, m', tool)
  {
    hide ContentText, CompactJson, FirstValue;
  }

  lemma TitleSame(m: Fields, m': Fields, key: string, source: string)
    requires SameFields(m, m', key) && key in {"content", "message", "payload"}
    ensures TitleText(m, source) == TitleText(m', source)
  {
    var keys := ["title", "name", "summary", "aiTitle", "customTitle"];
    FirstSame(m, m', key, keys);
  }

  lemma {:induction false} FirstSame(m: Fields, m': Fields, key: string, keys: seq<string>)
    requires SameFields(m, m', key) && key !in keys
    ensures FirstStringField(m, keys) == FirstStringField(m', keys)
  {
    if keys != [] { FirstSame(m, m', key, keys[1..]); }
  }

  lemma {:induction false} PartsOfObject(codec: Codec, o: Origin, st: State, obj: Fields, obj': Fields,
                                         parts: seq<Json>, role: string, ts: int)
    requires Get(obj, "toolUseResult") == Get(obj', "toolUseResult")
    ensures ClaudeParts(codec, o, st, obj, parts, role, ts) == ClaudeParts(codec, o, st, obj', parts, role, ts)
    decreases |parts|
  {
    hide AddText, TodoText, BashToolText, ToolResultText;
    if parts != [] {
      var part := match parts[0] case Obj(f) => f case _ => map[];
      assert ClaudePart(codec, o, st, obj, part, role, ts) == ClaudePart(codec, o, st, obj', part, role, ts);
      hide ClaudePart;
      PartsOfObject(codec, o, ClaudePart(codec, o, st, obj, part, role, ts), obj, obj', parts[1..], role, ts);
    }
  }

  lemma ClaudeReads(codec: Codec, o: Origin, st: State, obj: Fields, obj': Fields, includeState: bool)
    requires Get(obj, "timestamp") == Get(obj', "timestamp") && Get(obj, "isMeta") == Get(obj', "isMeta")
    requires StringField(obj, "cwd") == StringField(obj', "cwd")
      && StringField(obj, "type") == StringField(obj', "type")
    requires TitleText(obj, StringField(obj, "type")) == TitleText(obj', StringField(obj, "type"))
    requires forall s: State ::
      ClaudeMessage(codec, o, s, obj, includeState) == ClaudeMessage(codec, o, s, obj', includeState)
    ensures ClaudeStep(codec, o, st, obj, includeState) == ClaudeStep(codec, o, st, obj', includeState)
  {
    hide ClaudeMessage, TitleText, Timestamp, FlushPending, AddTitle, ProjectFromCwd, Get, StringField, Short;
  }

  lemma ClaudeSame(codec: Codec, o: Origin, st: State, obj: Fields, obj': Fields, includeState: bool)
    requires SameFields(obj, obj', "message")
    requires var m, m' := MapField(obj, "message"), MapField(obj', "message");
      SameFields(m, m', "content") && SameAloud(Get(m, "content"), Get(m', "content"))
    ensures ClaudeStep(codec, o, st, obj, includeState) == ClaudeStep(codec, o, st, obj', includeState)
  {
    hide ClaudeStep, ClaudeMessage, SameAloud;
    TitleSame(obj, obj', "message", StringField(obj, "type"));
    forall s: State
      ensures ClaudeMessage(codec, o, s, obj, includeState) == ClaudeMessage(codec, o, s, obj', includeState)
    {
      ClaudeMessageSame(codec, o, s, obj, obj', includeState);
    }
    ClaudeReads(codec, o, st, obj, obj', includeState);
  }

  lemma ClaudeMessageSame(codec: Codec, o: Origin, st: State, obj: Fields, obj': Fields, includeState: bool)
    requires SameFields(obj, obj', "message")
    requires var m, m' := MapField(obj, "message"), MapField(obj', "message");
      SameFields(m, m', "content") && SameAloud(Get(m, "content"), Get(m', "content"))
    ensures ClaudeMessage(codec, o, st, obj, includeState) == ClaudeMessage(codec, o, st, obj', includeState)
  {
    hide ClaudeParts, ContentText, IndexableMessage, Timestamp, Add, SameAloud;
    var m, m' := MapField(obj, "message"), MapField(obj', "message");
    var a, b := Get(m, "content"), Get(m', "content");
    var role, ts := StringField(m, "role"), Timestamp(codec, Get(obj, "timestamp"));
    SameTexts(codec, o, st, obj, a, b, role, ts);
    if b.Arr? { PartsOfObject(codec, o, st, obj, obj', b.items, role, ts); }
  }

  lemma PiMessageReads(codec: Codec, o: Origin, st: State, obj: Fields, obj': Fields, entryId: string,
                       includeState: bool)
    requires var m, m' := MapField(obj, "message"), MapField(obj', "message");
      && Get(obj, "timestamp") == Get(obj', "timestamp") && Get(m, "timestamp") == Get(m', "timestamp")
      && StringField(m, "role") == StringField(m', "role") && StringField(m, "toolName") == StringField(m', "toolName")
      && ContentText(Get(m, "content")) == ContentText(Get(m', "content"))
      && TodoText(codec, m, "todo") == TodoText(codec, m', "todo")
      && ToolResultText(codec, m, "task") == ToolResultText(codec, m', "task")
    ensures PiMessage(codec, o, st, obj, entryId, includeState) == PiMessage(codec, o, st, obj', entryId, includeState)
  {
    hide Get, StringField, MapField, TodoText, ToolResultText, ContentText, IndexableMessage, Timestamp, FirstValue,
      Add,
      AddText;
  }

  lemma PiMessageSame(codec: Codec, o: Origin, st: State, obj: Fields, obj': Fields, entryId: string,
                      includeState: bool)
    requires Get(obj, "timestamp") == Get(obj', "timestamp")
    requires var m, m' := MapField(obj, "message"), MapField(obj', "message");
      SameFields(m, m', "content") && SameAloud(Get(m, "content"), Get(m', "content"))
    ensures PiMessage(codec, o, st, obj, entryId, includeState) == PiMessage(codec, o, st, obj', entryId, includeState)
  {
    hide PiMessage, SameAloud, TodoText, ToolResultText, ContentText;
    var m, m' := MapField(obj, "message"), MapField(obj', "message");
    SameTexts(codec, o, st, obj, Get(m, "content"), Get(m', "content"), "", 0);
    TodoSame(codec, m, m', "content", "todo");
    ResultSame(codec, m, m', "task");
    PiMessageReads(codec, o, st, obj, obj', entryId, includeState);
  }

  lemma PiReads(codec: Codec, o: Origin, st: State, obj: Fields, obj': Fields, lineNo: nat, includeState: bool)
    requires Get(obj, "timestamp") == Get(obj', "timestamp") && Get(obj, "updatedAt") == Get(obj', "updatedAt")
    requires StringField(obj, "id") == StringField(obj', "id") && StringField(obj, "type") == StringField(obj', "type")
    requires StringField(obj, "cwd") == StringField(obj', "cwd")
    requires StringField(obj, "customType") == StringField(obj', "customType")
    requires TitleText(obj, "session") == TitleText(obj', "session")
    requires TitleText(obj, StringField(obj, "type")) == TitleText(obj', StringField(obj, "type"))
    requires TodoText(codec, obj, "user_todo_edit") == TodoText(codec, obj', "user_todo_edit")
    requires var id := ValueOr(StringField(obj, "id"), LineId(lineNo));
      PiMessage(codec, o, st, obj, id, includeState) == PiMessage(codec, o, st, obj', id, includeState)
    ensures PiStep(codec, o, st, obj, lineNo, includeState) == PiStep(codec, o, st, obj', lineNo, includeState)
  {
    hide PiMessage, TitleText, TodoText, Timestamp, FirstValue, FlushPending, AddText, AddTitle, ProjectFromCwd, Get,
      StringField, ValueOr, LineId;
  }

  lemma PiSame(codec: Codec, o: Origin, st: State, obj: Fields, obj': Fields, lineNo: nat, includeState: bool)
    requires SameFields(obj, obj', "message")
    requires var m, m' := MapField(obj, "message"), MapField(obj', "message");
      SameFields(m, m', "content") && SameAloud(Get(m, "content"), Get(m', "content"))
    ensures PiStep(codec, o, st, obj, lineNo, includeState) == PiStep(codec, o, st, obj', lineNo, includeState)
  {
    hide PiStep, PiMessage, SameAloud, TodoText, ToolResultText, TitleText, ContentText, ValueOr, LineId;
    TodoSame(codec, obj, obj', "message", "user_todo_edit");
    TitleSame(obj, obj', "message", "session");
    TitleSame(obj, obj', "message", StringField(obj, "type"));
    PiMessageSame(codec, o, st, obj, obj', ValueOr(StringField(obj, "id"), LineId(lineNo)), includeState);
    PiReads(codec, o, st, obj, obj', lineNo, includeState);
  }

  lemma CodexReads(codec: Codec, o: Origin, st: State, obj: Fields, obj': Fields, lineNo: nat, includeState: bool)
    requires lineNo > 0 && Get(obj, "timestamp") == Get(obj', "timestamp")
    requires StringField(obj, "type") == StringField(obj', "type")
    requires var m, m' := MapField(obj, "payload"), MapField(obj', "payload");
      && StringField(m, "id") == StringField(m', "id") && StringField(m, "cwd") == StringField(m', "cwd")
      && StringField(m, "type") == StringField(m', "type") && StringField(m, "role") == StringField(m', "role")
      && ContentText(Get(m, "content")) == ContentText(Get(m', "content"))
      && TitleText(m, "session") == TitleText(m', "session")
    ensures CodexStep(codec, o, st, obj, lineNo, includeState) == CodexStep(codec, o, st, obj', lineNo, includeState)
  {
    hide TitleText, ContentText, IndexableMessage, Timestamp, Add, AddText, ProjectFromCwd, Get, StringField, MapField,
      ValueOr, LineId, Short, TrimSpace;
  }

  lemma CodexSame(codec: Codec, o: Origin, st: State, obj: Fields, obj': Fields, lineNo: nat, includeState: bool)
    requires lineNo > 0 && SameFields(obj, obj', "payload")
    requires var m, m' := MapField(obj, "payload"), MapField(obj', "payload");
      SameFields(m, m', "content") && SameAloud(Get(m, "content"), Get(m', "content"))
    ensures CodexStep(codec, o, st, obj, lineNo, includeState) == CodexStep(codec, o, st, obj', lineNo, includeState)
  {
    hide CodexStep, SameAloud, TitleText, ContentText;
    var m, m' := MapField(obj, "payload"), MapField(obj', "payload");
    SameTexts(codec, o, st, obj, Get(m, "content"), Get(m', "content"), "", 0);
    TitleSame(m, m', "content", "session");
    CodexReads(codec, o, st, obj, obj', lineNo, includeState);
  }

  lemma GrokReads(codec: Codec, o: Origin, st: State, obj: Fields, obj': Fields, lineNo: nat)
    requires Get(obj, "timestamp") == Get(obj', "timestamp") && MapField(obj, "params") == MapField(obj', "params")
    requires StringField(obj, "method") == StringField(obj', "method")
    ensures GrokStep(codec, o, st, obj, lineNo) == GrokStep(codec, o, st, obj', lineNo)
  {
    hide Get, StringField, MapField, ValueOr, LineId, TrimSpace, IndexableMessage, Timestamp, FirstValue, Add;
  }

  lemma GrokSame(codec: Codec, o: Origin, st: State, obj: Fields, obj': Fields, lineNo: nat)
    requires SameFields(obj, obj', "payload")
    ensures GrokStep(codec, o, st, obj, lineNo) == GrokStep(codec, o, st, obj', lineNo)
  {
    hide GrokStep;
    GrokReads(codec, o, st, obj, obj', lineNo);
  }

  lemma SameObjects(a: Line, b: Line, key: string)
    requires exists content: Json, content': Json :: ThoughtsDiffer(a, b, key, content, content')
    ensures a.Object? && b.Object? && SameFields(a.fields, b.fields, key)
    ensures var m, m' := MapField(a.fields, key), MapField(b.fields, key);
      SameFields(m, m', "content") && SameAloud(Get(m, "content"), Get(m', "content"))
  {
    hide SameAloud;
    var content: Json, content': Json :| ThoughtsDiffer(a, b, key, content, content');
    var m := a.fields[key].fields;
    OneFieldDiffers(m, "content", content');
    OneFieldDiffers(a.fields, key, Obj(m["content" := content']));
    assert MapField(a.fields, key) == m && MapField(b.fields, key) == m["content" := content'];
  }

  lemma SameLineSteps(codec: Codec, o: Origin, st: State, a: Line, b: Line, lineNo: nat, includeState: bool)
    requires lineNo > 0 && SameLine(o, a, b)
    ensures Step(codec, o, st, a, lineNo, includeState) == Step(codec, o, st, b, lineNo, includeState)
  {
    hide ThoughtsDiffer, GrokStep, ClaudeStep, PiStep, CodexStep, SameFields, SameAloud, Get, MapField;
    if a != b {
      SameObjects(a, b, if o.harness in {"pi", "omp", "grokbot", "claude"} then "message" else "payload");
      if o.harness == "grok" { GrokSame(codec, o, st, a.fields, b.fields, lineNo); }
      else if o.harness == "claude" { ClaudeSame(codec, o, st, a.fields, b.fields, includeState); }
      else if o.harness in {"pi", "omp", "grokbot"} { PiSame(codec, o, st, a.fields, b.fields, lineNo, includeState); }
      else { CodexSame(codec, o, st, a.fields, b.fields, lineNo, includeState); }
    }
  }

  // Dropping or changing what was thought changes no row of a parse, with state rows or
  // without.
  lemma {:induction false} ThoughtsChangeNothing(codec: Codec, o: Origin, key: string, lines: seq<Line>,
                                                 lines': seq<Line>, includeState: bool)
    requires |lines| == |lines'| && forall i | 0 <= i < |lines| :: SameLine(o, lines[i], lines'[i])
    ensures Run(codec, o, key, lines, includeState) == Run(codec, o, key, lines', includeState)
  {
    if lines != [] {
      var n := |lines| - 1;
      ThoughtsChangeNothing(codec, o, key, lines[..n], lines'[..n], includeState);
      hide SameLine, Step;
      SameLineSteps(codec, o, Run(codec, o, key, lines[..n], includeState), lines[n], lines'[n], n + 1, includeState);
    }
  }
}
