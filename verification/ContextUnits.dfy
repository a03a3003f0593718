// Contextual units: each record is embedded behind a header and the lines it follows,
// replies to or answers (context.go).
module ContextUnits {
  import opened Wrappers
  import opened Records
  import opened Text

  const TELEGRAM_LEAD_GAP: int := 10 * 60
  const TELEGRAM_LEAD_LINES: nat := 2
  const CONTEXT_LINE_RUNES: nat := 200
  const QUESTION_RUNES: nat := 300

  // Go's %q quoting and SHA-256, about which nothing is assumed here.
  datatype Codec = Codec(quote: string -> string, hash: string -> string)

  datatype ChunkGroup = ChunkGroup(id: string, meta: Metadata, header: string, text: string, pending: seq<MemoryItem>)

  function JoinHeader(header: string, body: string): string {
    if header == "" then body else header + "\n" + body
  }

  // ---------- Pure helpers ----------

  const HARNESS_NAMES: map<string, string> :=
    map["claude" := "Claude Code", "codex" := "Codex", "pi" := "Pi", "omp" := "OMP", "grok" := "Grok",
        "grokbot" := "Grok bot"]

  const TELEGRAM_KINDS: map<string, string> :=
    map["dm" := "direct chat", "group" := "group", "channel" := "channel", "topic" := "group topic"]

  function Lookup(names: map<string, string>, key: string): string {
    if key in names then names[key] else ""
  }

  // Names the chat, contact or session of a record; it is never empty.
  function ContextHeader(codec: Codec, m: Metadata): (header: string)
    ensures header != ""
  {
    var title := TrimSpace(m.containerTitle);
    if m.source == "telegram" then
      "Telegram " + ValueOr(Lookup(TELEGRAM_KINDS, m.containerKind), "chat")
        + (if title == "" then "" else " " + codec.quote(title))
    else if m.source == "crm" then
      "CRM notes on " + codec.quote(ValueOr(title, m.containerId))
    else
      ValueOr(Lookup(HARNESS_NAMES, m.source), m.source) + " session"
        + (if title == "" then "" else " " + codec.quote(title))
        + (if m.project != "" && m.project != "unknown" then " in " + m.project else "")
  }

  // Strips the "TITLE <source>: " marker.
  function SessionTitle(text: string): string {
    var cut := IndexOf(text, ": ");
    if HasPrefix(text, "TITLE ") && cut.Some? then TrimSpace(text[cut.value + 2..]) else TrimSpace(text)
  }

  // The words of a text with single spaces between them, cut at n runes.
  function ClipLine(text: string, n: nat): string {
    var line := Join(Fields(text), " ");
    if |line| > n then line[..n] + "…" else line
  }

  function TelegramAuthor(m: Metadata): string {
    if m.authorName != "" then m.authorName else m.authorId
  }

  function LineOf(item: MemoryItem): string {
    var author := TelegramAuthor(item.metadata);
    if author != "" then author + ": " + item.text else item.text
  }

  predicate IsTelegram(item: MemoryItem) { item.metadata.source == "telegram" }

  predicate IsChat(item: MemoryItem) { IsTelegram(item) && item.metadata.containerKind != "channel" }

  predicate IsPrompt(item: MemoryItem) {
    !IsTelegram(item) && item.metadata.kind == "message" && item.metadata.authorId == "user"
  }

  // ---------- The unit of one record, by itself ----------

  // A kind of earlier record that a unit may refer to.
  datatype Reference =
    | TitleIn(containerId: string)
    | Named(id: string)
    | ChatIn(containerId: string)
    | PromptIn(containerId: string)

  predicate Matches(item: MemoryItem, ref: Reference) {
    match ref
    case TitleIn(containerId) => item.metadata.kind == "title" && item.metadata.containerId == containerId
    case Named(id) => IsTelegram(item) && item.id == id
    case ChatIn(containerId) => IsChat(item) && item.metadata.containerId == containerId
    case PromptIn(containerId) => IsPrompt(item) && item.metadata.containerId == containerId
  }

  // The last of the first n records that matches.
  function Last(items: seq<MemoryItem>, n: nat, ref: Reference): (r: Option<nat>)
    requires n <= |items|
    ensures r.Some? ==>
      r.value < n && Matches(items[r.value], ref) && forall j :: r.value < j < n ==> !Matches(items[j], ref)
    ensures r.None? ==> forall j :: 0 <= j < n ==> !Matches(items[j], ref)
  {
    if n == 0 then None else if Matches(items[n - 1], ref) then Some(n - 1) else Last(items, n - 1, ref)
  }

  // The container's last title anywhere in the object.
  function TitleOf(items: seq<MemoryItem>, n: nat, containerId: string): string
    requires n <= |items|
  {
    var last := Last(items, n, TitleIn(containerId));
    if last.Some? then SessionTitle(items[last.value].text) else ""
  }

  // The last two messages of the chat before position i, oldest first.
  function LeadBefore(items: seq<MemoryItem>, i: nat, containerId: string): (lead: seq<nat>)
    requires i <= |items|
    ensures forall k :: 0 <= k < |lead| ==> lead[k] < i && Matches(items[lead[k]], ChatIn(containerId))
  {
    var last := Last(items, i, ChatIn(containerId));
    if last.None? then []
    else
      var before := Last(items, last.value, ChatIn(containerId));
      if before.None? then [last.value] else [before.value, last.value]
  }

  function QuestionBefore(items: seq<MemoryItem>, i: nat, containerId: string): string
    requires i <= |items|
  {
    var last := Last(items, i, PromptIn(containerId));
    if last.Some? then ClipLine(items[last.value].text, QUESTION_RUNES) else ""
  }

  // Of the lead, those within the gap.
  function Recent(items: seq<MemoryItem>, lead: seq<nat>, timestamp: int): (r: seq<nat>)
    requires forall k :: 0 <= k < |lead| ==> lead[k] < |items|
    ensures forall k :: 0 <= k < |r| ==> r[k] < |items| && r[k] in lead
  {
    if lead == [] then []
    else
      var rest := Recent(items, lead[1..], timestamp);
      if timestamp - items[lead[0]].metadata.timestamp <= TELEGRAM_LEAD_GAP then [lead[0]] + rest else rest
  }

  function LineNamed(items: seq<MemoryItem>, i: nat, id: string): string
    requires i <= |items|
  {
    var at := Last(items, i, Named(id));
    if at.Some? then LineOf(items[at.value]) else ""
  }

  function LeadLines(items: seq<MemoryItem>, i: nat, recent: seq<nat>): seq<string>
    requires i <= |items| && forall k :: 0 <= k < |recent| ==> recent[k] < |items|
  {
    if recent == [] then []
    else [ClipLine(LineNamed(items, i, items[recent[0]].id), CONTEXT_LINE_RUNES)] + LeadLines(items, i, recent[1..])
  }

  predicate Quotes(items: seq<MemoryItem>, recent: seq<nat>, id: string)
    requires forall k :: 0 <= k < |recent| ==> recent[k] < |items|
  {
    exists k :: 0 <= k < |recent| && items[recent[k]].id == id
  }

  // The lines above a Telegram record: the replied-to line unless it is quoted already,
  // then the recent lines of its chat.
  function ChatContext(items: seq<MemoryItem>, i: nat): seq<string>
    requires i < |items|
  {
    var m := items[i].metadata;
    var recent := Recent(items, LeadBefore(items, i, m.containerId), m.timestamp);
    var parent := Last(items, i, Named(m.replyTo));
    (if parent.Some? && !Quotes(items, recent, m.replyTo)
     then ["> " + ClipLine(LineOf(items[parent.value]), CONTEXT_LINE_RUNES)] else [])
      + LeadLines(items, i, recent)
  }

  function BodyOf(items: seq<MemoryItem>, i: nat): seq<string>
    requires i < |items|
  {
    var item := items[i];
    var m := item.metadata;
    if IsTelegram(item) then (if IsChat(item) then ChatContext(items, i) else []) + [LineOf(item)]
    else if IsPrompt(item) then [item.text]
    else
      var question := QuestionBefore(items, i, m.containerId);
      if m.kind == "message" && m.authorId == "assistant" && question != "" then ["Re: " + question, item.text]
        else [item.text]
  }

  // A record's group from its container's title and its body, with the hash of both, and
  // the record itself as pending.
  function MakeUnit(codec: Codec, item: MemoryItem, sessionTitle: string, body: seq<string>): ChunkGroup {
    var title := if item.metadata.containerTitle == "" then sessionTitle else item.metadata.containerTitle;
    var meta := item.metadata.(containerTitle := title);
    var header, text := ContextHeader(codec, meta), Join(body, "\n");
    var hash := codec.hash(JoinHeader(header, text));
    ChunkGroup(item.id, meta.(contentHash := hash), header, text,
               [item.(metadata := item.metadata.(contentHash := hash, containerTitle := title))])
  }

  function UnitOf(codec: Codec, items: seq<MemoryItem>, i: nat): ChunkGroup
    requires i < |items|
  {
    MakeUnit(codec, items[i], TitleOf(items, |items|, items[i].metadata.containerId), BodyOf(items, i))
  }

  // The units of the first n records that are pending, in object order.
  function PendingUnits(codec: Codec, items: seq<MemoryItem>, pending: (MemoryItem, string) -> bool,
                        n: nat): seq<ChunkGroup>
    requires n <= |items|
  {
    if n == 0 then []
    else
      var unit := UnitOf(codec, items, n - 1);
      PendingUnits(codec, items, pending, n - 1)
        + (if pending(items[n - 1], unit.meta.contentHash) then [unit] else [])
  }

  // ---------- The fold that computes the units ----------

  function Get<V>(m: map<string, V>, key: string, default: V): V {
    if key in m then m[key] else default
  }

  function ItemsAt(items: seq<MemoryItem>, at: seq<nat>): seq<MemoryItem>
    requires forall k :: 0 <= k < |at| ==> at[k] < |items|
  {
    seq(|at|, k requires 0 <= k < |at| => items[at[k]])
  }

  // What the maps hold after n records.
  ghost predicate LinesAt(items: seq<MemoryItem>, n: nat, lines: map<string, string>)
    requires n <= |items|
  {
    forall id: string :: && (id in lines <==> Last(items, n, Named(id)).Some?)
                         && Get(lines, id, "") == LineNamed(items, n, id)
  }

  ghost predicate LeadAt(items: seq<MemoryItem>, n: nat, lead: map<string, seq<MemoryItem>>)
    requires n <= |items|
  {
    forall c: string :: Get(lead, c, []) == ItemsAt(items, LeadBefore(items, n, c))
  }

  ghost predicate QuestionsAt(items: seq<MemoryItem>, n: nat, questions: map<string, string>)
    requires n <= |items|
  {
    forall c: string :: Get(questions, c, "") == QuestionBefore(items, n, c)
  }

  ghost predicate TitlesAt(items: seq<MemoryItem>, n: nat, titles: map<string, string>)
    requires n <= |items|
  {
    forall c: string :: Get(titles, c, "") == TitleOf(items, n, c)
  }

  lemma LinesStep(items: seq<MemoryItem>, n: nat, lines: map<string, string>)
    requires n < |items| && LinesAt(items, n, lines)
    ensures LinesAt(items, n + 1, if IsTelegram(items[n]) then lines[items[n].id := LineOf(items[n])] else lines)
  {
  }

  lemma LeadStep(items: seq<MemoryItem>, n: nat, lead: map<string, seq<MemoryItem>>)
    requires n < |items| && LeadAt(items, n, lead)
    ensures var c := items[n].metadata.containerId;
            LeadAt(items, n + 1, if IsChat(items[n]) then lead[c := Latest(Get(lead, c, []) + [items[n]])] else lead)
  {
    var c := items[n].metadata.containerId;
    var lead' := if IsChat(items[n]) then lead[c := Latest(Get(lead, c, []) + [items[n]])] else lead;
    forall d: string
      ensures Get(lead', d, []) == ItemsAt(items, LeadBefore(items, n + 1, d))
    {
      assert Get(lead, d, []) == ItemsAt(items, LeadBefore(items, n, d));
      LeadStepAt(items, n, d);
    }
  }

  lemma LeadStepAt(items: seq<MemoryItem>, n: nat, c: string)
    requires n < |items|
    ensures ItemsAt(items, LeadBefore(items, n + 1, c)) ==
            if Matches(items[n], ChatIn(c)) then Latest(ItemsAt(items, LeadBefore(items, n, c)) + [items[n]])
            else ItemsAt(items, LeadBefore(items, n, c))
  {
    var last := Last(items, n, ChatIn(c));
    assert Last(items, n + 1, ChatIn(c)) == if Matches(items[n], ChatIn(c)) then Some(n) else last;
    hide Last, Matches;
    var before, after := LeadBefore(items, n, c), LeadBefore(items, n + 1, c);
    if Matches(items[n], ChatIn(c)) {
      var history := ItemsAt(items, before) + [items[n]];
      if last.None? {
        assert ItemsAt(items, after) == [items[n]] == Latest(history);
      } else {
        assert after == [last.value, n] && before[|before| - 1] == last.value;
        assert Latest(history) == [items[last.value], items[n]];
      }
    }
  }

  lemma QuestionsStep(items: seq<MemoryItem>, n: nat, questions: map<string, string>)
    requires n < |items| && QuestionsAt(items, n, questions)
    ensures QuestionsAt(items, n + 1, if IsPrompt(items[n])
                                      then questions[items[n].metadata.containerId :=
                                                     ClipLine(items[n].text, QUESTION_RUNES)] else questions)
  {
    hide ClipLine;
    var c := items[n].metadata.containerId;
    var questions' := if IsPrompt(items[n]) then questions[c := ClipLine(items[n].text, QUESTION_RUNES)] else questions;
    forall d: string
      ensures Get(questions', d, "") == QuestionBefore(items, n + 1, d)
    {
      assert Get(questions, d, "") == QuestionBefore(items, n, d);
      assert Last(items, n + 1, PromptIn(d)) ==
        if IsPrompt(items[n]) && d == c then Some(n) else Last(items, n, PromptIn(d));
    }
  }

  lemma TitlesStep(items: seq<MemoryItem>, n: nat, titles: map<string, string>)
    requires n < |items| && TitlesAt(items, n, titles)
    ensures TitlesAt(items, n + 1, if items[n].metadata.kind == "title"
                                   then titles[items[n].metadata.containerId := SessionTitle(items[n].text)]
                                     else titles)
  {
    hide SessionTitle;
    var c := items[n].metadata.containerId;
    var isTitle := items[n].metadata.kind == "title";
    var titles' := if isTitle then titles[c := SessionTitle(items[n].text)] else titles;
    forall d: string
      ensures Get(titles', d, "") == TitleOf(items, n + 1, d)
    {
      assert Get(titles, d, "") == TitleOf(items, n, d);
      assert Last(items, n + 1, TitleIn(d)) == if isTitle && d == c then Some(n) else Last(items, n, TitleIn(d));
    }
  }

  // The last two of a chat's messages.
  function Latest(recent: seq<MemoryItem>): seq<MemoryItem> {
    if |recent| > TELEGRAM_LEAD_LINES then recent[|recent| - TELEGRAM_LEAD_LINES..] else recent
  }

  // The lead-in lines of one message, and whether one of them is the replied-to line.
  method LeadIn(items: seq<MemoryItem>, i: nat, lead: seq<MemoryItem>, lines: map<string, string>)
    returns (body: seq<string>, quoted: bool)
    requires i < |items| && LinesAt(items, i, lines)
    requires lead == ItemsAt(items, LeadBefore(items, i, items[i].metadata.containerId))
    ensures var m := items[i].metadata;
            var recent := Recent(items, LeadBefore(items, i, m.containerId), m.timestamp);
            body == LeadLines(items, i, recent) && quoted == Quotes(items, recent, m.replyTo)
  {
    hide Recent, LeadLines, Quotes, LinesAt, Get, LineNamed, LeadBefore, Last;
    var m := items[i].metadata;
    ghost var at := LeadBefore(items, i, m.containerId);
    body, quoted := [], false;
    assert at[0..] == at;
    NoLead(items, i, m);
    for k := 0 to |lead|
      invariant body + LeadLines(items, i, Recent(items, at[k..], m.timestamp)) ==
        LeadLines(items, i, Recent(items, at, m.timestamp))
      invariant quoted || Quotes(items, Recent(items, at[k..], m.timestamp), m.replyTo)
                <==> Quotes(items, Recent(items, at, m.timestamp), m.replyTo)
    {
      LeadCons(items, i, at, k, m);
      LineKnown(items, i, lines, lead[k].id);
      if m.timestamp - lead[k].metadata.timestamp <= TELEGRAM_LEAD_GAP {
        body := body + [ClipLine(Get(lines, lead[k].id, ""), CONTEXT_LINE_RUNES)];
        quoted := quoted || lead[k].id == m.replyTo;
      }
    }
  }

  lemma NoLead(items: seq<MemoryItem>, i: nat, m: Metadata)
    requires i <= |items|
    ensures Recent(items, [], m.timestamp) == [] && LeadLines(items, i, []) == [] && !Quotes(items, [], m.replyTo)
  {
  }

  lemma LineKnown(items: seq<MemoryItem>, i: nat, lines: map<string, string>, id: string)
    requires i <= |items| && LinesAt(items, i, lines)
    ensures Get(lines, id, "") == LineNamed(items, i, id) && (id in lines <==> Last(items, i, Named(id)).Some?)
  {
  }

  lemma LeadCons(items: seq<MemoryItem>, i: nat, at: seq<nat>, k: nat, m: Metadata)
    requires i <= |items| && k < |at| && forall j :: 0 <= j < |at| ==> at[j] < |items|
    ensures var recent, rest := Recent(items, at[k..], m.timestamp), Recent(items, at[k + 1..], m.timestamp);
      if m.timestamp - items[at[k]].metadata.timestamp <= TELEGRAM_LEAD_GAP then
        && LeadLines(items, i, recent) ==
           [ClipLine(LineNamed(items, i, items[at[k]].id), CONTEXT_LINE_RUNES)] + LeadLines(items, i, rest)
        && (Quotes(items, recent, m.replyTo) <==> items[at[k]].id == m.replyTo || Quotes(items, rest, m.replyTo))
      else recent == rest
  {
    assert at[k..][1..] == at[k + 1..];
    var rest := Recent(items, at[k + 1..], m.timestamp);
    if m.timestamp - items[at[k]].metadata.timestamp <= TELEGRAM_LEAD_GAP {
      assert ([at[k]] + rest)[1..] == rest;
      QuotesCons(items, at[k], rest, m.replyTo);
    }
  }

  lemma QuotesCons(items: seq<MemoryItem>, first: nat, rest: seq<nat>, id: string)
    requires first < |items| && forall k :: 0 <= k < |rest| ==> rest[k] < |items|
    ensures forall k :: 0 <= k < |[first] + rest| ==> ([first] + rest)[k] < |items|
    ensures Quotes(items, [first] + rest, id) <==> items[first].id == id || Quotes(items, rest, id)
  {
    if Quotes(items, rest, id) {
      var k :| 0 <= k < |rest| && items[rest[k]].id == id;
      assert ([first] + rest)[k + 1] == rest[k];
    }
    if items[first].id == id { assert ([first] + rest)[0] == first; }
  }

  method ChunkGroups(codec: Codec, items: seq<MemoryItem>, pending: (MemoryItem, string) -> bool)
    returns (groups: seq<ChunkGroup>)
    ensures groups == PendingUnits(codec, items, pending, |items|)
  {
    hide LinesAt, LeadAt, QuestionsAt, TitlesAt, BodyOf, MakeUnit;
    var titles: map<string, string> := map[];
    var lines: map<string, string> := map[];
    var lead: map<string, seq<MemoryItem>> := map[];
    var questions: map<string, string> := map[];
    NothingYet(items);
    for i := 0 to |items|
      invariant TitlesAt(items, i, titles)
    {
      TitlesStep(items, i, titles);
      if items[i].metadata.kind == "title" {
        titles := titles[items[i].metadata.containerId := SessionTitle(items[i].text)];
      }
    }
    groups := [];
    for i := 0 to |items|
      invariant LinesAt(items, i, lines) && LeadAt(items, i, lead) && QuestionsAt(items, i, questions)
      invariant groups == PendingUnits(codec, items, pending, i)
    {
      LinesStep(items, i, lines);
      LeadStep(items, i, lead);
      QuestionsStep(items, i, questions);
      var item := items[i];
      var body := Body(items, i, lead, lines, questions);
      if IsTelegram(item) {
        if IsChat(item) {
          lead := lead[item.metadata.containerId := Latest(Get(lead, item.metadata.containerId, []) + [item])];
        }
        lines := lines[item.id := LineOf(item)];
      } else if IsPrompt(item) {
        questions := questions[item.metadata.containerId := ClipLine(item.text, QUESTION_RUNES)];
      }
      TitleKnown(items, titles, item.metadata.containerId);
      var unit := MakeUnit(codec, item, Get(titles, item.metadata.containerId, ""), body);
      if pending(item, unit.meta.contentHash) {
        groups := groups + [unit];
      }
    }
  }

  lemma NothingYet(items: seq<MemoryItem>)
    ensures TitlesAt(items, 0, map[]) && LinesAt(items, 0, map[]) && LeadAt(items, 0, map[])
      && QuestionsAt(items, 0, map[])
  {
  }

  lemma TitleKnown(items: seq<MemoryItem>, titles: map<string, string>, containerId: string)
    requires TitlesAt(items, |items|, titles)
    ensures Get(titles, containerId, "") == TitleOf(items, |items|, containerId)
  {
  }

  // The lines of one record's body, from what the maps hold about the records before it.
  method Body(items: seq<MemoryItem>, i: nat, lead: map<string, seq<MemoryItem>>, lines: map<string, string>,
              questions: map<string, string>) returns (body: seq<string>)
    requires i < |items| && LinesAt(items, i, lines) && LeadAt(items, i, lead) && QuestionsAt(items, i, questions)
    ensures body == BodyOf(items, i)
  {
    var item := items[i];
    var question := Get(questions, item.metadata.containerId, "");
    if IsTelegram(item) {
      body := [];
      if IsChat(item) { body := ChatBody(items, i, lead, lines); }
      body := body + [LineOf(item)];
    } else if !IsPrompt(item) && item.metadata.kind == "message" && item.metadata.authorId == "assistant"
      && question != "" {
      body := ["Re: " + question, item.text];
    } else {
      body := [item.text];
    }
  }

  method ChatBody(items: seq<MemoryItem>, i: nat, lead: map<string, seq<MemoryItem>>, lines: map<string, string>)
    returns (body: seq<string>)
    requires i < |items| && LinesAt(items, i, lines) && LeadAt(items, i, lead)
    ensures body == ChatContext(items, i)
  {
    hide LeadBefore, Recent, LeadLines, Quotes, Last, ClipLine;
    var m := items[i].metadata;
    var quoted;
    body, quoted := LeadIn(items, i, Get(lead, m.containerId, []), lines);
    assert Get(lines, m.replyTo, "") == LineNamed(items, i, m.replyTo);
    if m.replyTo in lines && !quoted {
      body := ["> " + ClipLine(lines[m.replyTo], CONTEXT_LINE_RUNES)] + body;
    }
  }

  // ---------- What an edit can change ----------

  ghost predicate DistinctTelegramIds(items: seq<MemoryItem>) {
    forall i, j :: 0 <= i < j < |items| && IsTelegram(items[i]) && IsTelegram(items[j]) ==> items[i].id != items[j].id
  }

  // An edit of a message keeps its id, its chat, its kind and its time. Its text, author,
  // reply, title, attributes and hash may change.
  predicate SameSlot(a: MemoryItem, b: MemoryItem) {
    && IsTelegram(a) && IsTelegram(b) && a.id == b.id && a.metadata.kind == b.metadata.kind
    && a.metadata.containerId == b.metadata.containerId && a.metadata.containerKind == b.metadata.containerKind
    && a.metadata.timestamp == b.metadata.timestamp
  }

  // Record e is one of the last two messages of record i's chat, within the gap.
  ghost predicate LeadsInto(items: seq<MemoryItem>, e: nat, i: nat) {
    && e < i < |items| && IsChat(items[i]) && Matches(items[e], ChatIn(items[i].metadata.containerId))
    && items[i].metadata.timestamp - items[e].metadata.timestamp <= TELEGRAM_LEAD_GAP
    && !exists j, k :: e < j < k < i && Matches(items[j], ChatIn(items[i].metadata.containerId))
                       && Matches(items[k], ChatIn(items[i].metadata.containerId))
  }

  ghost predicate RepliesTo(items: seq<MemoryItem>, e: nat, i: nat) {
    e < i < |items| && IsChat(items[i]) && items[i].metadata.replyTo == items[e].id
  }

  lemma {:induction false} SameLast(items: seq<MemoryItem>, e: nat, edit: MemoryItem, n: nat, ref: Reference)
    requires e < |items| && n <= |items| && SameSlot(items[e], edit)
    ensures Last(items[e := edit], n, ref) == Last(items, n, ref)
  {
    if n > 0 { SameLast(items, e, edit, n - 1, ref); }
  }

  lemma SameLead(items: seq<MemoryItem>, e: nat, edit: MemoryItem, i: nat, c: string)
    requires e < |items| && i <= |items| && SameSlot(items[e], edit)
    ensures LeadBefore(items[e := edit], i, c) == LeadBefore(items, i, c)
  {
    SameLast(items, e, edit, i, ChatIn(c));
    var last := Last(items, i, ChatIn(c));
    if last.Some? { SameLast(items, e, edit, last.value, ChatIn(c)); }
  }

  lemma {:induction false} SameRecent(items: seq<MemoryItem>, e: nat, edit: MemoryItem, lead: seq<nat>, timestamp: int)
    requires e < |items| && SameSlot(items[e], edit) && forall k :: 0 <= k < |lead| ==> lead[k] < |items|
    ensures Recent(items[e := edit], lead, timestamp) == Recent(items, lead, timestamp)
  {
    if lead != [] { SameRecent(items, e, edit, lead[1..], timestamp); }
  }

  lemma {:induction false} RecentAreRecent(items: seq<MemoryItem>, lead: seq<nat>, timestamp: int)
    requires forall k :: 0 <= k < |lead| ==> lead[k] < |items|
    ensures forall k :: 0 <= k < |Recent(items, lead, timestamp)| ==>
      timestamp - items[Recent(items, lead, timestamp)[k]].metadata.timestamp <= TELEGRAM_LEAD_GAP
  {
    if lead != [] { RecentAreRecent(items, lead[1..], timestamp); }
  }

  // The lines a record quotes change only if one of them is the edited record's.
  lemma {:induction false} SameLeadLines(items: seq<MemoryItem>, e: nat, edit: MemoryItem, i: nat, recent: seq<nat>)
    requires e < |items| && i <= |items| && DistinctTelegramIds(items) && SameSlot(items[e], edit)
    requires forall k :: 0 <= k < |recent| ==> recent[k] < |items| && IsTelegram(items[recent[k]])
    requires e !in recent
    ensures LeadLines(items[e := edit], i, recent) == LeadLines(items, i, recent)
  {
    if recent != [] {
      var id := items[recent[0]].id;
      SameLast(items, e, edit, i, Named(id));
      assert recent[0] in recent;
      SameLeadLines(items, e, edit, i, recent[1..]);
    }
  }

  lemma LeadsFromLead(items: seq<MemoryItem>, e: nat, i: nat)
    requires i < |items| && IsChat(items[i])
    requires e in Recent(items, LeadBefore(items, i, items[i].metadata.containerId), items[i].metadata.timestamp)
    ensures LeadsInto(items, e, i)
  {
    var m := items[i].metadata;
    var lead := LeadBefore(items, i, m.containerId);
    RecentAreRecent(items, lead, m.timestamp);
    assert e in lead;
    var last := Last(items, i, ChatIn(m.containerId));
    forall j, k | e < j < k < i && Matches(items[j], ChatIn(m.containerId)) && Matches(items[k], ChatIn(m.containerId))
      ensures false
    {
    }
  }

  // Editing one Telegram message changes at most its own unit, those of the next
  // two messages of its chat within ten minutes, and those of later replies to it.
  lemma EditIsLocal(codec: Codec, items: seq<MemoryItem>, e: nat, edit: MemoryItem, i: nat)
    requires e < |items| && i < |items| && SameSlot(items[e], edit) && items[e].metadata.kind != "title"
    requires DistinctTelegramIds(items)
    ensures UnitOf(codec, items[e := edit], i) != UnitOf(codec, items, i) ==>
      i == e || LeadsInto(items, e, i) || RepliesTo(items, e, i)
  {
    if i == e || LeadsInto(items, e, i) || RepliesTo(items, e, i) { return; }
    hide MakeUnit, BodyOf, SessionTitle;
    SameLast(items, e, edit, |items|, TitleIn(items[i].metadata.containerId));
    SameBody(items, e, edit, i);
  }

  lemma SameBody(items: seq<MemoryItem>, e: nat, edit: MemoryItem, i: nat)
    requires e < |items| && i < |items| && SameSlot(items[e], edit) && DistinctTelegramIds(items)
    requires i != e && !LeadsInto(items, e, i) && !RepliesTo(items, e, i)
    ensures BodyOf(items[e := edit], i) == BodyOf(items, i)
  {
    hide ChatContext, ClipLine, LeadsInto, DistinctTelegramIds;
    SameLast(items, e, edit, i, PromptIn(items[i].metadata.containerId));
    if IsChat(items[i]) { SameContext(items, e, edit, i); }
  }

  lemma SameContext(items: seq<MemoryItem>, e: nat, edit: MemoryItem, i: nat)
    requires e < |items| && i < |items| && SameSlot(items[e], edit) && IsChat(items[i]) && DistinctTelegramIds(items)
    requires i != e && !LeadsInto(items, e, i) && !RepliesTo(items, e, i)
    ensures ChatContext(items[e := edit], i) == ChatContext(items, i)
  {
    hide ClipLine, LeadsInto, DistinctTelegramIds, LeadBefore, Recent, LeadLines;
    var m := items[i].metadata;
    var lead := LeadBefore(items, i, m.containerId);
    var recent := Recent(items, lead, m.timestamp);
    SameLead(items, e, edit, i, m.containerId);
    SameRecent(items, e, edit, lead, m.timestamp);
    SameLast(items, e, edit, i, Named(m.replyTo));
    if e in recent { LeadsFromLead(items, e, i); }
    forall k | 0 <= k < |recent|
      ensures IsTelegram(items[recent[k]])
    {
      assert recent[k] in lead;
    }
    SameLeadLines(items, e, edit, i, recent);
  }
}
