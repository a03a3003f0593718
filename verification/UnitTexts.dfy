// What the header and the lines of a unit say, from the fields of the records, and which
// changes make a unit be embedded again (context.go).
module UnitTexts {
  import opened Wrappers
  import opened Records
  import opened Text
  import opened Tables
  import opened ContextUnits
  import opened RawIngest
  import SP = SessionParse

  // ---------- Headers ----------

  // A title in a header is quoted after a space; without one there is nothing.
  function Titled(codec: Codec, title: string): string { if title == "" then "" else " " + codec.quote(title) }

  predicate TelegramWord(kind: string, word: string) {
    && (kind == "dm" ==> word == "direct chat") && (kind == "group" ==> word == "group")
    && (kind == "channel" ==> word == "channel") && (kind == "topic" ==> word == "group topic")
    && (kind != "dm" && kind != "group" && kind != "channel" && kind != "topic" ==> word == "chat")
  }

  predicate HarnessWord(source: string, word: string) {
    && (source == "claude" ==> word == "Claude Code") && (source == "codex" ==> word == "Codex")
    && (source == "pi" ==> word == "Pi") && (source == "omp" ==> word == "OMP")
    && (source == "grok" ==> word == "Grok") && (source == "grokbot" ==> word == "Grok bot")
    && (source !in {"claude", "codex", "pi", "omp", "grok", "grokbot"} ==> word == source)
  }

  // The header of a chat names its kind and title, that of a contact its title or id, and that
  // of a session its harness, its title and its project, each where it is known.
  ghost predicate HeaderSays(codec: Codec, m: Metadata, title: string, header: string) {
    if m.source == "telegram" then
      exists word :: TelegramWord(m.containerKind, word) && header == "Telegram " + word + Titled(codec, title)
    else if m.source == "crm" then header == "CRM notes on " + codec.quote(if title != "" then title else m.containerId)
    else
      exists word :: HarnessWord(m.source, word) && header == word + " session" + Titled(codec, title)
        + (if m.project == "" || m.project == "unknown" then "" else " in " + m.project)
  }

  lemma HeaderNames(codec: Codec, m: Metadata)
    ensures HeaderSays(codec, m, TrimSpace(m.containerTitle), ContextHeader(codec, m))
  {
    hide TrimSpace;
    if m.source == "telegram" {
      assert TelegramWord(m.containerKind, ValueOr(Lookup(TELEGRAM_KINDS, m.containerKind), "chat"));
    } else if m.source != "crm" {
      assert HarnessWord(m.source, ValueOr(Lookup(HARNESS_NAMES, m.source), m.source));
    }
  }

  lemma OneWord(m: Metadata, a: string, b: string)
    ensures TelegramWord(m.containerKind, a) && TelegramWord(m.containerKind, b) ==> a == b
    ensures HarnessWord(m.source, a) && HarnessWord(m.source, b) ==> a == b
  {
  }

  ghost predicate Injective(f: string -> string) { forall a: string, b: string :: f(a) == f(b) ==> a == b }

  lemma SameEnds(a: string, x: string, y: string, b: string)
    ensures a + x + b == a + y + b <==> x == y
  {
    if a + x + b == a + y + b {
      assert |x| == |y|;
      assert x == (a + x + b)[|a|..|a| + |x|] && y == (a + y + b)[|a|..|a| + |y|];
    }
  }

  // Two titles of one record give one header exactly when they are the same; a contact without
  // a title is named by its id.
  lemma HeadersDiffer(codec: Codec, m: Metadata, a: string, b: string, x: string, y: string)
    requires Injective(codec.quote) && HeaderSays(codec, m, a, x) && HeaderSays(codec, m, b, y)
    ensures x == y <==>
      if m.source == "crm" then (if a != "" then a else m.containerId) == (if b != "" then b else m.containerId)
        else a == b
  {
    TitlesDiffer(codec, a, b);
    hide Titled, TelegramWord, HarnessWord;
    if m.source == "telegram" {
      var word :| TelegramWord(m.containerKind, word) && x == "Telegram " + word + Titled(codec, a);
      var word' :| TelegramWord(m.containerKind, word') && y == "Telegram " + word' + Titled(codec, b);
      OneWord(m, word, word');
      SameEnds("Telegram " + word, Titled(codec, a), Titled(codec, b), "");
      assert x + "" == x && y + "" == y;
    } else if m.source == "crm" {
      var p, q := codec.quote(if a != "" then a else m.containerId), codec.quote(if b != "" then b else m.containerId);
      SameEnds("CRM notes on ", p, q, "");
      assert x + "" == x && y + "" == y;
    } else {
      var end := if m.project == "" || m.project == "unknown" then "" else " in " + m.project;
      var word :| HarnessWord(m.source, word) && x == word + " session" + Titled(codec, a) + end;
      var word' :| HarnessWord(m.source, word') && y == word' + " session" + Titled(codec, b) + end;
      OneWord(m, word, word');
      SameEnds(word + " session", Titled(codec, a), Titled(codec, b), end);
    }
  }

  lemma TitlesDiffer(codec: Codec, a: string, b: string)
    requires Injective(codec.quote)
    ensures Titled(codec, a) == Titled(codec, b) <==> a == b
  {
    if a != "" && b != "" { SameEnds(" ", codec.quote(a), codec.quote(b), ""); }
    assert " " + codec.quote(a) + "" == " " + codec.quote(a) && " " + codec.quote(b) + "" == " " + codec.quote(b);
  }

  // ---------- Titles ----------

  // The title that a title row announces comes back from its text.
  lemma TitleRoundTrip(m: SP.Fields, source: string)
    requires forall i | 0 <= i < |source| :: source[i] != ':'
    ensures SP.TitleText(m, source) != "" ==>
      SP.TitleText(m, source) == "TITLE " + source + ": " + SessionTitle(SP.TitleText(m, source))
  {
    var keys := ["title", "name", "summary", "aiTitle", "customTitle"];
    var title := SP.FirstStringField(m, keys);
    FirstIsTrimmed(m, keys);
    hide SP.FirstStringField, TrimSpace;
    if title != "" {
      var head := "TITLE " + source;
      assert forall i | 0 <= i < |head| :: head[i] != ':';
      CutAtColon(head, title);
      assert SP.TitleText(m, source) == head + ": " + title;
      assert (head + ": " + title)[..6] == "TITLE ";
    }
  }

  lemma {:induction false} FirstIsTrimmed(m: SP.Fields, keys: seq<string>)
    ensures TrimSpace(SP.FirstStringField(m, keys)) == SP.FirstStringField(m, keys)
  {
    if keys != [] {
      TrimTwice(SP.StringField(m, keys[0]));
      FirstIsTrimmed(m, keys[1..]);
      hide TrimSpace, SP.StringField;
    }
  }

  lemma {:induction false} CutAtColon(head: string, rest: string)
    requires forall i | 0 <= i < |head| :: head[i] != ':'
    ensures IndexOf(head + ": " + rest, ": ") == Some(|head|)
    ensures (head + ": " + rest)[|head| + 2..] == rest
  {
    var s := head + ": " + rest;
    if head == "" {
      assert s == ": " + rest && ": " <= s;
    } else {
      CutAtColon(head[1..], rest);
      assert s[1..] == head[1..] + ": " + rest;
      assert s[0] == head[0];
      assert s[0] != ": "[0];
    }
  }

  // ---------- A renamed session ----------

  // A record that no other record quotes: neither a chat message nor a prompt.
  predicate Quiet(item: MemoryItem) { !IsTelegram(item) && !IsPrompt(item) }

  // The first n records are the same but for some that are not quoted.
  ghost predicate SameTalk(items: seq<MemoryItem>, items': seq<MemoryItem>, n: nat) {
    && n <= |items| && n <= |items'|
    && forall k | 0 <= k < n :: items[k] == items'[k] || (Quiet(items[k]) && Quiet(items'[k]))
  }

  lemma {:induction false} TalkLast(items: seq<MemoryItem>, items': seq<MemoryItem>, n: nat, ref: Reference)
    requires SameTalk(items, items', n) && !ref.TitleIn?
    ensures Last(items, n, ref) == Last(items', n, ref)
    ensures Last(items, n, ref).Some? ==> items[Last(items, n, ref).value] == items'[Last(items, n, ref).value]
    decreases n
  {
    if n > 0 && !Matches(items[n - 1], ref) { TalkLast(items, items', n - 1, ref); }
  }

  lemma TalkLead(items: seq<MemoryItem>, items': seq<MemoryItem>, i: nat, c: string)
    requires SameTalk(items, items', i)
    ensures LeadBefore(items, i, c) == LeadBefore(items', i, c)
    ensures forall k | 0 <= k < |LeadBefore(items, i, c)| ::
      items[LeadBefore(items, i, c)[k]] == items'[LeadBefore(items, i, c)[k]]
  {
    TalkLast(items, items', i, ChatIn(c));
    var last := Last(items, i, ChatIn(c));
    if last.Some? { TalkLast(items, items', last.value, ChatIn(c)); }
  }

  lemma {:induction false} TalkRecent(items: seq<MemoryItem>, items': seq<MemoryItem>, lead: seq<nat>, timestamp: int)
    requires forall k | 0 <= k < |lead| :: lead[k] < |items| && lead[k] < |items'| && items[lead[k]] == items'[lead[k]]
    ensures var recent := Recent(items, lead, timestamp);
      recent == Recent(items', lead, timestamp)
      && forall k | 0 <= k < |recent| :: recent[k] < |items'| && items[recent[k]] == items'[recent[k]]
  {
    if lead != [] { TalkRecent(items, items', lead[1..], timestamp); }
  }

  lemma {:induction false} TalkLeadLines(items: seq<MemoryItem>, items': seq<MemoryItem>, i: nat, recent: seq<nat>,
                                        id: string)
    requires SameTalk(items, items', i)
    requires forall k | 0 <= k < |recent| ::
      recent[k] < |items| && recent[k] < |items'| && items[recent[k]] == items'[recent[k]]
    ensures LeadLines(items, i, recent) == LeadLines(items', i, recent)
    ensures Quotes(items, recent, id) <==> Quotes(items', recent, id)
    decreases |recent|
  {
    if recent != [] {
      TalkLast(items, items', i, Named(items[recent[0]].id));
      TalkLeadLines(items, items', i, recent[1..], id);
    }
  }

  lemma TalkContext(items: seq<MemoryItem>, items': seq<MemoryItem>, i: nat)
    requires SameTalk(items, items', i) && i < |items| && i < |items'| && items[i] == items'[i]
    ensures ChatContext(items, i) == ChatContext(items', i)
  {
    hide ClipLine, LineOf, SameTalk, LeadBefore, Recent, LeadLines, Quotes, Last;
    var m := items[i].metadata;
    TalkLast(items, items', i, Named(m.replyTo));
    TalkLead(items, items', i, m.containerId);
    var lead := LeadBefore(items, i, m.containerId);
    TalkRecent(items, items', lead, m.timestamp);
    TalkLeadLines(items, items', i, Recent(items, lead, m.timestamp), m.replyTo);
  }

  lemma TalkBody(items: seq<MemoryItem>, items': seq<MemoryItem>, i: nat)
    requires SameTalk(items, items', i) && i < |items| && i < |items'| && items[i] == items'[i]
    ensures BodyOf(items, i) == BodyOf(items', i)
  {
    hide ClipLine, LineOf, SameTalk, ChatContext, Last;
    TalkLast(items, items', i, PromptIn(items[i].metadata.containerId));
    TalkContext(items, items', i);
  }

  lemma TitleIsTrimmed(items: seq<MemoryItem>, c: string)
    ensures TrimSpace(TitleOf(items, |items|, c)) == TitleOf(items, |items|, c)
  {
    var last := Last(items, |items|, TitleIn(c));
    if last.Some? {
      var text := items[last.value].text;
      var cut := IndexOf(text, ": ");
      if cut.Some? { TrimTwice(text[cut.value + 2..]); }
      TrimTwice(text);
    }
    hide TrimSpace;
  }

  // A unit's hash covers its header: when the records that others quote stay and a record has
  // no title of its own, its unit's hash changes exactly when the title that its container was
  // given last does. A contact without a title counts as named by its id.
  lemma RenamingChangesHash(codec: Codec, items: seq<MemoryItem>, items': seq<MemoryItem>, i: nat)
    requires Injective(codec.quote) && Injective(codec.hash)
    requires SameTalk(items, items', i) && i < |items| && i < |items'| && items[i] == items'[i]
    requires items[i].metadata.containerTitle == ""
    ensures var c := items[i].metadata.containerId;
            var a, b := TitleOf(items, |items|, c), TitleOf(items', |items'|, c);
            var unit, unit' := UnitOf(codec, items, i), UnitOf(codec, items', i);
      unit.meta.contentHash == unit'.meta.contentHash <==>
      if items[i].metadata.source == "crm" then (if a != "" then a else c) == (if b != "" then b else c) else a == b
  {
    hide UnitOf, HeaderSays, BodyOf, TitleOf, SameTalk;
    var c := items[i].metadata.containerId;
    var a, b := TitleOf(items, |items|, c), TitleOf(items', |items'|, c);
    TalkBody(items, items', i);
    UnitHash(codec, items, i);
    UnitHash(codec, items', i);
    var x, y := ContextHeader(codec, items[i].metadata.(containerTitle := a)),
                ContextHeader(codec, items[i].metadata.(containerTitle := b));
    HeadersDiffer(codec, items[i].metadata, a, b, x, y);
    HeadersCount(codec, x, y, Join(BodyOf(items, i), "\n"));
  }

  // The hash of a unit is that of its header and its lines.
  lemma UnitHash(codec: Codec, items: seq<MemoryItem>, i: nat)
    requires i < |items| && items[i].metadata.containerTitle == ""
    ensures var title := TitleOf(items, |items|, items[i].metadata.containerId);
            var header := ContextHeader(codec, items[i].metadata.(containerTitle := title));
      && UnitOf(codec, items, i).meta.contentHash == codec.hash(JoinHeader(header, Join(BodyOf(items, i), "\n")))
      && HeaderSays(codec, items[i].metadata, title, header) && header != ""
  {
    var m := items[i].metadata;
    var title := TitleOf(items, |items|, m.containerId);
    TitleIsTrimmed(items, m.containerId);
    HeaderNames(codec, m.(containerTitle := title));
    hide TrimSpace, BodyOf, TitleOf, ContextHeader, Join;
    SameSays(codec, m, title, ContextHeader(codec, m.(containerTitle := title)));
  }

  lemma HeadersCount(codec: Codec, x: string, y: string, text: string)
    requires Injective(codec.hash) && x != "" && y != ""
    ensures codec.hash(JoinHeader(x, text)) == codec.hash(JoinHeader(y, text)) <==> x == y
  {
    SameEnds("", x, y, "\n" + text);
    assert "" + x + ("\n" + text) == JoinHeader(x, text) && "" + y + ("\n" + text) == JoinHeader(y, text);
  }

  lemma SameSays(codec: Codec, m: Metadata, title: string, header: string)
    requires HeaderSays(codec, m.(containerTitle := title), title, header)
    ensures HeaderSays(codec, m, title, header)
  {
  }

  // So a renamed session is embedded again: every unit of a record without a title of its own
  // that the dedup state knows under the old name is pending under the new one.
  lemma RenamedIsPending(codec: Codec, items: seq<MemoryItem>, items': seq<MemoryItem>, i: nat, dedup: Hashes)
    requires Injective(codec.quote) && Injective(codec.hash)
    requires SameTalk(items, items', i) && i < |items| && i < |items'| && items[i] == items'[i]
    requires items[i].metadata.containerTitle == "" && items[i].metadata.source != "crm"
    requires var c := items[i].metadata.containerId;
      TitleOf(items, |items|, c) != TitleOf(items', |items'|, c)
    requires Marked(dedup, UnitOf(codec, items, i))
    ensures UnitOf(codec, items', i) in PendingOf(Units(codec, items'), dedup)
  {
    RenamingChangesHash(codec, items, items', i);
    UnitId(codec, items, i);
    UnitId(codec, items', i);
    hide UnitOf, TitleOf;
    assert Units(codec, items')[i] == UnitOf(codec, items', i);
  }

  lemma UnitId(codec: Codec, items: seq<MemoryItem>, i: nat)
    requires i < |items|
    ensures UnitOf(codec, items, i).id == items[i].id
  {
  }

  // A further title row renames its session and leaves the other records as they are.
  lemma NewTitle(items: seq<MemoryItem>, row: MemoryItem)
    requires row.metadata.kind == "title"
    ensures TitleOf(items + [row], |items| + 1, row.metadata.containerId) == SessionTitle(row.text)
    ensures forall i | 0 <= i < |items| :: SameTalk(items, items + [row], i) && (items + [row])[i] == items[i]
  {
  }
}
