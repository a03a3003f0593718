// Which lines of other records a unit quotes, and exactly which edits change it (context.go).
module UnitLines {
  import opened Wrappers
  import opened Records
  import opened Text
  import opened ContextUnits
  import opened UnitTexts

  // ---------- One record's line ----------

  // A chat message is told with its author's name, or else id; anything else is its text.
  function OwnLine(item: MemoryItem): string {
    var m := item.metadata;
    if m.source != "telegram" then item.text
    else if m.authorName != "" then m.authorName + ": " + item.text
    else if m.authorId != "" then m.authorId + ": " + item.text
    else item.text
  }

  // A quoted line is one line. A short one has the words of the text with single spaces
  // between them; of a longer one, n runes and an ellipsis are kept.
  lemma ClipLineIs(text: string, n: nat)
    ensures var line, words := ClipLine(text, n), Fields(text);
      && OneLine(line) && |line| <= n + 1
      && (|Join(words, " ")| <= n ==> Fields(line) == words)
      && (|Join(words, " ")| > n ==> |line| == n + 1 && line[n] == '…' && line[..n] <= Join(words, " "))
  {
    var words := Fields(text);
    FieldsAreWords(text);
    FieldsOfJoin(words);
    forall k | 0 <= k < |words|
      ensures OneLine(words[k])
    {
      assert Word(words[k]);
    }
    JoinIsOneLine(words);
    hide Fields, Join;
  }

  // ---------- The lines of a session record ----------

  // Prompt p is the last one of the session before record i.
  ghost predicate LastPromptAt(items: seq<MemoryItem>, i: nat, session: string, p: nat)
    requires i <= |items|
  {
    && p < i && PromptOf(items[p], session) && forall q | p < q < i :: !PromptOf(items[q], session)
  }

  predicate PromptOf(item: MemoryItem, session: string) {
    var m := item.metadata;
    m.source != "telegram" && m.kind == "message" && m.authorId == "user" && m.containerId == session
  }

  // An answer is told under the question it answers, if that has any words; every other record
  // of a session, and a message of a channel, by itself.
  ghost predicate BodySays(items: seq<MemoryItem>, i: nat, body: seq<string>)
    requires i < |items|
  {
    var item, m := items[i], items[i].metadata;
    if exists p: nat :: Answers(items, i, p) then
      exists p: nat :: Answers(items, i, p) && body == ["Re: " + ClipLine(items[p].text, 300), item.text]
    else body == [OwnLine(item)]
  }

  ghost predicate Answers(items: seq<MemoryItem>, i: nat, p: nat)
    requires i < |items|
  {
    var m := items[i].metadata;
    && m.source != "telegram" && m.kind == "message" && m.authorId == "assistant"
    && LastPromptAt(items, i, m.containerId, p) && Fields(items[p].text) != []
  }

  lemma PromptIs(items: seq<MemoryItem>, i: nat, session: string, p: nat)
    requires i <= |items|
    ensures LastPromptAt(items, i, session, p) <==> Last(items, i, PromptIn(session)) == Some(p)
  {
    assert forall q | 0 <= q < |items| :: PromptOf(items[q], session) <==> Matches(items[q], PromptIn(session));
    hide PromptOf, Matches;
  }

  lemma BlankQuestion(text: string)
    ensures ClipLine(text, QUESTION_RUNES) == "" <==> Fields(text) == []
  {
    var words := Fields(text);
    FieldsAreWords(text);
    FieldsOfJoin(words);
    hide Fields;
    assert Join([], " ") == "";
    assert words != [] ==> Join(words, " ") != "" by { if words != [] { assert Word(words[0]); } }
  }

  lemma SessionBody(items: seq<MemoryItem>, i: nat)
    requires i < |items| && !(items[i].metadata.source == "telegram" && items[i].metadata.containerKind != "channel")
    ensures BodySays(items, i, BodyOf(items, i))
  {
    var item, m := items[i], items[i].metadata;
    var last := Last(items, i, PromptIn(m.containerId));
    if last.Some? {
      PromptIs(items, i, m.containerId, last.value);
      BlankQuestion(items[last.value].text);
    }
    forall p: nat | Answers(items, i, p)
      ensures last == Some(p)
    {
      PromptIs(items, i, m.containerId, p);
    }
    hide Last, ClipLine, LastPromptAt, Fields;
    if last.Some? { assert BodyOf(items, i) == [OwnLine(item)] || Answers(items, i, last.value); }
  }

  // ---------- The lines of a chat message ----------

  predicate InChat(item: MemoryItem, containerId: string) {
    var m := item.metadata;
    m.source == "telegram" && m.containerKind != "channel" && m.containerId == containerId
  }

  // Message e is one of the two of its chat before message i, and at most ten minutes older.
  ghost predicate JustBefore(items: seq<MemoryItem>, e: nat, i: nat)
    requires i < |items|
  {
    var m := items[i].metadata;
    && e < i && InChat(items[e], m.containerId) && m.timestamp - items[e].metadata.timestamp <= 600
    && !exists j, k :: e < j < k < i && InChat(items[j], m.containerId) && InChat(items[k], m.containerId)
  }

  lemma LeadIsJustBefore(items: seq<MemoryItem>, e: nat, i: nat)
    requires i < |items| && IsChat(items[i])
    ensures LeadsInto(items, e, i) <==> JustBefore(items, e, i)
  {
    var c := items[i].metadata.containerId;
    assert forall k | 0 <= k < |items| :: InChat(items[k], c) <==> Matches(items[k], ChatIn(c));
    hide InChat, Matches;
  }

  // The records quoted above a chat message are exactly the last two messages of its chat
  // within ten minutes, in order.
  lemma LeadsAre(items: seq<MemoryItem>, i: nat)
    requires i < |items| && items[i].metadata.source == "telegram" && items[i].metadata.containerKind != "channel"
    ensures var m := items[i].metadata;
            var leads := Recent(items, LeadBefore(items, i, m.containerId), m.timestamp);
      && (forall e: nat :: e in leads <==> JustBefore(items, e, i))
      && |leads| <= 2 && (|leads| == 2 ==> leads[0] < leads[1])
  {
    var m := items[i].metadata;
    var lead := LeadBefore(items, i, m.containerId);
    var leads := Recent(items, lead, m.timestamp);
    RecentKeeps(items, lead, m.timestamp);
    hide LeadBefore, Recent, LeadsInto, JustBefore;
    forall e: nat
      ensures e in leads <==> JustBefore(items, e, i)
    {
      LeadIsJustBefore(items, e, i);
      if LeadsInto(items, e, i) { LeadInWindow(items, e, i); }
      if e in leads { LeadsFromLead(items, e, i); }
    }
  }

  lemma LeadInWindow(items: seq<MemoryItem>, e: nat, i: nat)
    requires LeadsInto(items, e, i)
    ensures e in LeadBefore(items, i, items[i].metadata.containerId)
  {
    var c := items[i].metadata.containerId;
    var last := Last(items, i, ChatIn(c));
    if e < last.value {
      var before := Last(items, last.value, ChatIn(c));
      assert before.Some? && e <= before.value;
    }
  }

  lemma {:induction false} RecentKeeps(items: seq<MemoryItem>, lead: seq<nat>, timestamp: int)
    requires |lead| <= 2 && forall k | 0 <= k < |lead| :: lead[k] < |items|
    requires |lead| == 2 ==> lead[0] < lead[1]
    ensures var r := Recent(items, lead, timestamp);
      && |r| <= |lead| && (|r| == 2 ==> r[0] < r[1])
      && forall k | 0 <= k < |lead| && timestamp - items[lead[k]].metadata.timestamp <= TELEGRAM_LEAD_GAP ::
        lead[k] in r
  {
    if lead != [] { RecentKeeps(items, lead[1..], timestamp); }
  }

  // The records whose lines stand above a chat message: the one it answers, unless it is quoted
  // anyway, and the leads.
  function Leads(items: seq<MemoryItem>, i: nat): (leads: seq<nat>)
    requires i < |items|
    ensures forall k | 0 <= k < |leads| :: leads[k] < i && IsTelegram(items[leads[k]])
  {
    var m := items[i].metadata;
    var lead := LeadBefore(items, i, m.containerId);
    var leads := Recent(items, lead, m.timestamp);
    assert forall k | 0 <= k < |leads| :: leads[k] in lead;
    leads
  }

  ghost predicate Replied(items: seq<MemoryItem>, i: nat, p: nat)
    requires i < |items|
  {
    p < i && IsTelegram(items[p]) && items[p].id == items[i].metadata.replyTo && p !in Leads(items, i)
  }

  // A quoted line: at most two hundred runes of a record's own.
  function Quoted(item: MemoryItem): string { ClipLine(OwnLine(item), 200) }

  function QuotedLines(items: seq<MemoryItem>, leads: seq<nat>): (lines: seq<string>)
    requires forall k | 0 <= k < |leads| :: leads[k] < |items|
    ensures |lines| == |leads|
  {
    seq(|leads|, k requires 0 <= k < |leads| => Quoted(items[leads[k]]))
  }

  // A chat message is told under the line it answers, marked as such, and the lines of its leads.
  ghost predicate ChatSays(items: seq<MemoryItem>, i: nat, body: seq<string>)
    requires i < |items|
  {
    var below := QuotedLines(items, Leads(items, i)) + [OwnLine(items[i])];
    if exists p: nat :: Replied(items, i, p) then
      exists p: nat :: Replied(items, i, p) && body == ["> " + Quoted(items[p])] + below
    else body == below
  }

  lemma LineIs(item: MemoryItem)
    ensures IsTelegram(item) ==> LineOf(item) == OwnLine(item)
  {
  }

  // Of distinct ids each names one record.
  lemma NamesOne(items: seq<MemoryItem>, i: nat, p: nat)
    requires i <= |items| && p < i && IsTelegram(items[p]) && DistinctTelegramIds(items)
    ensures Last(items, i, Named(items[p].id)) == Some(p) && LineNamed(items, i, items[p].id) == OwnLine(items[p])
  {
    var last := Last(items, i, Named(items[p].id));
    assert Matches(items[p], Named(items[p].id));
    assert last.Some? && items[last.value].id == items[p].id && p <= last.value;
    LineIs(items[p]);
  }

  lemma {:induction false} LeadLinesAre(items: seq<MemoryItem>, i: nat, leads: seq<nat>)
    requires i <= |items| && DistinctTelegramIds(items)
    requires forall k | 0 <= k < |leads| :: leads[k] < i && IsTelegram(items[leads[k]])
    ensures LeadLines(items, i, leads) == QuotedLines(items, leads)
  {
    hide DistinctTelegramIds, OwnLine, ClipLine;
    if leads != [] {
      NamesOne(items, i, leads[0]);
      LeadLinesAre(items, i, leads[1..]);
      hide LineNamed;
      QuotedCons(items, leads);
      hide QuotedLines;
    }
  }

  lemma QuotedCons(items: seq<MemoryItem>, leads: seq<nat>)
    requires leads != [] && forall k | 0 <= k < |leads| :: leads[k] < |items|
    ensures QuotedLines(items, leads) == [Quoted(items[leads[0]])] + QuotedLines(items, leads[1..])
  {
    hide Quoted;
  }

  lemma ChatBodyIs(items: seq<MemoryItem>, i: nat)
    requires i < |items| && items[i].metadata.source == "telegram" && items[i].metadata.containerKind != "channel"
    requires DistinctTelegramIds(items)
    ensures ChatSays(items, i, BodyOf(items, i))
  {
    hide DistinctTelegramIds, OwnLine, ClipLine, LeadBefore, Recent, LeadLines, Last, QuotedLines, LineOf;
    var leads, id := Leads(items, i), items[i].metadata.replyTo;
    LeadLinesAre(items, i, leads);
    LineIs(items[i]);
    var parent := Last(items, i, Named(id));
    if parent.Some? {
      var p := parent.value;
      NamesOne(items, i, p);
      LineIs(items[p]);
      QuotesIs(items, i, leads, p);
      if p !in leads { assert Replied(items, i, p); }
    }
    forall p: nat | Replied(items, i, p)
      ensures parent == Some(p) && p !in leads
    {
      NamesOne(items, i, p);
    }
    hide Leads;
    assert ["> " + Quoted(items[i])] + [] == ["> " + Quoted(items[i])];
    assert [] + QuotedLines(items, leads) + [OwnLine(items[i])] == QuotedLines(items, leads) + [OwnLine(items[i])];
    if parent.Some? && parent.value !in leads {
      var mark := ["> " + Quoted(items[parent.value])];
      assert mark + QuotedLines(items, leads) + [OwnLine(items[i])] ==
        mark + (QuotedLines(items, leads) + [OwnLine(items[i])]);
    }
  }

  lemma QuotesIs(items: seq<MemoryItem>, i: nat, leads: seq<nat>, p: nat)
    requires i <= |items| && p < i && IsTelegram(items[p]) && DistinctTelegramIds(items)
    requires forall k | 0 <= k < |leads| :: leads[k] < i && IsTelegram(items[leads[k]])
    ensures Quotes(items, leads, items[p].id) <==> p in leads
  {
    if p in leads {
      var k :| 0 <= k < |leads| && leads[k] == p;
      assert items[leads[k]].id == items[p].id;
    }
    if Quotes(items, leads, items[p].id) {
      var k :| 0 <= k < |leads| && items[leads[k]].id == items[p].id;
      NamesOne(items, i, p);
      NamesOne(items, i, leads[k]);
    }
  }

  // ---------- Exactly which edits change a unit ----------

  // The unit quotes the edited record's line, as a lead or as the one it answers.
  ghost predicate QuotesRecord(items: seq<MemoryItem>, e: nat, i: nat) {
    LeadsInto(items, e, i) || RepliesTo(items, e, i)
  }

  lemma EditKeepsLeads(items: seq<MemoryItem>, e: nat, edit: MemoryItem, i: nat)
    requires e < |items| && i < |items| && i != e && SameSlot(items[e], edit)
    ensures Leads(items[e := edit], i) == Leads(items, i)
    ensures forall p: nat :: Replied(items[e := edit], i, p) <==> Replied(items, i, p)
  {
    var m := items[i].metadata;
    SameLead(items, e, edit, i, m.containerId);
    SameRecent(items, e, edit, LeadBefore(items, i, m.containerId), m.timestamp);
    hide LeadBefore, Recent;
  }

  lemma SlotKeepsIds(items: seq<MemoryItem>, e: nat, edit: MemoryItem)
    requires e < |items| && SameSlot(items[e], edit) && DistinctTelegramIds(items)
    ensures DistinctTelegramIds(items[e := edit])
  {
  }

  // The lines of two bodies with the same quoted records differ exactly where the edited one is.
  lemma QuotedDiffer(items: seq<MemoryItem>, e: nat, edit: MemoryItem, leads: seq<nat>)
    requires e < |items| && forall k | 0 <= k < |leads| :: leads[k] < |items|
    ensures QuotedLines(items[e := edit], leads) == QuotedLines(items, leads) <==>
      e !in leads || Quoted(edit) == Quoted(items[e])
  {
    hide Quoted;
    var a, b := QuotedLines(items[e := edit], leads), QuotedLines(items, leads);
    if e in leads {
      var k :| 0 <= k < |leads| && leads[k] == e;
      assert a[k] == Quoted(edit) && b[k] == Quoted(items[e]);
    }
  }

  // One record answers at most one other.
  lemma OneReplied(items: seq<MemoryItem>, i: nat, p: nat, q: nat)
    requires i < |items| && DistinctTelegramIds(items) && Replied(items, i, p) && Replied(items, i, q)
    ensures p == q
  {
    hide Leads;
  }

  lemma ChatBodiesDiffer(items: seq<MemoryItem>, e: nat, edit: MemoryItem, i: nat)
    requires e < |items| && i < |items| && i != e && SameSlot(items[e], edit) && DistinctTelegramIds(items)
    requires IsChat(items[i])
    ensures var a, b := BodyOf(items[e := edit], i), BodyOf(items, i);
      && |a| == |b| && (forall k | 0 <= k < |a| - 1 :: OneLine(a[k]) && OneLine(b[k]))
      && (a == b <==> !QuotesRecord(items, e, i) || Quoted(edit) == Quoted(items[e]))
  {
    var items', leads := items[e := edit], Leads(items, i);
    SlotKeepsIds(items, e, edit);
    ChatBodyIs(items, i);
    ChatBodyIs(items', i);
    EditKeepsLeads(items, e, edit, i);
    LeadsAre(items, i);
    LeadIsJustBefore(items, e, i);
    QuotedDiffer(items, e, edit, leads);
    RepliesAre(items, e, i);
    assert items'[i] == items[i];
    hide Leads, JustBefore, InChat, BodyOf, LeadsInto, DistinctTelegramIds, Quoted, OneLine, QuotedLines, ChatSays,
      Replied, RepliesTo;
    if r: nat :| Replied(items, i, r) {
      MarkedBodiesDiffer(items, items', i, leads, r, BodyOf(items', i), BodyOf(items, i));
      RepliedIsNoLead(items, i, r);
      if Replied(items, i, e) { OneReplied(items, i, e, r); }
      assert r != e ==> items'[r] == items[r];
    } else {
      PlainBodiesDiffer(items, items', i, leads, BodyOf(items', i), BodyOf(items, i));
    }
  }

  lemma QuotedOneLine(items: seq<MemoryItem>, leads: seq<nat>)
    requires forall k | 0 <= k < |leads| :: leads[k] < |items|
    ensures forall k | 0 <= k < |leads| :: OneLine(QuotedLines(items, leads)[k])
    ensures forall p | 0 <= p < |items| :: OneLine("> " + Quoted(items[p]))
  {
    forall p | 0 <= p < |items|
      ensures OneLine(Quoted(items[p])) && OneLine("> " + Quoted(items[p]))
    {
      ClipLineIs(OwnLine(items[p]), 200);
    }
    hide Quoted;
  }

  // A reply that is no lead quotes the record above the others.
  lemma RepliesAre(items: seq<MemoryItem>, e: nat, i: nat)
    requires i < |items| && e < |items| && IsTelegram(items[e]) && IsChat(items[i])
    ensures e !in Leads(items, i) ==> (RepliesTo(items, e, i) <==> Replied(items, i, e))
  {
    hide Leads;
  }

  lemma PlainBodiesDiffer(items: seq<MemoryItem>, items': seq<MemoryItem>, i: nat, leads: seq<nat>, a: seq<string>,
                          b: seq<string>)
    requires i < |items| == |items'| && items'[i] == items[i]
    requires Leads(items, i) == leads == Leads(items', i) && ChatSays(items', i, a) && ChatSays(items, i, b)
    requires forall p: nat :: !Replied(items, i, p) && !Replied(items', i, p)
    ensures |a| == |b| && (forall k | 0 <= k < |a| - 1 :: OneLine(a[k]) && OneLine(b[k]))
    ensures a == b <==> QuotedLines(items', leads) == QuotedLines(items, leads)
  {
    hide Replied, Quoted, OwnLine;
    NoReplyLine(items, i, b);
    NoReplyLine(items', i, a);
    QuotedOneLine(items, leads);
    QuotedOneLine(items', leads);
    hide Leads, ChatSays, QuotedLines;
    PlainApart(QuotedLines(items', leads), QuotedLines(items, leads), OwnLine(items[i]));
  }

  lemma MarkedBodiesDiffer(items: seq<MemoryItem>, items': seq<MemoryItem>, i: nat, leads: seq<nat>, r: nat,
                           a: seq<string>, b: seq<string>)
    requires i < |items| == |items'| && items'[i] == items[i]
    requires DistinctTelegramIds(items) && DistinctTelegramIds(items')
    requires Leads(items, i) == leads == Leads(items', i) && ChatSays(items', i, a) && ChatSays(items, i, b)
    requires Replied(items, i, r) && Replied(items', i, r)
    ensures |a| == |b| && (forall k | 0 <= k < |a| - 1 :: OneLine(a[k]) && OneLine(b[k]))
    ensures r < |items|
    ensures a == b <==> Quoted(items'[r]) == Quoted(items[r]) && QuotedLines(items', leads) == QuotedLines(items, leads)
  {
    hide Quoted, OwnLine;
    ReplyLine(items, i, r, b);
    ReplyLine(items', i, r, a);
    QuotedOneLine(items, leads);
    QuotedOneLine(items', leads);
    hide Leads, ChatSays, QuotedLines;
    MarkedApart("> " + Quoted(items'[r]), "> " + Quoted(items[r]), QuotedLines(items', leads),
                QuotedLines(items, leads), OwnLine(items[i]));
    MarkEqual(Quoted(items'[r]), Quoted(items[r]));
  }

  lemma NoReplyLine(items: seq<MemoryItem>, i: nat, body: seq<string>)
    requires i < |items| && ChatSays(items, i, body) && forall p: nat :: !Replied(items, i, p)
    ensures body == QuotedLines(items, Leads(items, i)) + [OwnLine(items[i])]
  {
  }

  // The line above the others is that of the one record answered.
  lemma ReplyLine(items: seq<MemoryItem>, i: nat, r: nat, body: seq<string>)
    requires i < |items| && Replied(items, i, r) && DistinctTelegramIds(items) && ChatSays(items, i, body)
    ensures body == ["> " + Quoted(items[r])] + (QuotedLines(items, Leads(items, i)) + [OwnLine(items[i])])
  {
    hide Leads, Quoted, QuotedLines, OwnLine;
    var q: nat :|
      Replied(items, i, q) &&
      body == ["> " + Quoted(items[q])] + (QuotedLines(items, Leads(items, i)) + [OwnLine(items[i])]);
    OneReplied(items, i, q, r);
  }

  lemma PlainApart(x: seq<string>, y: seq<string>, own: string)
    requires |x| == |y| && forall k | 0 <= k < |x| :: OneLine(x[k]) && OneLine(y[k])
    ensures var a, b := x + [own], y + [own];
      && (forall k | 0 <= k < |a| - 1 :: OneLine(a[k]) && OneLine(b[k])) && (a == b <==> x == y)
  {
    hide OneLine;
    SnocEqual(x, y, own, own);
  }

  lemma MarkedApart(p: string, q: string, x: seq<string>, y: seq<string>, own: string)
    requires OneLine(p) && OneLine(q)
    requires |x| == |y| && forall k | 0 <= k < |x| :: OneLine(x[k]) && OneLine(y[k])
    ensures var a, b := [p] + (x + [own]), [q] + (y + [own]);
      && (forall k | 0 <= k < |a| - 1 :: OneLine(a[k]) && OneLine(b[k])) && (a == b <==> p == q && x == y)
  {
    hide OneLine;
    PlainApart(x, y, own);
    ConsEqual(p, q, x + [own], y + [own]);
    var a, b := [p] + (x + [own]), [q] + (y + [own]);
    forall k | 0 < k < |a| - 1
      ensures a[k] == x[k - 1] && b[k] == y[k - 1]
    {
    }
  }

  lemma RepliedIsNoLead(items: seq<MemoryItem>, i: nat, p: nat)
    requires i < |items| && Replied(items, i, p)
    ensures p !in Leads(items, i)
  {
  }

  lemma ConsEqual(p: string, q: string, a: seq<string>, b: seq<string>)
    ensures [p] + a == [q] + b <==> p == q && a == b
  {
    if [p] + a == [q] + b {
      assert p == ([p] + a)[0] && q == ([q] + b)[0];
      assert a == ([p] + a)[1..] && b == ([q] + b)[1..];
    }
  }

  lemma MarkEqual(a: string, b: string)
    ensures "> " + a == "> " + b <==> a == b
  {
    if "> " + a == "> " + b { assert a == ("> " + a)[2..] && b == ("> " + b)[2..]; }
  }

  // Editing a Telegram message changes another record's unit exactly when that quotes its line
  // and the line reads differently where it is cut.
  lemma EditChangesHash(codec: Codec, items: seq<MemoryItem>, e: nat, edit: MemoryItem, i: nat)
    requires e < |items| && i < |items| && i != e && SameSlot(items[e], edit) && items[e].metadata.kind != "title"
    requires DistinctTelegramIds(items) && Injective(codec.hash)
    ensures UnitOf(codec, items[e := edit], i).meta.contentHash != UnitOf(codec, items, i).meta.contentHash <==>
      QuotesRecord(items, e, i) && Quoted(edit) != Quoted(items[e])
  {
    var a, b := BodyOf(items[e := edit], i), BodyOf(items, i);
    SameLast(items, e, edit, |items|, TitleIn(items[i].metadata.containerId));
    if IsChat(items[i]) {
      ChatBodiesDiffer(items, e, edit, i);
      hide BodyOf, Quoted, QuotesRecord;
      if Join(a, "\n") == Join(b, "\n") { LinesJoinApart(a, b); }
    } else {
      SameBody(items, e, edit, i);
    }
    hide BodyOf, Join, SessionTitle, ContextHeader, Quoted, Last;
    var title := TitleOf(items, |items|, items[i].metadata.containerId);
    HashesDiffer(codec, items[i], title, a, b);
  }

  lemma HashesDiffer(codec: Codec, item: MemoryItem, title: string, a: seq<string>, b: seq<string>)
    requires Injective(codec.hash)
    ensures MakeUnit(codec, item, title, a).meta.contentHash == MakeUnit(codec, item, title, b).meta.contentHash <==>
      Join(a, "\n") == Join(b, "\n")
  {
    var m := item.metadata;
    var header :=
      ContextHeader(codec, m.(containerTitle := if m.containerTitle == "" then title else m.containerTitle));
    hide Join, ContextHeader;
    SameEnds(header + "\n", Join(a, "\n"), Join(b, "\n"), "");
    assert header + "\n" + Join(a, "\n") + "" == header + "\n" + Join(a, "\n");
    assert header + "\n" + Join(b, "\n") + "" == header + "\n" + Join(b, "\n");
  }
}
