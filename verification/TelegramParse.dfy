// Telegram exports: a message occurs once for each of its versions, and the last one wins
// (telegram.go).
module TelegramParse {
  import opened Wrappers
  import opened Text
  import opened Records
  import ContextUnits

  datatype TelegramLine = TelegramLine(id: string, chatId: string, chatType: string, chatTitle: string,
                                       topicId: string, date: int, editDate: int, senderId: string, senderName: string,
                                       replyTo: string, fwdFrom: string, media: string, text: string)

  // JSON encoding of the extra attributes, and SHA-256.
  datatype Codec = Codec(attrs: (string, int, string) -> string, hash: string -> string)

  function Attrs(codec: Codec, line: TelegramLine): string {
    if line.fwdFrom == "" && line.editDate == 0 && line.media == "" then ""
    else codec.attrs(line.fwdFrom, line.editDate, line.media)
  }

  function ItemOf(codec: Codec, host: string, line: TelegramLine): MemoryItem {
    var container := if line.topicId != "" then line.chatId + ":" + line.topicId else line.chatId;
    var prefix := host + "/telegram/" + container + "/";
    var text := TrimSpace(line.text);
    MemoryItem(prefix + line.id, [], text,
               Metadata("telegram", host, container, line.chatType, line.chatTitle, "", line.senderId, line.senderName,
                        "message", if line.replyTo != "" then prefix + line.replyTo else "",
                        if line.date == 0 then 1 else line.date, Attrs(codec, line), codec.hash(text), "", 0, 0))
  }

  // A line that could not be decoded is absent.
  predicate Readable(line: Option<TelegramLine>) { line.Some? && line.value.id != "" && line.value.chatId != "" }

  // Every version of every message, in the order of the export.
  function Versions(codec: Codec, host: string, lines: seq<Option<TelegramLine>>): seq<MemoryItem> {
    if lines == [] then []
    else
      var last := lines[|lines| - 1];
      var earlier := Versions(codec, host, lines[..|lines| - 1]);
      if Readable(last) then earlier + [ItemOf(codec, host, last.value)] else earlier
  }

  // Where an id first appears; past the end when it does not.
  function First(vs: seq<MemoryItem>, id: string): (i: nat)
    ensures i <= |vs| && (i < |vs| ==> vs[i].id == id)
    ensures forall k | 0 <= k < i :: vs[k].id != id
  {
    if vs == [] then 0 else if vs[0].id == id then 0 else 1 + First(vs[1..], id)
  }

  predicate Appears(vs: seq<MemoryItem>, id: string) { exists i | 0 <= i < |vs| :: vs[i].id == id }

  // An item is the last version of its id.
  predicate IsLast(vs: seq<MemoryItem>, item: MemoryItem) {
    exists i | 0 <= i < |vs| :: vs[i] == item && forall k | i < k < |vs| :: vs[k].id != item.id
  }

  // One item per id, its last version, in the order of first appearance.
  ghost predicate Merged(vs: seq<MemoryItem>, items: seq<MemoryItem>) {
    && (forall k | 0 <= k < |items| :: IsLast(vs, items[k]))
    && (forall id: string :: Appears(vs, id) <==> Appears(items, id))
    && InOrder(vs, items)
  }

  ghost predicate InOrder(vs: seq<MemoryItem>, items: seq<MemoryItem>) {
    forall k, l | 0 <= k < l < |items| :: First(vs, items[k].id) < First(vs, items[l].id)
  }

  lemma {:induction false} FirstStays(vs: seq<MemoryItem>, v: MemoryItem, id: string)
    ensures First(vs + [v], id) ==
      if First(vs, id) < |vs| then First(vs, id) else if v.id == id then |vs| else |vs| + 1
  {
    if vs == [] {
      assert vs + [v] == [v];
      assert [v][1..] == [];
    } else {
      assert (vs + [v])[1..] == vs[1..] + [v] && (vs + [v])[0] == vs[0];
      FirstStays(vs[1..], v, id);
    }
  }

  lemma AppearsBefore(vs: seq<MemoryItem>, id: string)
    ensures Appears(vs, id) <==> First(vs, id) < |vs|
  {
  }

  lemma AppearsSnoc(vs: seq<MemoryItem>, v: MemoryItem, id: string)
    ensures Appears(vs + [v], id) <==> Appears(vs, id) || v.id == id
  {
    var all := vs + [v];
    assert all[|vs|] == v;
    if Appears(vs, id) {
      var i :| 0 <= i < |vs| && vs[i].id == id;
      assert all[i].id == id;
    }
  }

  lemma LastSnoc(vs: seq<MemoryItem>, v: MemoryItem, item: MemoryItem)
    ensures IsLast(vs, item) && item.id != v.id ==> IsLast(vs + [v], item)
    ensures IsLast(vs + [v], v)
    ensures IsLast(vs, item) ==> Appears(vs, item.id)
  {
    var all := vs + [v];
    assert all[|vs|] == v;
    if IsLast(vs, item) && item.id != v.id {
      var i :| 0 <= i < |vs| && vs[i] == item && forall k | i < k < |vs| :: vs[k].id != item.id;
      assert all[i] == item && forall k | i < k < |all| :: all[k].id != item.id;
    }
  }

  // A new id is appended, a known one overwrites its item.
  lemma MergeNew(vs: seq<MemoryItem>, items: seq<MemoryItem>, v: MemoryItem)
    requires Merged(vs, items) && !Appears(vs, v.id)
    ensures Merged(vs + [v], items + [v])
  {
    var all, merged := vs + [v], items + [v];
    hide IsLast, Appears, First;
    forall k | 0 <= k < |merged|
      ensures IsLast(all, merged[k])
      ensures k < |items| ==> First(all, merged[k].id) == First(vs, items[k].id) < |vs|
    {
      LastSnoc(vs, v, v);
      if k < |items| {
        assert IsLast(vs, items[k]);
        LastSnoc(vs, v, items[k]);
        AppearsBefore(vs, items[k].id);
        FirstStays(vs, v, items[k].id);
      }
    }
    AppearsBefore(vs, v.id);
    FirstStays(vs, v, v.id);
    forall id: string
      ensures Appears(all, id) <==> Appears(merged, id)
    {
      AppearsSnoc(vs, v, id);
      AppearsSnoc(items, v, id);
    }
    assert InOrder(all, merged);
  }

  lemma AppearsUpdate(items: seq<MemoryItem>, i: nat, v: MemoryItem, id: string)
    requires i < |items| && items[i].id == v.id
    ensures Appears(items[i := v], id) <==> Appears(items, id)
  {
    var all := items[i := v];
    assert forall k | 0 <= k < |items| :: all[k].id == items[k].id;
  }

  lemma MergeKnown(vs: seq<MemoryItem>, items: seq<MemoryItem>, v: MemoryItem, i: nat)
    requires Merged(vs, items) && i < |items| && items[i].id == v.id
    ensures Merged(vs + [v], items[i := v])
  {
    var all, merged := vs + [v], items[i := v];
    hide IsLast, Appears, First;
    forall k | 0 <= k < |merged|
      ensures First(all, merged[k].id) == First(vs, items[k].id)
    {
      assert IsLast(vs, items[k]);
      LastSnoc(vs, v, items[k]);
      AppearsBefore(vs, items[k].id);
      FirstStays(vs, v, items[k].id);
    }
    forall k | 0 <= k < |merged|
      ensures IsLast(all, merged[k])
    {
      LastSnoc(vs, v, v);
      if k != i {
        assert items[k].id != v.id;
        LastSnoc(vs, v, items[k]);
      }
    }
    assert IsLast(vs, items[i]);
    LastSnoc(vs, v, items[i]);
    forall id: string
      ensures Appears(all, id) <==> Appears(merged, id)
    {
      AppearsSnoc(vs, v, id);
      AppearsUpdate(items, i, v, id);
    }
  }

  // The items with text, in order.
  function WithText(items: seq<MemoryItem>): (kept: seq<MemoryItem>)
    ensures forall item :: item in kept <==> item in items && item.text != ""
  {
    if items == [] then []
    else
      var last := items[|items| - 1];
      SplitLast(items);
      WithText(items[..|items| - 1]) + (if last.text != "" then [last] else [])
  }

  ghost predicate Below(vs: seq<MemoryItem>, items: seq<MemoryItem>, last: MemoryItem) {
    forall item | item in items :: First(vs, item.id) < First(vs, last.id)
  }

  lemma InOrderSnoc(vs: seq<MemoryItem>, items: seq<MemoryItem>, last: MemoryItem)
    ensures InOrder(vs, items + [last]) <==> InOrder(vs, items) && Below(vs, items, last)
  {
    hide First;
    var all := items + [last];
    assert all[|items|] == last && forall k | 0 <= k < |items| :: all[k] == items[k];
    if InOrder(vs, all) {
      assert forall k | 0 <= k < |items| :: First(vs, all[k].id) < First(vs, all[|items|].id);
    }
  }

  lemma {:induction false} WithTextInOrder(vs: seq<MemoryItem>, items: seq<MemoryItem>)
    requires InOrder(vs, items)
    ensures InOrder(vs, WithText(items))
  {
    if items != [] {
      var n := |items| - 1;
      SplitLast(items);
      WithTextStep(items);
      hide InOrder, WithText, First;
      InOrderSnoc(vs, items[..n], items[n]);
      WithTextInOrder(vs, items[..n]);
      InOrderSnoc(vs, WithText(items[..n]), items[n]);
      if items[n].text == "" { assert WithText(items[..n]) + [] == WithText(items[..n]); }
    }
  }

  lemma WithTextStep(items: seq<MemoryItem>)
    requires items != []
    ensures WithText(items) ==
      WithText(items[..|items| - 1]) + (if items[|items| - 1].text != "" then [items[|items| - 1]] else [])
  {
  }

  // Where an item goes among sorted ones: after all that are not later.
  function InsertAt(s: seq<MemoryItem>, x: MemoryItem): (i: nat)
    ensures i <= |s|
    ensures i > 0 ==> s[i - 1].metadata.timestamp <= x.metadata.timestamp
    ensures forall k | i <= k < |s| :: s[k].metadata.timestamp > x.metadata.timestamp
  {
    if s == [] || s[|s| - 1].metadata.timestamp <= x.metadata.timestamp then |s| else InsertAt(s[..|s| - 1], x)
  }

  function Insert(s: seq<MemoryItem>, x: MemoryItem): seq<MemoryItem> {
    s[..InsertAt(s, x)] + [x] + s[InsertAt(s, x)..]
  }

  // Sorting by timestamp that keeps the order of equals.
  function SortedByTime(s: seq<MemoryItem>): seq<MemoryItem> {
    if s == [] then [] else Insert(SortedByTime(s[..|s| - 1]), s[|s| - 1])
  }

  // By timestamp, then by first appearance.
  predicate Precedes(vs: seq<MemoryItem>, a: MemoryItem, b: MemoryItem) {
    || a.metadata.timestamp < b.metadata.timestamp
    || (a.metadata.timestamp == b.metadata.timestamp && First(vs, a.id) < First(vs, b.id))
  }

  ghost predicate Ordered(vs: seq<MemoryItem>, s: seq<MemoryItem>) {
    forall k, l | 0 <= k < l < |s| :: Precedes(vs, s[k], s[l])
  }

  lemma InsertAtIs(s: seq<MemoryItem>, x: MemoryItem, i: nat)
    requires i <= |s| && (i > 0 ==> s[i - 1].metadata.timestamp <= x.metadata.timestamp)
    requires forall k | i <= k < |s| :: s[k].metadata.timestamp > x.metadata.timestamp
    ensures InsertAt(s, x) == i
  {
    var j := InsertAt(s, x);
    assert i > 0 ==> s[i - 1].metadata.timestamp <= x.metadata.timestamp;
    assert j > 0 ==> s[j - 1].metadata.timestamp <= x.metadata.timestamp;
  }

  lemma InsertIs(s: seq<MemoryItem>, x: MemoryItem)
    ensures Insert(s, x) == s[..InsertAt(s, x)] + [x] + s[InsertAt(s, x)..]
  {
  }

  lemma NotLater(vs: seq<MemoryItem>, s: seq<MemoryItem>, time: int, i: nat, k: nat)
    requires Ordered(vs, s) && k < i <= |s| && s[i - 1].metadata.timestamp <= time
    ensures s[k].metadata.timestamp <= time
  {
    hide Ordered, Precedes;
    if k != i - 1 {
      OrderedAt(vs, s, k, i - 1);
      TimesAgree(vs, s[k], s[i - 1]);
    }
  }

  lemma TimesAgree(vs: seq<MemoryItem>, a: MemoryItem, b: MemoryItem)
    requires Precedes(vs, a, b)
    ensures a.metadata.timestamp <= b.metadata.timestamp
  {
    hide First;
  }

  lemma OrderedAt(vs: seq<MemoryItem>, s: seq<MemoryItem>, k: nat, l: nat)
    requires Ordered(vs, s) && k < l < |s|
    ensures Precedes(vs, s[k], s[l])
  {
    hide Precedes;
  }

  lemma InsertMembers(s: seq<MemoryItem>, x: MemoryItem)
    ensures forall item :: item in Insert(s, x) <==> item in s || item == x
  {
    var i := InsertAt(s, x);
    hide InsertAt;
    assert s == s[..i] + s[i..];
  }

  lemma InsertOrdered(vs: seq<MemoryItem>, s: seq<MemoryItem>, x: MemoryItem)
    requires Ordered(vs, s) && forall k | 0 <= k < |s| :: First(vs, s[k].id) < First(vs, x.id)
    ensures Ordered(vs, Insert(s, x))
  {
    var i := InsertAt(s, x);
    var t := Insert(s, x);
    InsertIndex(s, x, 0);
    hide First, InsertAt, Insert;
    forall k, l | 0 <= k < l < |t|
      ensures Precedes(vs, t[k], t[l])
    {
      InsertIndex(s, x, k);
      InsertIndex(s, x, l);
      if l == i { NotLater(vs, s, x.metadata.timestamp, i, k); }
    }
  }

  lemma InsertIndex(s: seq<MemoryItem>, x: MemoryItem, k: nat)
    requires k <= |s|
    ensures var i := InsertAt(s, x);
      |Insert(s, x)| == |s| + 1 && Insert(s, x)[k] == if k < i then s[k] else if k == i then x else s[k - 1]
  {
    hide InsertAt;
  }

  lemma {:induction false} SortOrdered(vs: seq<MemoryItem>, s: seq<MemoryItem>)
    requires InOrder(vs, s)
    ensures Ordered(vs, SortedByTime(s))
    ensures forall item :: item in SortedByTime(s) <==> item in s
  {
    if s != [] {
      var n := |s| - 1;
      assert forall k | 0 <= k < n :: s[..n][k] == s[k];
      SortOrdered(vs, s[..n]);
      SplitLast(s);
      var sorted := SortedByTime(s[..n]);
      hide First, Insert, Precedes;
      forall k | 0 <= k < |sorted|
        ensures First(vs, sorted[k].id) < First(vs, s[n].id)
      {
        assert sorted[k] in sorted;
        var m :| 0 <= m < n && s[..n][m] == sorted[k];
        assert s[m] == sorted[k];
      }
      InsertOrdered(vs, sorted, s[n]);
      InsertMembers(sorted, s[n]);
    }
  }

  // What a parse returns: exactly the last version of each id whose text is not empty,
  // ordered by timestamp and then by first appearance.
  ghost predicate Parsed(vs: seq<MemoryItem>, r: seq<MemoryItem>) {
    && (forall item :: item in r <==> IsLast(vs, item) && item.text != "")
    && Ordered(vs, r)
  }

  // The row says what the line says: who wrote what when, where, and in answer to what.
  ghost predicate FromLine(codec: Codec, host: string, line: TelegramLine, x: MemoryItem) {
    var m := x.metadata;
    && x.vector == [] && x.text == TrimSpace(line.text)
    && m.containerId == (if line.topicId == "" then line.chatId else line.chatId + ":" + line.topicId)
    && x.id == host + "/telegram/" + m.containerId + "/" + line.id
    && m.replyTo == (if line.replyTo == "" then "" else host + "/telegram/" + m.containerId + "/" + line.replyTo)
    && m.authorId == line.senderId && m.authorName == line.senderName
    && m.containerKind == line.chatType && m.containerTitle == line.chatTitle
    && m.timestamp == (if line.date == 0 then 1 else line.date)
    && m.source == "telegram" && m.host == host && m.kind == "message" && m.contentHash == codec.hash(x.text)
    && m.attrs == (if line.fwdFrom == "" && line.editDate == 0 && line.media == "" then ""
                   else codec.attrs(line.fwdFrom, line.editDate, line.media))
    && m.project == m.messageId == "" && m.chunkIndex == m.chunkCount == 0
  }

  // The row says what line j says, the last readable one of its message.
  ghost predicate TakenFrom(codec: Codec, host: string, lines: seq<Option<TelegramLine>>, x: MemoryItem, j: nat) {
    && j < |lines| && Readable(lines[j]) && FromLine(codec, host, lines[j].value, x)
    && forall k | j < k < |lines| && Readable(lines[k]) :: ItemOf(codec, host, lines[k].value).id != x.id
  }

  lemma ItemSaysLine(codec: Codec, host: string, line: TelegramLine)
    ensures FromLine(codec, host, line, ItemOf(codec, host, line))
  {
  }

  lemma StaysTaken(codec: Codec, host: string, lines: seq<Option<TelegramLine>>, x: MemoryItem, j: nat)
    requires lines != [] && TakenFrom(codec, host, lines[..|lines| - 1], x, j)
    requires var last := lines[|lines| - 1]; Readable(last) ==> ItemOf(codec, host, last.value).id != x.id
    ensures TakenFrom(codec, host, lines, x, j)
  {
    hide ItemOf, FromLine;
    var n := |lines| - 1;
    assert lines[j] == lines[..n][j];
    forall k | j < k < |lines| && Readable(lines[k])
      ensures ItemOf(codec, host, lines[k].value).id != x.id
    {
      assert k < n ==> lines[..n][k] == lines[k];
    }
  }

  // Every row of a parse comes from the last line of its message.
  lemma {:induction false} RowsAreLines(codec: Codec, host: string, lines: seq<Option<TelegramLine>>, x: MemoryItem)
    requires IsLast(Versions(codec, host, lines), x)
    ensures exists j :: TakenFrom(codec, host, lines, x, j)
  {
    hide ItemOf, FromLine;
    var n := |lines| - 1;
    var vs := Versions(codec, host, lines);
    var i :| 0 <= i < |vs| && vs[i] == x && forall k | i < k < |vs| :: vs[k].id != x.id;
    var earlier := Versions(codec, host, lines[..n]);
    if i == |earlier| {
      ItemSaysLine(codec, host, lines[n].value);
      assert TakenFrom(codec, host, lines, x, n);
    } else {
      assert earlier[i] == x && forall k | i < k < |earlier| :: earlier[k] == vs[k];
      assert IsLast(earlier, x);
      RowsAreLines(codec, host, lines[..n], x);
      if Readable(lines[n]) { assert vs[|earlier|] == ItemOf(codec, host, lines[n].value); }
      hide TakenFrom;
      var j: nat :| TakenFrom(codec, host, lines[..n], x, j);
      StaysTaken(codec, host, lines, x, j);
    }
  }

  lemma SameIdSameItem(vs: seq<MemoryItem>, a: MemoryItem, b: MemoryItem)
    requires IsLast(vs, a) && IsLast(vs, b)
    ensures a.id == b.id ==> a == b
  {
  }

  lemma MergedHasAll(vs: seq<MemoryItem>, items: seq<MemoryItem>, item: MemoryItem)
    requires Merged(vs, items)
    ensures item in items <==> IsLast(vs, item)
  {
    if IsLast(vs, item) {
      LastSnoc(vs, item, item);
      assert Appears(items, item.id);
      var k :| 0 <= k < |items| && items[k].id == item.id;
      SameIdSameItem(vs, items[k], item);
    }
  }

  lemma ParseIs(vs: seq<MemoryItem>, items: seq<MemoryItem>)
    requires Merged(vs, items)
    ensures Parsed(vs, SortedByTime(WithText(items)))
  {
    var r := SortedByTime(WithText(items));
    WithTextInOrder(vs, items);
    SortOrdered(vs, WithText(items));
    hide SortedByTime, WithText, Merged, IsLast;
    forall item
      ensures item in r <==> IsLast(vs, item) && item.text != ""
    {
      MergedHasAll(vs, items, item);
    }
  }

  // That description leaves no choice.
  lemma {:induction false} OneParse(vs: seq<MemoryItem>, a: seq<MemoryItem>, b: seq<MemoryItem>)
    requires Ordered(vs, a) && Ordered(vs, b) && forall item :: item in a <==> item in b
    ensures a == b
    decreases |a|
  {
    if a == [] {
      SomeMember(b);
    } else {
      var n, m := |a| - 1, |b| - 1;
      assert a[n] in a;
      hide First;
      assert b != [];
      assert b[m] in b;
      LastOfBoth(vs, a, b);
      ButLast(vs, a);
      ButLast(vs, b);
      forall item
        ensures item in a[..n] <==> item in b[..m]
      {
        assert item in a[..n] <==> item in a && item != a[n];
        assert item in b[..m] <==> item in b && item != b[m];
        assert a[n] == b[m];
        assert item in a <==> item in b;
      }
      OneParse(vs, a[..n], b[..m]);
      SplitLast(a);
      SplitLast(b);
    }
  }

  lemma LastOfBoth(vs: seq<MemoryItem>, a: seq<MemoryItem>, b: seq<MemoryItem>)
    requires Ordered(vs, a) && Ordered(vs, b) && a != [] && b != [] && a[|a| - 1] in b && b[|b| - 1] in a
    ensures a[|a| - 1] == b[|b| - 1]
  {
    hide First;
    BeforeLast(vs, a, b[|b| - 1]);
    BeforeLast(vs, b, a[|a| - 1]);
  }

  lemma BeforeLast(vs: seq<MemoryItem>, s: seq<MemoryItem>, x: MemoryItem)
    requires Ordered(vs, s) && x in s
    ensures x == s[|s| - 1] || Precedes(vs, x, s[|s| - 1])
  {
    hide Precedes;
    var i :| 0 <= i < |s| && s[i] == x;
    assert i < |s| - 1 ==> Precedes(vs, s[i], s[|s| - 1]);
  }

  lemma ButLast(vs: seq<MemoryItem>, s: seq<MemoryItem>)
    requires Ordered(vs, s) && s != []
    ensures Ordered(vs, s[..|s| - 1])
    ensures forall item :: item in s[..|s| - 1] <==> item in s && item != s[|s| - 1]
  {
    hide First;
    var n := |s| - 1;
    forall item
      ensures item in s[..n] <==> item in s && item != s[n]
    {
      if item in s && item != s[n] {
        var k :| 0 <= k < |s| && s[k] == item;
        assert s[..n][k] == item;
      }
      if item in s[..n] {
        var k :| 0 <= k < n && s[..n][k] == item;
        assert Precedes(vs, s[k], s[n]);
      }
    }
  }

  // No two parsed messages share an id.
  lemma ParsedIdsDiffer(vs: seq<MemoryItem>, r: seq<MemoryItem>)
    requires Parsed(vs, r)
    ensures forall k, l | 0 <= k < l < |r| :: r[k].id != r[l].id
  {
    forall k, l | 0 <= k < l < |r|
      ensures r[k].id != r[l].id
    {
      assert r[k] in r && r[l] in r;
      SameIdSameItem(vs, r[k], r[l]);
      hide IsLast, First;
      assert Precedes(vs, r[k], r[l]);
    }
  }

  // A reply names the id that the message it answers gets.
  lemma RepliesNameTheirMessage(codec: Codec, host: string, message: TelegramLine, reply: TelegramLine)
    requires reply.chatId == message.chatId && reply.topicId == message.topicId && message.id != ""
    ensures reply.replyTo == message.id ==>
      ItemOf(codec, host, reply).metadata.replyTo == ItemOf(codec, host, message).id
  {
  }

  // ----- An edit is one more line -----

  lemma LastWithout(vs: seq<MemoryItem>, v: MemoryItem, item: MemoryItem)
    requires item.id != v.id
    ensures IsLast(vs + [v], item) <==> IsLast(vs, item)
  {
    var all := vs + [v];
    LastSnoc(vs, v, item);
    if IsLast(all, item) {
      var i :| 0 <= i < |all| && all[i] == item && forall k | i < k < |all| :: all[k].id != item.id;
      assert i < |vs| && vs[i] == item;
      assert forall k | i < k < |vs| :: all[k] == vs[k];
    }
  }

  // Of distinct ids an edited row is in the slot of the old one alone.
  lemma OneSlot(r: seq<MemoryItem>, e: nat, v: MemoryItem, k: nat)
    requires (forall k, l | 0 <= k < l < |r| :: r[k].id != r[l].id) && e < |r| && k < |r|
    requires r[e].id == v.id == r[e := v][k].id
    ensures k == e
  {
  }

  lemma EditedMembers(vs: seq<MemoryItem>, v: MemoryItem, r: seq<MemoryItem>, e: nat, item: MemoryItem)
    requires Parsed(vs, r) && e < |r| && r[e].id == v.id && v.text != ""
    ensures item in r[e := v] <==> IsLast(vs + [v], item) && item.text != ""
  {
    var edited := r[e := v];
    assert edited[e] == v;
    LastSnoc(vs, v, v);
    ParsedIdsDiffer(vs, r);
    hide IsLast, Ordered;
    if item.id == v.id {
      if item in edited {
        var k :| 0 <= k < |r| && edited[k] == item;
        OneSlot(r, e, v, k);
      }
      if IsLast(vs + [v], item) { SameIdSameItem(vs + [v], item, v); }
    } else {
      LastWithout(vs, v, item);
      if item in edited {
        var k :| 0 <= k < |r| && edited[k] == item;
        assert r[k] == item;
      }
      if item in r {
        var k :| 0 <= k < |r| && r[k] == item;
        assert edited[k] == item;
      }
    }
  }

  lemma EditedOrder(vs: seq<MemoryItem>, v: MemoryItem, r: seq<MemoryItem>, e: nat)
    requires Parsed(vs, r) && e < |r| && r[e].id == v.id && r[e].metadata.timestamp == v.metadata.timestamp
    ensures Ordered(vs + [v], r[e := v])
  {
    var edited := r[e := v];
    forall k | 0 <= k < |r|
      ensures edited[k].id == r[k].id && edited[k].metadata.timestamp == r[k].metadata.timestamp
      ensures First(vs + [v], edited[k].id) == First(vs, r[k].id)
    {
      assert r[k] in r && IsLast(vs, r[k]);
      LastSnoc(vs, v, r[k]);
      AppearsBefore(vs, r[k].id);
      FirstStays(vs, v, r[k].id);
    }
    hide First, IsLast;
    forall k, l | 0 <= k < l < |r|
      ensures Precedes(vs + [v], edited[k], edited[l])
    {
      assert Precedes(vs, r[k], r[l]);
    }
  }

  // The parse of an export with an edit of a message is the parse without it, with the edit
  // in the message's place.
  lemma EditReplaces(vs: seq<MemoryItem>, v: MemoryItem, r: seq<MemoryItem>, r': seq<MemoryItem>, e: nat)
    requires Parsed(vs, r) && Parsed(vs + [v], r') && e < |r| && v.text != ""
    requires r[e].id == v.id && r[e].metadata.timestamp == v.metadata.timestamp
    ensures r' == r[e := v]
  {
    forall item
      ensures item in r[e := v] <==> IsLast(vs + [v], item) && item.text != ""
    {
      EditedMembers(vs, v, r, e, item);
    }
    EditedOrder(vs, v, r, e);
    hide IsLast, First, Ordered;
    OneParse(vs + [v], r', r[e := v]);
  }

  // An edit is a line of the same chat, topic, message and date as an earlier one whose text
  // it changes, and perhaps its author, its reply and its attributes. Parsing it changes at
  // most its own unit, those of the next two messages of its chat within ten minutes, and
  // those of later replies to it.
  lemma ParsedEditIsLocal(codec: Codec, host: string, lines: seq<Option<TelegramLine>>, line: TelegramLine,
                          edit: TelegramLine, r: seq<MemoryItem>, r': seq<MemoryItem>, context: ContextUnits.Codec,
                          e: nat, i: nat)
    requires Parsed(Versions(codec, host, lines), r) && Parsed(Versions(codec, host, lines + [Some(edit)]), r')
    requires e < |r| && i < |r| && r[e] == ItemOf(codec, host, line) && Readable(Some(edit))
      && TrimSpace(edit.text) != ""
    requires edit.id == line.id && edit.chatId == line.chatId && edit.topicId == line.topicId
    requires edit.chatType == line.chatType && edit.date == line.date
    ensures r' == r[e := ItemOf(codec, host, edit)]
    ensures ContextUnits.UnitOf(context, r', i) != ContextUnits.UnitOf(context, r, i) ==>
      i == e || ContextUnits.LeadsInto(r, e, i) || ContextUnits.RepliesTo(r, e, i)
  {
    var vs, v := Versions(codec, host, lines), ItemOf(codec, host, edit);
    assert (lines + [Some(edit)])[..|lines|] == lines;
    EditReplaces(vs, v, r, r', e);
    ParsedIdsDiffer(vs, r);
    hide Parsed, Versions, TrimSpace;
    ContextUnits.EditIsLocal(context, r, e, v, i);
  }

  lemma {:induction false} VersionsAreTelegram(codec: Codec, host: string, lines: seq<Option<TelegramLine>>)
    ensures forall x | x in Versions(codec, host, lines) ::
      x.metadata.source == "telegram" && x.metadata.kind == "message"
  {
    if lines != [] { VersionsAreTelegram(codec, host, lines[..|lines| - 1]); }
  }

  // ----- The parser -----

  // Moves the items with text to the front, over the items they came from.
  method KeepWithText(items: array<MemoryItem>) returns (kept: nat)
    modifies items
    ensures kept <= items.Length && items[..kept] == WithText(old(items[..]))
  {
    kept := 0;
    ghost var was := items[..];
    hide WithText;
    for i := 0 to items.Length
      invariant kept <= i && items[..kept] == WithText(was[..i])
      invariant items[i..] == was[i..]
    {
      assert items[i] == was[i] && items[i + 1..] == was[i + 1..] by { TailsAgree(items[..], was, i); }
      WithTextOfNext(was, i);
      if items[i].text != "" {
        ghost var before := items[..];
        items[kept] := items[i];
        assert items[..] == before[kept := was[i]];
        FrontGrows(before, kept, was[i]);
        kept := kept + 1;
      }
    }
    assert was[..items.Length] == was;
  }

  lemma FrontGrows(s: seq<MemoryItem>, n: nat, x: MemoryItem)
    requires n < |s|
    ensures s[n := x][..n + 1] == s[..n] + [x] && s[n := x][n + 1..] == s[n + 1..]
  {
  }

  lemma TailsAgree(s: seq<MemoryItem>, t: seq<MemoryItem>, i: nat)
    requires i < |s| == |t| && s[i..] == t[i..]
    ensures s[i] == t[i] && s[i + 1..] == t[i + 1..]
  {
    assert s[i..][0] == t[i..][0];
    assert s[i..][1..] == t[i..][1..];
  }

  lemma WithTextOfNext(items: seq<MemoryItem>, i: nat)
    requires i < |items|
    ensures WithText(items[..i + 1]) ==
      if items[i].text != "" then WithText(items[..i]) + [items[i]] else WithText(items[..i])
  {
    assert items[..i + 1][..i] == items[..i];
    assert WithText(items[..i]) + [] == WithText(items[..i]);
  }

  // Moves the i-th item back over the later ones before it.
  method MoveBack(items: array<MemoryItem>, i: nat)
    requires i < items.Length
    modifies items
    ensures items[..i + 1] == Insert(old(items[..i]), old(items[i]))
    ensures items[i + 1..] == old(items[i + 1..])
  {
    hide InsertAt, Insert;
    ghost var sorted := items[..i];
    var x := items[i];
    var j := i;
    while j > 0 && items[j - 1].metadata.timestamp > x.metadata.timestamp
      invariant j <= i
      invariant forall k | 0 <= k < j :: items[k] == sorted[k]
      invariant items[j] == x
      invariant forall k | j < k <= i :: items[k] == sorted[k - 1]
      invariant forall k | j <= k < i :: sorted[k].metadata.timestamp > x.metadata.timestamp
      invariant items[i + 1..] == old(items[i + 1..])
    {
      items[j], items[j - 1] := items[j - 1], x;
      j := j - 1;
    }
    InsertAtIs(sorted, x, j);
    InsertIs(sorted, x);
    MovedIs(items[..i + 1], sorted, x, j);
  }

  lemma MovedIs(t: seq<MemoryItem>, sorted: seq<MemoryItem>, x: MemoryItem, j: nat)
    requires |t| == |sorted| + 1 && j <= |sorted| && t[j] == x
    requires forall k | 0 <= k < j :: t[k] == sorted[k]
    requires forall k | j < k < |t| :: t[k] == sorted[k - 1]
    ensures t == sorted[..j] + [x] + sorted[j..]
  {
  }

  // A stable insertion sort of the first n items, by timestamp.
  method SortStable(items: array<MemoryItem>, n: nat)
    requires n <= items.Length
    modifies items
    ensures items[..n] == SortedByTime(old(items[..n]))
  {
    hide Insert;
    ghost var was := items[..];
    for i := 0 to n
      invariant items[..i] == SortedByTime(was[..i])
      invariant items[i..] == was[i..]
    {
      assert items[i] == items[i..][0] == was[i..][0] == was[i];
      assert items[i + 1..] == items[i..][1..] == was[i..][1..] == was[i + 1..];
      MoveBack(items, i);
      assert was[..i + 1][..i] == was[..i];
    }
    assert was[..n] == old(items[..n]);
  }

  // One item per id, in the order of first appearance.
  method MergeVersions(codec: Codec, host: string, lines: seq<Option<TelegramLine>>) returns (items: seq<MemoryItem>)
    ensures Merged(Versions(codec, host, lines), items)
  {
    var index: map<string, nat> := map[];
    items := [];
    hide ItemOf, Merged;
    NothingMerged();
    for n := 0 to |lines|
      invariant Merged(Versions(codec, host, lines[..n]), items)
      invariant Indexed(items, index)
    {
      assert lines[..n + 1][..n] == lines[..n];
      ghost var vs := Versions(codec, host, lines[..n]);
      var line := lines[n];
      if line.None? || line.value.id == "" || line.value.chatId == "" { continue; }
      var item := ItemOf(codec, host, line.value);
      if item.id in index {
        MergeKnown(vs, items, item, index[item.id]);
        items := items[index[item.id] := item];
      } else {
        NotYet(vs, items, index, item.id);
        MergeNew(vs, items, item);
        index := index[item.id := |items|];
        items := items + [item];
      }
    }
    assert lines[..|lines|] == lines;
  }

  // The index holds the place of every id.
  predicate Indexed(items: seq<MemoryItem>, index: map<string, nat>) {
    && (forall id | id in index :: index[id] < |items| && items[index[id]].id == id)
    && (forall k | 0 <= k < |items| :: items[k].id in index)
  }

  lemma NothingMerged()
    ensures Merged([], [])
  {
  }

  method ParseTelegram(codec: Codec, host: string, lines: seq<Option<TelegramLine>>) returns (r: seq<MemoryItem>)
    ensures Parsed(Versions(codec, host, lines), r)
  {
    var merged := MergeVersions(codec, host, lines);
    ghost var vs := Versions(codec, host, lines);
    ParseIs(vs, merged);
    hide Versions, Parsed, Merged, WithText, SortedByTime;
    var items := new MemoryItem[|merged|](i requires 0 <= i < |merged| => merged[i]);
    assert items[..] == merged;
    var kept := KeepWithText(items);
    SortStable(items, kept);
    r := items[..kept];
  }

  lemma NotYet(vs: seq<MemoryItem>, items: seq<MemoryItem>, index: map<string, nat>, id: string)
    requires Merged(vs, items) && Indexed(items, index) && id !in index
    ensures !Appears(vs, id)
  {
    assert !Appears(items, id);
  }
}
