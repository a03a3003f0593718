// Pages of rows by time and id, in the in-memory store and in Lance (mem.go, `byContainer`
// and `afterCursor`; lance.go, `Search` without a vector or a text).
module Pagination {
  import opened Wrappers
  import opened Ordering
  import opened Records
  import opened Tables
  import opened Sql
  import opened FilterSql
  import opened CursorSql

  // What a walk selects: the messages of a container, or the rows a filter matches that are
  // older than a bound, if one is given.
  datatype Query =
    | InContainer(containerId: string, host: string, source: string, kinds: set<string>)
    | Filtered(filter: Option<Filter>, beforeTs: int)

  predicate Selects(q: Query, x: MemoryItem) {
    match q
    case InContainer(containerId, host, source, kinds) =>
      && x.metadata.containerId == containerId && x.metadata.kind in kinds
      && (host != "" ==> x.metadata.host == host) && (source != "" ==> x.metadata.source == source)
    case Filtered(filter, beforeTs) => Matches(x, filter) && Before(x.metadata.timestamp, beforeTs)
  }

  datatype Cursor = Cursor(ts: int, id: string)

  predicate After(c: Cursor, x: MemoryItem) { AfterCursor(x.metadata.timestamp, x.id, c.ts, c.id) }

  // By timestamp, then by id.
  predicate Earlier(a: MemoryItem, b: MemoryItem) {
    || a.metadata.timestamp < b.metadata.timestamp
    || (a.metadata.timestamp == b.metadata.timestamp && StringLess(a.id, b.id))
  }

  ghost predicate Ascending(s: seq<MemoryItem>) { forall k, l | 0 <= k < l < |s| :: Earlier(s[k], s[l]) }

  predicate KeyedById(rows: Rows) { forall id | id in rows :: rows[id].id == id && id != "" }

  predicate InRows(rows: Rows, x: MemoryItem) { x.id in rows && rows[x.id] == x }

  // A page: the first rows, at most `limit` of them when it is positive, among the selected
  // rows after the cursor.
  ghost predicate IsPage(rows: Rows, q: Query, c: Cursor, limit: int, page: seq<MemoryItem>) {
    && Ascending(page)
    && (limit > 0 ==> |page| <= limit)
    && (forall x | x in page :: InRows(rows, x) && Selects(q, x) && After(c, x))
    && (forall x: MemoryItem | InRows(rows, x) && Selects(q, x) && After(c, x) ::
          x in page || (limit > 0 && |page| == limit && Earlier(page[|page| - 1], x)))
  }

  lemma EarlierTotal(a: MemoryItem, b: MemoryItem)
    ensures Earlier(a, b) || Earlier(b, a) || a.id == b.id
    ensures !(Earlier(a, b) && Earlier(b, a)) && !Earlier(a, a)
  {
    StringLessTrichotomy(a.id, b.id);
    StringLessTrichotomy(a.id, a.id);
  }

  lemma EarlierTransitive(a: MemoryItem, b: MemoryItem, c: MemoryItem)
    ensures Earlier(a, b) && Earlier(b, c) ==> Earlier(a, c)
  {
    if StringLess(a.id, b.id) && StringLess(b.id, c.id) { StringLessTransitive(a.id, b.id, c.id); }
  }

  // Going on after a row means going on with the later rows exactly when its timestamp is
  // positive; at or below zero the cursor compares ids alone.
  lemma CursorResumesIff(r: MemoryItem)
    requires r.id != ""
    ensures r.metadata.timestamp > 0 <==>
      forall x: MemoryItem :: After(Cursor(r.metadata.timestamp, r.id), x) <==> Earlier(r, x)
  {
    if r.metadata.timestamp <= 0 {
      var x := r.(id := "", metadata := r.metadata.(timestamp := r.metadata.timestamp + 1));
      assert Earlier(r, x);
      assert !StringLess(r.id, "");
    }
  }

  // ----- Sorting -----

  function Place(s: seq<MemoryItem>, x: MemoryItem): seq<MemoryItem> {
    if s == [] then [x]
    else if Earlier(x, s[0]) then [x] + s
    else [s[0]] + Place(s[1..], x)
  }

  lemma {:induction false} PlaceAscending(s: seq<MemoryItem>, x: MemoryItem)
    requires Ascending(s) && forall k | 0 <= k < |s| :: s[k].id != x.id
    ensures Ascending(Place(s, x))
    ensures forall y :: y in Place(s, x) <==> y in s || y == x
    ensures |Place(s, x)| == |s| + 1
  {
    if s != [] {
      var head, tail := s[0], s[1..];
      assert s == [head] + tail;
      EarlierTotal(x, head);
      if Earlier(x, head) {
        forall l | 0 <= l < |s|
          ensures Earlier(x, s[l])
        {
          EarlierTransitive(x, head, s[l]);
        }
      } else {
        PlaceAscending(tail, x);
        hide Earlier;
        var placed := Place(tail, x);
        forall l | 0 <= l < |placed|
          ensures Earlier(head, placed[l])
        {
          assert placed[l] in placed;
          if placed[l] != x {
            var k :| 0 <= k < |tail| && tail[k] == placed[l];
            assert Earlier(s[0], s[k + 1]);
          }
        }
      }
    }
  }

  // Collects the rows a test keeps, in any order, and sorts them.
  method Sorted(rows: Rows, q: Query, c: Cursor, keeps: MemoryItem -> bool) returns (out: seq<MemoryItem>)
    requires KeyedById(rows)
    requires forall x: MemoryItem | InRows(rows, x) :: keeps(x) <==> Selects(q, x) && After(c, x)
    ensures IsPage(rows, q, c, 0, out)
  {
    hide Selects, After, Earlier;
    out := [];
    var left := rows.Keys;
    while left != {}
      invariant left <= rows.Keys && Ascending(out)
      invariant forall x: MemoryItem :: x in out <==> InRows(rows, x) && x.id !in left && Selects(q, x) && After(c, x)
    {
      var id :| id in left;
      var x := rows[id];
      assert InRows(rows, x);
      ghost var before := out;
      if keeps(x) {
        forall k | 0 <= k < |out|
          ensures out[k].id != x.id
        {
          assert out[k] in out;
        }
        PlaceAscending(out, x);
        out := Place(out, x);
      }
      left := left - {id};
      forall y: MemoryItem
        ensures y in out <==> InRows(rows, y) && y.id !in left && Selects(q, y) && After(c, y)
      {
        assert InRows(rows, y) && y.id == id ==> y == x;
      }
    }
  }

  lemma FirstOfPage(rows: Rows, q: Query, c: Cursor, limit: int, all: seq<MemoryItem>)
    requires IsPage(rows, q, c, 0, all)
    ensures IsPage(rows, q, c, limit, if limit > 0 && |all| > limit then all[..limit] else all)
  {
    hide Selects, After, Earlier;
    if limit > 0 && |all| > limit {
      var page := all[..limit];
      assert forall k | 0 <= k < limit :: page[k] == all[k];
      assert forall x | x in page :: x in all;
      forall x: MemoryItem | InRows(rows, x) && Selects(q, x) && After(c, x)
        ensures x in page || Earlier(page[|page| - 1], x)
      {
        var k :| 0 <= k < |all| && all[k] == x;
        if k < limit { assert page[k] == x; } else { assert Earlier(all[limit - 1], all[k]); }
      }
    }
  }

  lemma {:induction false} SamePrefix(rows: Rows, q: Query, c: Cursor, limit: int, a: seq<MemoryItem>,
                                      b: seq<MemoryItem>, k: nat)
    requires KeyedById(rows) && IsPage(rows, q, c, limit, a) && IsPage(rows, q, c, limit, b) && k <= |a| && k <= |b|
    ensures a[..k] == b[..k]
    decreases k
  {
    if k > 0 {
      SamePrefix(rows, q, c, limit, a, b, k - 1);
      var x, y := a[k - 1], b[k - 1];
      assert x in a && y in b;
      EarlierTotal(x, y);
      hide Selects, After, Earlier;
      if Earlier(x, y) { NextIsFirst(rows, q, c, limit, a, b, k - 1); }
      if Earlier(y, x) { NextIsFirst(rows, q, c, limit, b, a, k - 1); }
      assert a[..k] == a[..k - 1] + [x] && b[..k] == b[..k - 1] + [y];
    }
  }

  // Of two pages with a common start neither goes on with an earlier row.
  lemma NextIsFirst(rows: Rows, q: Query, c: Cursor, limit: int, a: seq<MemoryItem>, b: seq<MemoryItem>, k: nat)
    requires IsPage(rows, q, c, limit, a) && IsPage(rows, q, c, limit, b) && k < |a| && k < |b| && a[..k] == b[..k]
    ensures !Earlier(a[k], b[k])
  {
    hide Selects, After;
    var x, last := a[k], b[|b| - 1];
    assert x in a;
    EarlierTotal(x, b[k]);
    EarlierTransitive(b[k], last, x);
    NewHere(a, b, k);
  }

  lemma NewHere(a: seq<MemoryItem>, b: seq<MemoryItem>, k: nat)
    requires Ascending(a) && k < |a| && k <= |b| && a[..k] == b[..k]
    ensures forall j | 0 <= j < k :: b[j] != a[k]
  {
    forall j | 0 <= j < k
      ensures b[j] != a[k]
    {
      assert a[..k][j] == b[..k][j] && Earlier(a[j], a[k]);
      EarlierTotal(a[k], a[k]);
    }
  }

  // A page is determined by its rows, query, cursor and limit.
  lemma OnePage(rows: Rows, q: Query, c: Cursor, limit: int, a: seq<MemoryItem>, b: seq<MemoryItem>)
    requires KeyedById(rows) && IsPage(rows, q, c, limit, a) && IsPage(rows, q, c, limit, b)
    ensures a == b
  {
    var k := Min(|a|, |b|);
    SamePrefix(rows, q, c, limit, a, b, k);
    hide Selects, After, Earlier;
    if |a| > k { NoLonger(rows, q, c, limit, a, b); }
    if |b| > k { NoLonger(rows, q, c, limit, b, a); }
  }

  lemma NoLonger(rows: Rows, q: Query, c: Cursor, limit: int, a: seq<MemoryItem>, b: seq<MemoryItem>)
    requires IsPage(rows, q, c, limit, a) && IsPage(rows, q, c, limit, b) && |b| <= |a| && a[..|b|] == b[..|b|]
    ensures |a| == |b|
  {
    hide Selects, After;
    if |b| < |a| {
      var x := a[|b|];
      assert x in a;
      NewHere(a, b, |b|);
    }
  }

  class MemStore {
    var messages: Rows
    var chunks: Rows

    ghost predicate Valid()
      reads this
    {
      KeyedById(messages) && KeyedById(chunks)
    }

    constructor ()
      ensures Valid() && messages == map[] && chunks == map[]
    {
      messages, chunks := map[], map[];
    }

    method Upsert(ms: seq<MemoryItem>, cs: seq<MemoryItem>)
      requires Valid() && (forall x | x in ms + cs :: x.id != "")
      modifies this
      ensures Valid()
      ensures messages == Tables.Upsert(old(messages), ms) && chunks == Tables.Upsert(old(chunks), cs)
    {
      for i := 0 to |ms|
        invariant messages == Tables.Upsert(old(messages), ms[..i]) && chunks == old(chunks) && Valid()
      {
        assert ms[..i + 1][..i] == ms[..i] && ms[i] in ms + cs;
        messages := messages[ms[i].id := ms[i]];
      }
      assert ms[..|ms|] == ms;
      for i := 0 to |cs|
        invariant chunks == Tables.Upsert(old(chunks), cs[..i]) && messages == Tables.Upsert(old(messages), ms)
          && Valid()
      {
        assert cs[..i + 1][..i] == cs[..i] && cs[i] in ms + cs;
        chunks := chunks[cs[i].id := cs[i]];
      }
      assert cs[..|cs|] == cs;
    }

    method ByContainer(containerId: string, host: string, source: string, kinds: set<string>, c: Cursor, limit: int)
      returns (page: seq<MemoryItem>)
      requires Valid()
      ensures IsPage(messages, InContainer(containerId, host, source, kinds), c, limit, page)
    {
      var q := InContainer(containerId, host, source, kinds);
      var keeps := (x: MemoryItem) =>
        && x.metadata.containerId == containerId && x.metadata.kind in kinds
        && !(host != "" && x.metadata.host != host) && !(source != "" && x.metadata.source != source)
        && AfterCursor(x.metadata.timestamp, x.id, c.ts, c.id);
      page := Sorted(messages, q, c, keeps);
      FirstOfPage(messages, q, c, limit, page);
      if limit > 0 && |page| > limit { page := page[..limit]; }
    }

    // A search without a vector or a text, in either table.
    method Search(inMessages: bool, f: Option<Filter>, c: Cursor, beforeTs: int, limit: int)
      returns (page: seq<MemoryItem>)
      requires Valid()
      ensures IsPage(if inMessages then messages else chunks, Filtered(f, beforeTs), c, limit, page)
    {
      var table := if inMessages then messages else chunks;
      var keeps := (x: MemoryItem) =>
        && Matches(x, f) && AfterCursor(x.metadata.timestamp, x.id, c.ts, c.id)
        && !(beforeTs > 0 && x.metadata.timestamp >= beforeTs);
      page := Sorted(table, Filtered(f, beforeTs), c, keeps);
      FirstOfPage(table, Filtered(f, beforeTs), c, limit, page);
      if limit > 0 && |page| > limit { page := page[..limit]; }
    }

    // Walks a container page by page, each page's last row being the next cursor. With
    // positive timestamps every matching row comes exactly once, in order, and the walk ends.
    method Walk(containerId: string, host: string, source: string, kinds: set<string>, limit: int)
      returns (all: seq<MemoryItem>)
      requires Valid()
      requires forall id | id in messages && Selects(InContainer(containerId, host, source, kinds), messages[id]) ::
                 messages[id].metadata.timestamp > 0
      ensures Ascending(all)
      ensures forall x: MemoryItem ::
        x in all <==> InRows(messages, x) && Selects(InContainer(containerId, host, source, kinds), x)
    {
      var q := InContainer(containerId, host, source, kinds);
      var c := Cursor(0, "");
      all := [];
      ghost var left := messages.Keys;
      while true
        invariant WalkedTo(messages, q, c, all)
        invariant left == messages.Keys - IdsOf(all)
        decreases left
      {
        var page := ByContainer(containerId, host, source, kinds, c, limit);
        if |page| == 0 {
          WalkEnds(messages, q, c, all);
          return;
        }
        WalkGoesOn(messages, q, c, limit, all, page);
        var last := page[|page| - 1];
        all := all + page;
        c := Cursor(last.metadata.timestamp, last.id);
        left := messages.Keys - IdsOf(all);
      }
    }
  }

  function IdsOf(s: seq<MemoryItem>): set<string> { set x | x in s :: x.id }

  // Everything selected that is not after the cursor has been walked, in order.
  ghost predicate WalkedTo(rows: Rows, q: Query, c: Cursor, all: seq<MemoryItem>) {
    && Ascending(all)
    && (all == [] ==> c == Cursor(0, ""))
    && (all != [] ==>
        var last := all[|all| - 1];
        c == Cursor(last.metadata.timestamp, last.id) && last.metadata.timestamp > 0 && last.id != "")
    && (forall x: MemoryItem :: x in all <==> InRows(rows, x) && Selects(q, x) && !After(c, x))
  }

  lemma WalkEnds(rows: Rows, q: Query, c: Cursor, all: seq<MemoryItem>)
    requires WalkedTo(rows, q, c, all) && IsPage(rows, q, c, 0, [])
    ensures forall x: MemoryItem :: x in all <==> InRows(rows, x) && Selects(q, x)
  {
    hide Selects, After, Earlier;
  }

  lemma JoinAscending(a: seq<MemoryItem>, b: seq<MemoryItem>)
    requires Ascending(a) && Ascending(b) && (a != [] ==> forall x | x in b :: Earlier(a[|a| - 1], x))
    ensures Ascending(a + b)
  {
    hide Earlier;
    forall k, l | 0 <= k < l < |a + b|
      ensures Earlier((a + b)[k], (a + b)[l])
    {
      if k < |a| <= l {
        assert b[l - |a|] in b;
        EarlierTransitive(a[k], a[|a| - 1], b[l - |a|]);
      }
    }
  }

  lemma WalkGoesOn(rows: Rows, q: Query, c: Cursor, limit: int, all: seq<MemoryItem>, page: seq<MemoryItem>)
    requires KeyedById(rows) && WalkedTo(rows, q, c, all) && IsPage(rows, q, c, limit, page) && page != []
    requires forall id | id in rows && Selects(q, rows[id]) :: rows[id].metadata.timestamp > 0
    ensures var last := page[|page| - 1]; WalkedTo(rows, q, Cursor(last.metadata.timestamp, last.id), all + page)
    ensures rows.Keys - IdsOf(all + page) < rows.Keys - IdsOf(all)
  {
    var last := page[|page| - 1];
    var c' := Cursor(last.metadata.timestamp, last.id);
    assert last in page && InRows(rows, last) && Selects(q, last);
    CursorResumesIff(last);
    if all != [] { CursorResumesIff(all[|all| - 1]); }
    hide Selects, Earlier, StringLess;
    JoinAscending(all, page);
    forall x: MemoryItem
      ensures x in all + page <==> InRows(rows, x) && Selects(q, x) && !After(c', x)
    {
      if InRows(rows, x) && Selects(q, x) { OnPageOrLater(rows, q, c, limit, all, page, x); }
    }
    assert last.id !in IdsOf(all) by {
      forall x | x in all
        ensures x.id != last.id
      {
        assert InRows(rows, x) && !After(c, x);
      }
    }
    FewerLeft(rows.Keys, all, page);
  }

  lemma FewerLeft(keys: set<string>, all: seq<MemoryItem>, page: seq<MemoryItem>)
    requires page != [] && page[|page| - 1].id in keys && page[|page| - 1].id !in IdsOf(all)
    ensures keys - IdsOf(all + page) < keys - IdsOf(all)
  {
    var last := page[|page| - 1];
    assert last in all + page;
    assert last.id in IdsOf(all + page);
    forall id | id in IdsOf(all)
      ensures id in IdsOf(all + page)
    {
      var x :| x in all && x.id == id;
      assert x in all + page;
    }
  }

  lemma OnPageOrLater(rows: Rows, q: Query, c: Cursor, limit: int, all: seq<MemoryItem>, page: seq<MemoryItem>,
                      x: MemoryItem)
    requires WalkedTo(rows, q, c, all) && IsPage(rows, q, c, limit, page) && page != []
    requires InRows(rows, x) && Selects(q, x)
    ensures x in all + page <==> !Earlier(page[|page| - 1], x)
  {
    hide Selects;
    var last := page[|page| - 1];
    assert last in page;
    EarlierTotal(x, last);
    if After(c, x) {
      if x in page {
        var k :| 0 <= k < |page| && page[k] == x;
        assert k < |page| - 1 ==> Earlier(page[k], page[|page| - 1]);
      }
    } else {
      NotAfterEarlier(c, all, x, last);
    }
  }

  lemma NotAfterEarlier(c: Cursor, all: seq<MemoryItem>, x: MemoryItem, last: MemoryItem)
    requires !After(c, x) && After(c, last)
    requires all == [] ==> c == Cursor(0, "")
    requires all != [] ==> c == Cursor(all[|all| - 1].metadata.timestamp, all[|all| - 1].id) && c.ts > 0 && c.id != ""
    ensures Earlier(x, last)
  {
    var at := all[|all| - 1];
    EarlierTotal(at, x);
    EarlierTransitive(x, at, last);
    StringLessTrichotomy(x.id, at.id);
  }

  // A Lance search without a vector or a text: the rows the where clause keeps, sorted, the
  // first ten when no limit is given. For any filter these are the first rows of what the
  // filter shows.
  method LancePage(rows: Rows, f: Option<Filter>, c: Cursor, beforeTs: int, limit: int) returns (page: seq<MemoryItem>)
    requires KeyedById(rows)
    ensures IsPage(rows, Filtered(ShownOf(f), beforeTs), c, if limit <= 0 then 10 else limit, page)
  {
    var k := if limit <= 0 then 10 else limit;
    var sql := LanceFilterSql(f);
    var combined := LanceCombineSql([sql, CursorText(c.ts, c.id), BeforeText(beforeTs)]);
    var keeps := (x: MemoryItem) => Keeps(combined, x) == Some(true);
    if f.Some? { ShownPrints(f.value); }
    forall x: MemoryItem | InRows(rows, x)
      ensures keeps(x) <==> Selects(Filtered(ShownOf(f), beforeTs), x) && After(c, x)
    {
      WhereMeansSearch(ShownOf(f), c.ts, c.id, beforeTs, x);
    }
    hide Selects, After, Keeps;
    page := Sorted(rows, Filtered(ShownOf(f), beforeTs), c, keeps);
    FirstOfPage(rows, Filtered(ShownOf(f), beforeTs), c, k, page);
    if |page| > k { page := page[..k]; }
  }

  // With a plain filter and a limit, the two stores answer a search alike.
  lemma SearchesAgree(rows: Rows, f: Option<Filter>, c: Cursor, beforeTs: int, limit: int, inMemory: seq<MemoryItem>,
                      inLance: seq<MemoryItem>)
    requires KeyedById(rows) && limit > 0 && (f.Some? ==> Plain(f.value))
    requires IsPage(rows, Filtered(f, beforeTs), c, limit, inMemory)
    requires IsPage(rows, Filtered(ShownOf(f), beforeTs), c, limit, inLance)
    ensures inMemory == inLance
  {
    forall x: MemoryItem
      ensures Selects(Filtered(ShownOf(f), beforeTs), x) <==> Selects(Filtered(f, beforeTs), x)
    {
      PrintedMeansShown(f, x);
    }
    hide Selects, After, Earlier;
    assert IsPage(rows, Filtered(f, beforeTs), c, limit, inLance);
    OnePage(rows, Filtered(f, beforeTs), c, limit, inMemory, inLance);
  }
}
