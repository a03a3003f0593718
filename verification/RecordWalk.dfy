// Walking a container by parsing its raw objects on the fly (raw_ingest.go,
// `containerRecordWalk` and `containerKeys`).
module RecordWalk {
  import opened Wrappers
  import opened Records
  import opened Ordering
  import opened Pagination
  import opened Text
  import RR = RawRegistry
  import SP = SessionParse
  import TP = TelegramParse

  // An object of the container; its body is missing when it could not be read.
  datatype RawBody = RawBody(key: string, body: Option<string>)

  // The objects could not be listed; a read or a parse failed; no row was found; or the rows.
  datatype WalkResult = NotListed | Failed | NothingFound | Rows(rows: seq<MemoryItem>)

  type ParseResult = Result<seq<MemoryItem>, SP.ParseError>

  // The selected rows after the cursor, in order.
  function Select(q: Query, c: Cursor, items: seq<MemoryItem>): seq<MemoryItem> {
    if items == [] then []
    else
      var before, last := Select(q, c, items[..|items| - 1]), items[|items| - 1];
      if Selects(q, last) && After(c, last) then before + [last] else before
  }

  // Sorting by time and id.
  function SortRows(rows: seq<MemoryItem>): seq<MemoryItem> {
    if rows == [] then [] else Place(SortRows(rows[..|rows| - 1]), rows[|rows| - 1])
  }

  // No row comes before an earlier one.
  ghost predicate InOrder(rows: seq<MemoryItem>) { forall k, l | 0 <= k < l < |rows| :: !Earlier(rows[l], rows[k]) }

  lemma ConsInOrder(x: MemoryItem, s: seq<MemoryItem>)
    requires InOrder(s) && forall y | y in s :: !Earlier(y, x)
    ensures InOrder([x] + s)
  {
    hide Earlier;
    var all := [x] + s;
    assert forall l | 0 < l < |all| :: all[l] == s[l - 1] && all[l] in s;
  }

  lemma FirstIsFirst(s: seq<MemoryItem>, y: MemoryItem)
    requires InOrder(s) && y in s
    ensures !Earlier(y, s[0])
  {
    EarlierTotal(y, y);
    hide Earlier;
    var k :| 0 <= k < |s| && s[k] == y;
    assert k > 0 ==> !Earlier(s[k], s[0]);
  }

  lemma TailInOrder(s: seq<MemoryItem>)
    requires InOrder(s) && s != []
    ensures InOrder(s[1..]) && forall y | y in s[1..] :: !Earlier(y, s[0])
  {
    assert forall y | y in s[1..] :: y in s;
    forall y | y in s[1..]
      ensures !Earlier(y, s[0])
    {
      FirstIsFirst(s, y);
    }
    hide Earlier;
  }

  lemma {:induction false} PlaceInOrder(s: seq<MemoryItem>, x: MemoryItem)
    requires InOrder(s)
    ensures InOrder(Place(s, x)) && multiset(Place(s, x)) == multiset(s) + multiset{x}
  {
    hide Earlier, InOrder;
    if s == [] {
      ConsInOrder(x, []);
      assert [x] + [] == [x];
    } else {
      var head, tail := s[0], s[1..];
      assert s == [head] + tail;
      if Earlier(x, head) {
        forall y | y in s
          ensures !Earlier(y, x)
        {
          FirstIsFirst(s, y);
          EarlierTransitive(y, x, head);
        }
        ConsInOrder(x, s);
      } else {
        TailInOrder(s);
        PlaceInOrder(tail, x);
        forall y | y in Place(tail, x)
          ensures !Earlier(y, head)
        {
          assert y in multiset(Place(tail, x));
        }
        ConsInOrder(head, Place(tail, x));
      }
    }
  }

  // Sorting keeps the rows and puts them in order.
  lemma {:induction false} SortRowsSorts(rows: seq<MemoryItem>)
    ensures InOrder(SortRows(rows)) && multiset(SortRows(rows)) == multiset(rows)
  {
    hide Earlier;
    if rows != [] {
      SortRowsSorts(rows[..|rows| - 1]);
      PlaceInOrder(SortRows(rows[..|rows| - 1]), rows[|rows| - 1]);
      SplitLast(rows);
    }
  }

  // The selected rows of all parses; None when one failed.
  function Selected(q: Query, c: Cursor, parses: seq<ParseResult>): Option<seq<MemoryItem>> {
    if parses == [] then Some([])
    else
      var before, last := Selected(q, c, parses[..|parses| - 1]), parses[|parses| - 1];
      if before.None? || last.Err? then None else Some(before.value + Select(q, c, last.value))
  }

  // The first rows of some order of `rows` by time and id; the order of rows that tie is the
  // sorting library's.
  ghost predicate FirstInOrder(rows: seq<MemoryItem>, limit: nat, first: seq<MemoryItem>) {
    exists sorted ::
      && InOrder(sorted) && multiset(sorted) == multiset(rows)
      && first == if |sorted| > limit then sorted[..limit] else sorted
  }

  // What a walk may answer.
  ghost predicate IsWalk(q: Query, c: Cursor, limit: nat, parses: seq<ParseResult>, r: WalkResult) {
    match Selected(q, c, parses)
    case None => r == Failed
    case Some(rows) => if rows == [] then r == NothingFound else r.Rows? && FirstInOrder(rows, limit, r.rows)
  }

  ghost predicate NoTies(rows: seq<MemoryItem>) {
    forall x, y | x in rows && y in rows :: x == y || Earlier(x, y) || Earlier(y, x)
  }

  // Without ties there is one order.
  lemma {:induction false} OneOrder(a: seq<MemoryItem>, b: seq<MemoryItem>)
    requires InOrder(a) && InOrder(b) && multiset(a) == multiset(b) && NoTies(a)
    ensures a == b
  {
    SameSize(a, b);
    if a != [] {
      hide Earlier, InOrder;
      assert a[0] in multiset(a) && b[0] in multiset(b);
      FirstIsFirst(a, b[0]);
      FirstIsFirst(b, a[0]);
      SameTail(a, b);
      TailInOrder(a);
      TailInOrder(b);
      OneOrder(a[1..], b[1..]);
      assert a == [a[0]] + a[1..];
    }
  }

  lemma SameSize(a: seq<MemoryItem>, b: seq<MemoryItem>)
    requires multiset(a) == multiset(b)
    ensures |a| == |b|
  {
    assert |a| == |multiset(a)| && |b| == |multiset(b)|;
  }

  lemma SameTail(a: seq<MemoryItem>, b: seq<MemoryItem>)
    requires a != [] && b != [] && a[0] == b[0] && multiset(a) == multiset(b)
    ensures multiset(a[1..]) == multiset(b[1..]) && forall x | x in a[1..] :: x in a
    ensures b == [b[0]] + b[1..]
  {
    assert a == [a[0]] + a[1..] && b == [b[0]] + b[1..];
    assert multiset(a[1..]) == multiset(a) - multiset{a[0]};
  }

  // A walk of rows without ties has one answer.
  lemma OneWalk(q: Query, c: Cursor, limit: nat, parses: seq<ParseResult>, r: WalkResult, s: WalkResult)
    requires IsWalk(q, c, limit, parses, r) && IsWalk(q, c, limit, parses, s)
    requires Selected(q, c, parses).Some? ==> NoTies(Selected(q, c, parses).value)
    ensures r == s
  {
    hide Earlier, InOrder, Selected;
    if r.Rows? && s.Rows? {
      var rows := Selected(q, c, parses).value;
      var a :| InOrder(a) && multiset(a) == multiset(rows) && r.rows == if |a| > limit then a[..limit] else a;
      var b :| InOrder(b) && multiset(b) == multiset(rows) && s.rows == if |b| > limit then b[..limit] else b;
      assert forall x | x in a :: x in multiset(rows);
      OneOrder(a, b);
    }
  }

  // Every object read, and parsed with its state rows.
  ghost predicate FullParses(codec: SP.Codec, objects: seq<RawBody>, parses: seq<ParseResult>) {
    && |parses| == |objects|
    && forall i | 0 <= i < |objects| ::
         objects[i].body.Some? && SP.IsParse(codec, objects[i].key, objects[i].body.value, true, parses[i])
  }

  predicate OnlyMessages(q: Query) { q.InContainer? && forall k | k in q.kinds :: k == "message" }

  lemma {:induction false} SelectOfMessages(q: Query, c: Cursor, items: seq<MemoryItem>)
    requires OnlyMessages(q)
    ensures Select(q, c, SP.Messages(items)) == Select(q, c, items)
  {
    if items != [] {
      var n := |items| - 1;
      SelectOfMessages(q, c, items[..n]);
      var before := SP.Messages(items[..n]);
      assert (before + [items[n]])[..|before|] == before;
    }
  }

  lemma OneParse(codec: SP.Codec, key: string, body: string, a: ParseResult, b: ParseResult)
    requires SP.IsParse(codec, key, body, true, a) && SP.IsParse(codec, key, body, true, b)
    ensures a == b
  {
    var o := SP.RawObjectIdentity(key);
    if o.Some? && o.value.harness == "telegram" && codec.telegram(body).Some? {
      TP.OneParse(TP.Versions(codec.chat, o.value.host, codec.telegram(body).value), a.value, b.value);
    }
  }

  // For what is selected it does not matter whether state rows were parsed when only
  // messages are wanted.
  lemma ParseChoice(codec: SP.Codec, q: Query, c: Cursor, key: string, body: string, includeState: bool,
                    full: ParseResult, r: ParseResult)
    requires SP.IsParse(codec, key, body, true, full) && SP.IsParse(codec, key, body, includeState, r)
    requires includeState || OnlyMessages(q)
    ensures full.Ok? == r.Ok? && (r.Ok? ==> Select(q, c, full.value) == Select(q, c, r.value))
  {
    hide SP.IsParse, Select;
    if includeState {
      OneParse(codec, key, body, full, r);
    } else {
      SP.MessagesAreTheParse(codec, key, body, full, r);
      if full.Ok? { SelectOfMessages(q, c, full.value); }
    }
  }

  method SelectRows(q: Query, c: Cursor, items: seq<MemoryItem>) returns (rows: seq<MemoryItem>)
    requires q.InContainer?
    ensures rows == Select(q, c, items)
  {
    rows := [];
    for i := 0 to |items|
      invariant rows == Select(q, c, items[..i])
    {
      assert items[..i + 1][..i] == items[..i];
      var m := items[i].metadata;
      if m.containerId != q.containerId { continue; }
      if q.host != "" && m.host != q.host { continue; }
      if q.source != "" && m.source != q.source { continue; }
      if m.kind !in q.kinds { continue; }
      if !After(c, items[i]) { continue; }
      rows := rows + [items[i]];
    }
    assert items[..|items|] == items;
  }

  // Reads and parses objects, with state rows only when some other kind
  // than "message" is asked for. The answer is that of parsing everything.
  method WalkObjects(codec: SP.Codec, objects: seq<RawBody>, q: Query, c: Cursor, limit: nat)
    returns (r: WalkResult)
    requires q.InContainer?
    ensures (exists i | 0 <= i < |objects| :: objects[i].body.None?) ==> r == Failed
    ensures forall parses: seq<ParseResult> | FullParses(codec, objects, parses) :: IsWalk(q, c, limit, parses, r)
  {
    hide SP.IsParse, Select, SortRows;
    var includeState := exists kind | kind in q.kinds :: kind != "message";
    var results: seq<MemoryItem> := [];
    for i := 0 to |objects|
      invariant forall k | 0 <= k < i :: objects[k].body.Some?
      invariant forall parses: seq<ParseResult> | FullParses(codec, objects, parses) ::
        Selected(q, c, parses[..i]) == Some(results)
    {
      if objects[i].body.None? { return Failed; }
      var parse := SP.ParseRawObject(codec, objects[i].key, objects[i].body.value, includeState);
      forall parses: seq<ParseResult> | FullParses(codec, objects, parses)
        ensures parses[i].Ok? == parse.Ok?
        ensures parse.Ok? ==> Select(q, c, parses[i].value) == Select(q, c, parse.value)
      {
        ParseChoice(codec, q, c, objects[i].key, objects[i].body.value, includeState, parses[i], parse);
      }
      if parse.Err? {
        forall parses: seq<ParseResult> | FullParses(codec, objects, parses)
          ensures Selected(q, c, parses).None?
        {
          FailsFor(q, c, parses, i);
        }
        return Failed;
      }
      var rows := SelectRows(q, c, parse.value);
      forall parses: seq<ParseResult> | FullParses(codec, objects, parses)
        ensures Selected(q, c, parses[..i + 1]) == Some(results + rows)
      {
        assert parses[..i + 1][..i] == parses[..i];
      }
      results := results + rows;
    }
    forall parses: seq<ParseResult> | FullParses(codec, objects, parses)
      ensures Selected(q, c, parses) == Some(results)
    {
      assert parses[..|objects|] == parses;
    }
    if |results| == 0 { return NothingFound; }
    SortRowsSorts(results);
    results := SortRows(results);
    if |results| > limit { results := results[..limit]; }
    r := Rows(results);
  }

  lemma {:induction false} FailsFor(q: Query, c: Cursor, parses: seq<ParseResult>, i: nat)
    requires i < |parses| && parses[i].Err?
    ensures Selected(q, c, parses).None?
  {
    if i < |parses| - 1 { FailsFor(q, c, parses[..|parses| - 1], i); }
  }

  // ----- The objects of a container -----

  // The key names the host and the source that are asked for.
  predicate Serves(key: string, host: string, source: string) {
    var o := SP.RawObjectIdentity(key);
    o.Some? && (host != "" ==> o.value.host == host) && (source != "" ==> o.value.harness == source)
  }

  // The registry knows the object as indexed with records of the container.
  predicate Knows(objects: map<string, RR.Entry>, key: string, containerId: string, host: string, source: string) {
    && key in objects && objects[key].status == "indexed" && Serves(key, host, source)
    && containerId in objects[key].containerIds
  }

  // The part of a container's id that keys carry.
  function Needle(containerId: string): string {
    var cut := IndexOf(containerId, ":");
    if cut.Some? then containerId[..cut.value] else containerId
  }

  predicate Carries(key: string, containerId: string, host: string, source: string) {
    Serves(key, host, source) && IndexOf(key, Needle(containerId)).Some?
  }

  // The container's keys, in order: those the registry knows or, when it knows none, those of
  // the listing that carry the container.
  ghost predicate AreKeys(objects: map<string, RR.Entry>, listing: Option<set<string>>, containerId: string,
                          host: string, source: string, keys: Option<seq<string>>) {
    if exists key :: Knows(objects, key, containerId, host, source) then
      && keys.Some? && AscendingStrings(keys.value)
      && forall key :: key in keys.value <==> Knows(objects, key, containerId, host, source)
    else if listing.None? then keys == None
    else
      && keys.Some? && AscendingStrings(keys.value)
      && forall key :: key in keys.value <==> key in listing.value && Carries(key, containerId, host, source)
  }

  // The keys of a set that pass a test, sorted.
  method SortedKeys(keys: set<string>, test: string -> bool) returns (out: seq<string>)
    ensures AscendingStrings(out) && forall key :: key in out <==> key in keys && test(key)
  {
    out := [];
    var left := keys;
    while left != {}
      invariant left <= keys && AscendingStrings(out)
      invariant forall key :: key in out <==> key in keys && key !in left && test(key)
    {
      var key :| key in left;
      InsertStringKeeps(out, key);
      if test(key) { out := InsertString(out, key); }
      left := left - {key};
    }
  }

  method ContainerKeys(registry: RR.Registry, listing: Option<set<string>>, containerId: string, host: string,
                       source: string)
    returns (keys: Option<seq<string>>)
    ensures AreKeys(registry.objects, listing, containerId, host, source, keys)
  {
    hide SP.RawObjectIdentity, Needle;
    var objects := registry.objects;
    var known := SortedKeys(objects.Keys, key => Knows(objects, key, containerId, host, source));
    if |known| > 0 {
      assert known[0] in known;
      return Some(known);
    }
    if listing.None? { return None; }
    var carrying := SortedKeys(listing.value, key => Carries(key, containerId, host, source));
    keys := Some(carrying);
  }

  // The bodies behind some keys.
  function Bodies(body: string -> Option<string>, keys: seq<string>): seq<RawBody> {
    seq(|keys|, i requires 0 <= i < |keys| => RawBody(keys[i], body(keys[i])))
  }

  // What a walk may answer, given where the container's objects are.
  ghost predicate IsRecordWalk(codec: SP.Codec, keys: Option<seq<string>>, body: string -> Option<string>, q: Query,
                               c: Cursor, limit: nat, r: WalkResult) {
    if keys.None? then r == NotListed
    else
      && ((exists key | key in keys.value :: body(key).None?) ==> r == Failed)
      && forall parses: seq<ParseResult> | FullParses(codec, Bodies(body, keys.value), parses) ::
           IsWalk(q, c, limit, parses, r)
  }

  // Finds the container's objects and walks them.
  method ContainerRecordWalk(codec: SP.Codec, registry: RR.Registry, listing: Option<set<string>>,
                             body: string -> Option<string>, q: Query, c: Cursor, limit: nat)
    returns (ghost keys: Option<seq<string>>, r: WalkResult)
    requires q.InContainer?
    ensures AreKeys(registry.objects, listing, q.containerId, q.host, q.source, keys)
    ensures IsRecordWalk(codec, keys, body, q, c, limit, r)
  {
    var found := ContainerKeys(registry, listing, q.containerId, q.host, q.source);
    keys := found;
    hide AreKeys, IsWalk, FullParses;
    if found.None? { return keys, NotListed; }
    var objects := Bodies(body, found.value);
    r := WalkObjects(codec, objects, q, c, limit);
    if key :| key in found.value && body(key).None? {
      var i :| 0 <= i < |found.value| && found.value[i] == key;
      assert objects[i].body.None?;
    }
  }

  // An object that ingestion has indexed is found through each container of its records.
  lemma IndexedIsFound(objects: map<string, RR.Entry>, obj: RR.RawObject, containerId: string, host: string,
                       source: string, listing: Option<set<string>>, keys: Option<seq<string>>)
    requires RR.Done(RR.EntryFor(objects, obj.key), obj) && containerId in objects[obj.key].containerIds
    requires Serves(obj.key, host, source) && AreKeys(objects, listing, containerId, host, source, keys)
    ensures keys.Some? && obj.key in keys.value
  {
    assert Knows(objects, obj.key, containerId, host, source);
    hide Serves;
  }
}
