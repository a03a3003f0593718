// Collapsing ranked hits: one per message, per body and per chat moment (main.go,
// `collapseChunkHits`; lance.go, `selectCollapsed`).
module CollapseHits {
  import opened Wrappers
  import ContextUnits

  datatype Hit = Hit(id: string, messageId: string, body: string, source: string, container: string, ts: int,
                     score: real, text: string, matchedChunk: Option<string>)

  function Parent(h: Hit): string { if h.messageId == "" then h.id else h.messageId }

  predicate Near(a: int, b: int) {
    a - b <= ContextUnits.TELEGRAM_LEAD_GAP && b - a <= ContextUnits.TELEGRAM_LEAD_GAP
  }

  // Two hits that must not both be shown.
  predicate Conflict(a: Hit, b: Hit) {
    || Parent(a) == Parent(b)
    || (a.body != "" && a.body == b.body)
    || (a.source == "telegram" && b.source == "telegram" && a.container == b.container && Near(a.ts, b.ts))
  }

  // ----- Greedy selection -----

  predicate Below(kept: seq<nat>, n: nat) { forall i | 0 <= i < |kept| :: kept[i] < n }

  function Pick<T>(items: seq<T>, kept: seq<nat>): (chosen: seq<T>)
    requires Below(kept, |items|)
    ensures |chosen| == |kept| && forall i | 0 <= i < |kept| :: chosen[i] == items[kept[i]]
  {
    seq(|kept|, i requires 0 <= i < |kept| => items[kept[i]])
  }

  ghost predicate Clash<T>(conflict: (T, T) -> bool, chosen: seq<T>, x: T) { exists c | c in chosen :: conflict(c, x) }

  // The positions kept among the first n: each that conflicts with none kept before it.
  ghost function Greedy<T>(conflict: (T, T) -> bool, items: seq<T>, n: nat): (kept: seq<nat>)
    requires n <= |items|
    ensures Below(kept, n)
  {
    if n == 0 then []
    else
      var before := Greedy(conflict, items, n - 1);
      if Clash(conflict, Pick(items, before), items[n - 1]) then before else before + [n - 1]
  }

  // Kept positions increase and do not conflict, and every skipped one conflicts with an
  // earlier kept one.
  ghost predicate IsSelection<T>(conflict: (T, T) -> bool, items: seq<T>, n: nat, kept: seq<nat>)
    requires n <= |items|
  {
    && Below(kept, n)
    && (forall i, j | 0 <= i < j < |kept| :: kept[i] < kept[j])
    && (forall i, j | 0 <= i < j < |kept| :: !conflict(items[kept[i]], items[kept[j]]))
    && (forall i | 0 <= i < n :: i in kept || Beaten(conflict, items, kept, i))
  }

  ghost predicate Beaten<T>(conflict: (T, T) -> bool, items: seq<T>, kept: seq<nat>, i: nat)
    requires i < |items|
  {
    exists j | 0 <= j < |kept| :: kept[j] < i && conflict(items[kept[j]], items[i])
  }

  lemma BeatenMore<T>(conflict: (T, T) -> bool, items: seq<T>, kept: seq<nat>, last: nat, i: nat)
    requires i <= last && i < |items|
    ensures Beaten(conflict, items, kept + [last], i) <==> Beaten(conflict, items, kept, i)
    ensures i in kept + [last] <==> i in kept || i == last
  {
    var all := kept + [last];
    assert all[|kept|] == last && forall j | 0 <= j < |kept| :: all[j] == kept[j];
  }

  lemma SelectionSnoc<T>(conflict: (T, T) -> bool, items: seq<T>, n: nat, kept: seq<nat>)
    requires 0 < n <= |items| && Below(kept, n - 1)
    ensures IsSelection(conflict, items, n, kept + [n - 1]) <==>
      IsSelection(conflict, items, n - 1, kept) && !Clash(conflict, Pick(items, kept), items[n - 1])
  {
    var all := kept + [n - 1];
    var chosen := Pick(items, kept);
    assert all[|kept|] == n - 1 && forall j | 0 <= j < |kept| :: all[j] == kept[j];
    forall i | 0 <= i < n
      ensures Beaten(conflict, items, all, i) <==> Beaten(conflict, items, kept, i)
      ensures i in all <==> i in kept || i == n - 1
    {
      BeatenMore(conflict, items, kept, n - 1, i);
    }
    hide Beaten;
    if IsSelection(conflict, items, n, all) {
      assert forall j | 0 <= j < |kept| :: !conflict(items[all[j]], items[all[|kept|]]);
      assert forall i, j | 0 <= i < j < |kept| :: kept[i] == all[i] && kept[j] == all[j];
    }
    if !Clash(conflict, chosen, items[n - 1]) {
      assert forall j | 0 <= j < |kept| :: chosen[j] in chosen;
    }
  }

  lemma SelectionSkip<T>(conflict: (T, T) -> bool, items: seq<T>, n: nat, kept: seq<nat>)
    requires 0 < n <= |items| && Below(kept, n - 1)
    ensures IsSelection(conflict, items, n, kept) <==>
      IsSelection(conflict, items, n - 1, kept) && Clash(conflict, Pick(items, kept), items[n - 1])
  {
    var chosen := Pick(items, kept);
    assert n - 1 !in kept;
    assert Beaten(conflict, items, kept, n - 1) <==> Clash(conflict, chosen, items[n - 1]) by {
      assert forall j | 0 <= j < |kept| :: chosen[j] in chosen;
    }
    hide Beaten, Clash;
  }

  lemma {:induction false} GreedySelects<T>(conflict: (T, T) -> bool, items: seq<T>, n: nat)
    requires n <= |items|
    ensures IsSelection(conflict, items, n, Greedy(conflict, items, n))
  {
    if n > 0 {
      GreedySelects(conflict, items, n - 1);
      var before := Greedy(conflict, items, n - 1);
      SelectionSnoc(conflict, items, n, before);
      SelectionSkip(conflict, items, n, before);
      hide IsSelection;
    }
  }

  // There is only one such selection.
  lemma {:induction false} OneSelection<T>(conflict: (T, T) -> bool, items: seq<T>, n: nat, kept: seq<nat>)
    requires n <= |items| && IsSelection(conflict, items, n, kept)
    ensures kept == Greedy(conflict, items, n)
  {
    if n == 0 {
      NoneBelowZero(kept);
    } else {
      Increasing(kept, n);
      hide IsSelection, Clash, Below, Pick;
      if kept != [] && kept[|kept| - 1] == n - 1 {
        var before := kept[..|kept| - 1];
        SplitLast(kept);
        SelectionSnoc(conflict, items, n, before);
        OneSelection(conflict, items, n - 1, before);
      } else {
        SelectionSkip(conflict, items, n, kept);
        OneSelection(conflict, items, n - 1, kept);
      }
    }
  }

  lemma Increasing(kept: seq<nat>, n: nat)
    requires n > 0 && Below(kept, n) && forall i, j | 0 <= i < j < |kept| :: kept[i] < kept[j]
    ensures kept != [] && kept[|kept| - 1] == n - 1 ==> Below(kept[..|kept| - 1], n - 1)
    ensures kept == [] || kept[|kept| - 1] != n - 1 ==> Below(kept, n - 1)
  {
    assert forall i | 0 <= i < |kept| - 1 :: kept[i] < kept[|kept| - 1];
  }

  lemma NoneBelowZero(kept: seq<nat>)
    requires Below(kept, 0)
    ensures kept == []
  {
    SomeMember(kept);
  }

  // What is kept among the first hits does not depend on the later ones.
  lemma {:induction false} GreedyGrows<T>(conflict: (T, T) -> bool, items: seq<T>, m: nat, n: nat)
    requires m <= n <= |items|
    ensures Greedy(conflict, items, m) <= Greedy(conflict, items, n)
  {
    if m < n { GreedyGrows(conflict, items, m, n - 1); }
  }

  function Cut<T>(kept: seq<T>, limit: int): seq<T> { if limit > 0 && |kept| > limit then kept[..limit] else kept }

  // ----- Collapsing -----

  // A kept hit, as the answer shows it.
  function Shown(h: Hit): Hit { h.(matchedChunk := Some(h.id), id := Parent(h)) }

  function ShowAll(chosen: seq<Hit>): (out: seq<Hit>)
    ensures |out| == |chosen| && forall i | 0 <= i < |chosen| :: out[i] == Shown(chosen[i])
  {
    seq(|chosen|, i requires 0 <= i < |chosen| => Shown(chosen[i]))
  }

  // The hits kept, and those shown under a limit.
  ghost function Chosen(hits: seq<Hit>, n: nat): seq<Hit>
    requires n <= |hits|
  {
    Pick(hits, Greedy(Conflict, hits, n))
  }

  ghost function Collapsed(hits: seq<Hit>, limit: int): seq<Hit> { Cut(ShowAll(Chosen(hits, |hits|)), limit) }

  // Shown hits have distinct ids and bodies, and telegram ones of a chat are more than ten
  // minutes apart.
  lemma CollapsedApart(hits: seq<Hit>, limit: int)
    ensures var out := Collapsed(hits, limit);
      forall i, j | 0 <= i < j < |out| ::
        && out[i].id != out[j].id
        && (out[i].body != "" ==> out[i].body != out[j].body)
        && (out[i].source == out[j].source == "telegram" && out[i].container == out[j].container ==>
            out[i].ts - out[j].ts > 600 || out[j].ts - out[i].ts > 600)
  {
    var kept := Greedy(Conflict, hits, |hits|);
    GreedySelects(Conflict, hits, |hits|);
    var chosen := Chosen(hits, |hits|);
    hide Greedy;
    var out := Collapsed(hits, limit);
    forall i, j | 0 <= i < j < |out|
      ensures !Conflict(chosen[i], chosen[j])
      ensures out[i] == Shown(chosen[i]) && out[j] == Shown(chosen[j])
    {
      assert chosen[i] == hits[kept[i]] && chosen[j] == hits[kept[j]];
    }
  }

  // What the loop remembers of the kept hits.
  ghost predicate Remembers(chosen: seq<Hit>, seen: set<string>, bodies: set<string>, moments: map<string, seq<int>>) {
    RemembersParents(chosen, seen) && RemembersBodies(chosen, bodies) && RemembersMoments(chosen, moments)
  }

  ghost predicate RemembersParents(chosen: seq<Hit>, seen: set<string>) {
    forall p: string :: p in seen <==> exists h | h in chosen :: Parent(h) == p
  }

  ghost predicate RemembersBodies(chosen: seq<Hit>, bodies: set<string>) {
    forall b: string :: b in bodies <==> exists h | h in chosen :: HasBody(h, b)
  }

  ghost predicate RemembersMoments(chosen: seq<Hit>, moments: map<string, seq<int>>) {
    forall c: string, t: int :: t in TimesOf(moments, c) <==> exists h | h in chosen :: Moment(h, c, t)
  }

  predicate HasBody(h: Hit, b: string) { b != "" && h.body == b }

  predicate Moment(h: Hit, c: string, t: int) { h.source == "telegram" && h.container == c && h.ts == t }

  function TimesOf(moments: map<string, seq<int>>, c: string): seq<int> { if c in moments then moments[c] else [] }

  ghost predicate AnyNear(times: seq<int>, ts: int) { exists t | t in times :: Near(t, ts) }

  method NearMoment(kept: seq<int>, ts: int) returns (near: bool)
    ensures near <==> AnyNear(kept, ts)
  {
    for i := 0 to |kept|
      invariant forall j | 0 <= j < i :: !Near(kept[j], ts)
    {
      if kept[i] - ts <= ContextUnits.TELEGRAM_LEAD_GAP && ts - kept[i] <= ContextUnits.TELEGRAM_LEAD_GAP {
        assert Near(kept[i], ts) && kept[i] in kept;
        return true;
      }
    }
    near := false;
  }

  // What is remembered decides whether a hit conflicts with a kept one.
  lemma RemembersConflict(chosen: seq<Hit>, seen: set<string>, bodies: set<string>, moments: map<string, seq<int>>,
                          h: Hit)
    requires Remembers(chosen, seen, bodies, moments)
    ensures Clash(Conflict, chosen, h) <==>
      Parent(h) in seen || (h.body != "" && h.body in bodies)
        || (h.source == "telegram" && AnyNear(TimesOf(moments, h.container), h.ts))
  {
    hide Parent, TimesOf;
    if Clash(Conflict, chosen, h) {
      var k :| k in chosen && Conflict(k, h);
      assert HasBody(k, h.body) || h.body == "" || k.body != h.body;
      assert k.source == "telegram" ==> Moment(k, k.container, k.ts);
    }
    if h.source == "telegram" && AnyNear(TimesOf(moments, h.container), h.ts) {
      var t :| t in TimesOf(moments, h.container) && Near(t, h.ts);
      var k :| k in chosen && Moment(k, h.container, t);
      assert Conflict(k, h);
    }
    if h.body != "" && h.body in bodies {
      var k :| k in chosen && HasBody(k, h.body);
      assert Conflict(k, h);
    }
    if Parent(h) in seen {
      var k :| k in chosen && Parent(k) == Parent(h);
      assert Conflict(k, h);
    }
  }

  lemma InSnoc(chosen: seq<Hit>, h: Hit)
    ensures forall k :: k in chosen + [h] <==> k in chosen || k == h
  {
  }

  lemma ParentsMore(chosen: seq<Hit>, seen: set<string>, h: Hit)
    requires RemembersParents(chosen, seen)
    ensures RemembersParents(chosen + [h], seen + {Parent(h)})
  {
    InSnoc(chosen, h);
    hide Parent;
    var all := chosen + [h];
    assert h in all;
  }

  lemma BodiesMore(chosen: seq<Hit>, bodies: set<string>, h: Hit)
    requires RemembersBodies(chosen, bodies)
    ensures RemembersBodies(chosen + [h], if h.body != "" then bodies + {h.body} else bodies)
  {
    InSnoc(chosen, h);
    var all := chosen + [h];
    assert h in all && (h.body != "" ==> HasBody(h, h.body));
  }

  lemma MomentsMore(chosen: seq<Hit>, moments: map<string, seq<int>>, h: Hit)
    requires RemembersMoments(chosen, moments)
    ensures RemembersMoments(chosen + [h],
              if h.source == "telegram" then moments[h.container := TimesOf(moments, h.container) + [h.ts]]
                else moments)
  {
    InSnoc(chosen, h);
    var all := chosen + [h];
    var moments' :=
      if h.source == "telegram" then moments[h.container := TimesOf(moments, h.container) + [h.ts]] else moments;
    assert h in all;
    forall c: string, t: int
      ensures t in TimesOf(moments', c) <==> exists k | k in all :: Moment(k, c, t)
    {
      assert t in TimesOf(moments', c) <==> t in TimesOf(moments, c) || Moment(h, c, t);
    }
  }

  method CollapseChunkHits(hits: seq<Hit>, limit: int) returns (out: seq<Hit>)
    ensures out == Collapsed(hits, limit)
  {
    var seen: set<string> := {};
    var bodies: set<string> := {};
    var moments: map<string, seq<int>> := map[];
    out := [];
    hide RemembersParents, RemembersBodies, RemembersMoments, Clash, AnyNear;
    NothingRemembered();
    for i := 0 to |hits|
      invariant out == ShowAll(Chosen(hits, i))
      invariant Remembers(Chosen(hits, i), seen, bodies, moments)
      invariant limit > 0 ==> |out| < limit
    {
      var hit := hits[i];
      ghost var chosen := Chosen(hits, i);
      RemembersConflict(chosen, seen, bodies, moments, hit);
      ChosenStep(hits, i);
      var parent := hit.messageId;
      if parent == "" { parent := hit.id; }
      if parent in seen || (hit.body != "" && hit.body in bodies) { continue; }
      if hit.source == "telegram" {
        var times := if hit.container in moments then moments[hit.container] else [];
        var near := NearMoment(times, hit.ts);
        if near { continue; }
      }
      ParentsMore(chosen, seen, hit);
      BodiesMore(chosen, bodies, hit);
      MomentsMore(chosen, moments, hit);
      if hit.source == "telegram" {
        moments :=
          moments[hit.container := (if hit.container in moments then moments[hit.container] else []) + [hit.ts]];
      }
      seen := seen + {parent};
      if hit.body != "" { bodies := bodies + {hit.body}; }
      out := out + [hit.(matchedChunk := Some(hit.id), id := parent)];
      assert out == ShowAll(Chosen(hits, i + 1));
      if limit > 0 && |out| == limit {
        CutHere(hits, i + 1, limit);
        return;
      }
    }
  }

  lemma NothingRemembered()
    ensures Remembers([], {}, {}, map[])
  {
  }

  lemma ChosenStep(hits: seq<Hit>, i: nat)
    requires i < |hits|
    ensures Chosen(hits, i + 1) ==
      if Clash(Conflict, Chosen(hits, i), hits[i]) then Chosen(hits, i) else Chosen(hits, i) + [hits[i]]
  {
    hide Clash, Conflict;
    var before := Greedy(Conflict, hits, i);
    assert Pick(hits, before + [i]) == Pick(hits, before) + [hits[i]];
  }

  lemma CutHere(hits: seq<Hit>, n: nat, limit: int)
    requires n <= |hits| && limit > 0 && |Chosen(hits, n)| == limit
    ensures ShowAll(Chosen(hits, n)) == Collapsed(hits, limit)
  {
    GreedyGrows(Conflict, hits, n, |hits|);
    hide Greedy, Shown;
    var a, b := Greedy(Conflict, hits, n), Greedy(Conflict, hits, |hits|);
    assert forall i | 0 <= i < limit :: a[i] == b[i];
    assert ShowAll(Chosen(hits, |hits|))[..limit] == ShowAll(Chosen(hits, n));
  }

  // ----- The first row of each message -----

  // A ranked candidate, and a row of the output columns.
  datatype Candidate = Candidate(rowId: string, messageId: string, score: real)
  datatype Row = Row(rowId: string, text: string, score: real)

  predicate SameMessage(a: Candidate, b: Candidate) { MessageOf(a) == MessageOf(b) }

  function MessageOf(c: Candidate): string { if c.messageId == "" then c.rowId else c.messageId }

  ghost function FirstOfMessages(hits: seq<Candidate>, messages: nat): seq<Candidate> {
    Cut(Pick(hits, Greedy(SameMessage, hits, |hits|)), messages)
  }

  predicate HasRow(full: seq<Row>, rowId: string) { exists r | r in full :: r.rowId == rowId }

  // The rows of the best candidates of the first `messages` messages, in order, with the
  // scores they were ranked by; the plain ranking when one of them is no longer there.
  ghost predicate IsCollapsed(hits: seq<Candidate>, full: seq<Row>, plain: seq<Row>, messages: nat, out: seq<Row>) {
    var kept := FirstOfMessages(hits, messages);
    if kept == [] then out == []
    else if |full| == |kept| && forall i | 0 <= i < |kept| :: HasRow(full, kept[i].rowId) then
      |out| == |kept| && forall i | 0 <= i < |kept| :: IsRowOf(full, kept[i], out[i])
    else out == plain
  }

  ghost predicate IsRowOf(full: seq<Row>, c: Candidate, out: Row) {
    && out.rowId == c.rowId && out.score == c.score
    && exists r | r in full :: r.rowId == out.rowId && r.text == out.text
  }

  ghost predicate RemembersMessages(chosen: seq<Candidate>, seen: set<string>) {
    forall m: string :: m in seen <==> exists c | c in chosen :: MessageOf(c) == m
  }

  lemma MessagesMore(chosen: seq<Candidate>, seen: set<string>, c: Candidate)
    requires RemembersMessages(chosen, seen)
    ensures RemembersMessages(chosen + [c], seen + {MessageOf(c)})
    ensures Clash(SameMessage, chosen, c) <==> MessageOf(c) in seen
  {
    hide MessageOf;
    assert forall k :: k in chosen + [c] <==> k in chosen || k == c;
    assert c in chosen + [c];
    if MessageOf(c) in seen {
      var k :| k in chosen && MessageOf(k) == MessageOf(c);
      assert SameMessage(k, c);
    }
  }

  lemma FirstStep(hits: seq<Candidate>, i: nat)
    requires i < |hits|
    ensures var before := Pick(hits, Greedy(SameMessage, hits, i));
      Pick(hits, Greedy(SameMessage, hits, i + 1)) ==
        if Clash(SameMessage, before, hits[i]) then before else before + [hits[i]]
  {
    hide Clash, SameMessage;
    var kept := Greedy(SameMessage, hits, i);
    assert Pick(hits, kept + [i]) == Pick(hits, kept) + [hits[i]];
  }

  lemma FirstCut(hits: seq<Candidate>, n: nat, messages: nat)
    requires n <= |hits| && messages > 0 && |Pick(hits, Greedy(SameMessage, hits, n))| == messages
    ensures Pick(hits, Greedy(SameMessage, hits, n)) == FirstOfMessages(hits, messages)
  {
    GreedyGrows(SameMessage, hits, n, |hits|);
    hide Greedy;
    var a, b := Greedy(SameMessage, hits, n), Greedy(SameMessage, hits, |hits|);
    assert forall i | 0 <= i < messages :: a[i] == b[i];
    assert Pick(hits, b)[..messages] == Pick(hits, a);
  }

  method KeepFirstOfMessages(hits: seq<Candidate>, messages: nat) returns (kept: seq<Candidate>)
    requires messages > 0
    ensures kept == FirstOfMessages(hits, messages)
  {
    var seen: set<string> := {};
    kept := [];
    NoMessages();
    NothingKept(hits);
    hide Clash, SameMessage, RemembersMessages, Greedy, Pick, FirstOfMessages;
    for i := 0 to |hits|
      invariant kept == Pick(hits, Greedy(SameMessage, hits, i)) && |kept| < messages
      invariant RemembersMessages(kept, seen)
    {
      var hit := hits[i];
      var message := hit.messageId;
      if message == "" { message := hit.rowId; }
      FirstStep(hits, i);
      MessagesMore(kept, seen, hit);
      if message in seen { continue; }
      seen := seen + {message};
      kept := kept + [hit];
      if |kept| == messages {
        FirstCut(hits, i + 1, messages);
        return;
      }
    }
    AllShown(hits, messages);
  }

  lemma NothingKept(hits: seq<Candidate>)
    ensures Pick(hits, Greedy(SameMessage, hits, 0)) == []
  {
  }

  lemma AllShown(hits: seq<Candidate>, messages: nat)
    requires |Pick(hits, Greedy(SameMessage, hits, |hits|))| < messages
    ensures FirstOfMessages(hits, messages) == Pick(hits, Greedy(SameMessage, hits, |hits|))
  {
    hide Greedy;
  }

  lemma NoMessages()
    ensures RemembersMessages([], {})
  {
  }

  // `full` is what the second read returned for the kept rows, `plain` what ranking and
  // fetching in one pass returns.
  method SelectCollapsed(hits: seq<Candidate>, full: seq<Row>, plain: seq<Row>, messages: nat) returns (out: seq<Row>)
    requires messages > 0
    ensures IsCollapsed(hits, full, plain, messages, out)
  {
    var kept := KeepFirstOfMessages(hits, messages);
    hide FirstOfMessages;
    if |kept| == 0 { return []; }
    if |full| != |kept| { return plain; }
    var byRowId: map<string, Row> := map[];
    for i := 0 to |full|
      invariant forall id: string :: id in byRowId <==> HasRow(full[..i], id)
      invariant forall id | id in byRowId :: byRowId[id] in full && byRowId[id].rowId == id
    {
      HasRowSnoc(full, i);
      byRowId := byRowId[full[i].rowId := full[i]];
    }
    assert full[..|full|] == full;
    out := [];
    for i := 0 to |kept|
      invariant |out| == i
      invariant forall k | 0 <= k < i :: HasRow(full, kept[k].rowId) && IsRowOf(full, kept[k], out[k])
    {
      if kept[i].rowId !in byRowId { return plain; }
      out := out + [byRowId[kept[i].rowId].(score := kept[i].score)];
    }
  }

  lemma HasRowSnoc(full: seq<Row>, i: nat)
    requires i < |full|
    ensures forall id :: HasRow(full[..i + 1], id) <==> HasRow(full[..i], id) || full[i].rowId == id
  {
    var more := full[..i + 1];
    assert more == full[..i] + [full[i]];
    forall id
      ensures HasRow(more, id) <==> HasRow(full[..i], id) || full[i].rowId == id
    {
      assert full[i] in more;
      if r :| r in full[..i] && r.rowId == id {
        assert r in more;
      }
    }
  }
}
