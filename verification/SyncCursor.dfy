// Incremental sync of growing session logs (cmd/tireless/index/sync.go and cursor.go).
module SyncCursor {
  import opened Wrappers
  import opened Text
  import opened LogTurns

  const POST_BATCH: nat := 32

  datatype FileCursor = FileCursor(offset: nat, session: string, project: string)

  const NO_CURSOR := FileCursor(0, "", "")

  // What a scan depends on besides the file: the decoder, the host, the source each path
  // belongs to and the container its name suggests.
  datatype Setup = Setup(decoder: Decoder, host: string, source: string -> Source, guess: string -> string)

  // What one file's cursor stands for: the state parsing started from, the bytes consumed
  // since, and the turns sent by the scans that moved the cursor.
  datatype Ledger = Ledger(start: Carried, consumed: string, sent: seq<Turn>)

  function CursorFor(files: map<string, FileCursor>, path: string): FileCursor {
    if path in files then files[path] else NO_CURSOR
  }

  // The state a scan opens a file with.
  function Opened(su: Setup, path: string, cur: FileCursor): Carried {
    Carried(ValueOr(cur.session, su.guess(path)), ValueOr(cur.project, "unknown"), {})
  }

  function Parsed(su: Setup, path: string, start: Carried, b: string): Parse {
    OnePass(su.decoder, su.host, su.source(path), start, b)
  }

  function LedgerFor(su: Setup, ledgers: map<string, Ledger>, path: string): Ledger {
    if path in ledgers then ledgers[path] else Ledger(Opened(su, path, NO_CURSOR), "", [])
  }

  // The cursor sits at a line end, carries the one-pass state of the bytes before it, and
  // every one-pass turn of those bytes has been sent; for Pi and OMP logs what was sent is
  // exactly those turns.
  ghost predicate Faithful(su: Setup, path: string, cur: FileCursor, l: Ledger) {
    var pass := Parsed(su, path, l.start, l.consumed);
    && |l.consumed| == cur.offset && AtLineEnd(l.consumed)
    && l.start.seen == {} && l.start.project != "" && (l.start.container == "" ==> su.guess(path) == "")
    && Opened(su, path, cur) == pass.carried.(seen := {})
    && (!su.source(path).Codex? ==> l.sent == pass.turns)
    && (forall t | t in pass.turns :: t in l.sent)
  }

  // Where a scan starts reading: at the cursor, or at zero when the file has shrunk.
  function ReadFrom(cur: FileCursor, content: string): (from: nat)
    ensures from <= |content|
  {
    if |content| < cur.offset then 0 else cur.offset
  }

  // The complete lines a scan consumes.
  function Fresh(cur: FileCursor, content: string): (b: string)
    ensures AtLineEnd(b)
  {
    var tail := content[ReadFrom(cur, content)..];
    tail[..CompleteLength(tail)]
  }

  function FreshParse(su: Setup, path: string, cur: FileCursor, content: string): Parse {
    Parsed(su, path, Opened(su, path, cur), Fresh(cur, content))
  }

  function Moved(su: Setup, path: string, cur: FileCursor, content: string): FileCursor {
    var pass := FreshParse(su, path, cur, content);
    FileCursor(ReadFrom(cur, content) + |Fresh(cur, content)|, pass.carried.container, pass.carried.project)
  }

  // The ledger after a successful scan. A shrunken file begins a new ledger, which still
  // starts from the container and project of the old one.
  function LedgerAfter(su: Setup, path: string, cur: FileCursor, l: Ledger, content: string): Ledger {
    var pass := FreshParse(su, path, cur, content);
    if |content| < cur.offset then Ledger(Opened(su, path, cur), Fresh(cur, content), pass.turns)
    else Ledger(l.start, l.consumed + Fresh(cur, content), l.sent + pass.turns)
  }

  lemma CarriedAfter(su: Setup, path: string, start: Carried, b: string)
    ensures var p := Parsed(su, path, start, b).carried;
      && (start.container != "" ==> p.container != "") && (start.project != "" ==> p.project != "")
      && (!su.source(path).Codex? ==> p.seen == start.seen)
  {
    CarriedStays(su.decoder, su.host, su.source(path), start, Split(b));
  }

  lemma FirstFaithful(su: Setup, path: string)
    ensures Faithful(su, path, NO_CURSOR, Ledger(Opened(su, path, NO_CURSOR), "", []))
  {
    EmptyLine(su.decoder, su.host, su.source(path), Opened(su, path, NO_CURSOR));
  }

  // A scan from offset zero opens a ledger of its own.
  lemma RestartFaithful(su: Setup, path: string, cur: FileCursor, l: Ledger, content: string)
    requires Faithful(su, path, cur, l) && |content| < cur.offset
    ensures Faithful(su, path, Moved(su, path, cur, content), LedgerAfter(su, path, cur, l, content))
  {
    hide OnePass;
    CarriedAfter(su, path, Opened(su, path, cur), Fresh(cur, content));
  }

  // Parsing on from what the cursor saved, against parsing on without a break.
  lemma Resumed(su: Setup, path: string, whole: Carried, cut: Carried, b: string)
    requires cut == whole.(seen := {})
    requires !su.source(path).Codex? ==> whole.seen == {}
    ensures var p, q := Parsed(su, path, whole, b), Parsed(su, path, cut, b);
      && p.carried.container == q.carried.container && p.carried.project == q.carried.project
      && (!su.source(path).Codex? ==> p == q)
      && (forall t | t in p.turns :: t in q.turns)
  {
    if su.source(path).Codex? {
      CodexForgets(su.decoder, su.host, whole, Split(b));
    }
  }

  lemma ContinueFaithful(su: Setup, path: string, cur: FileCursor, l: Ledger, content: string)
    requires Faithful(su, path, cur, l) && |content| >= cur.offset
    ensures Faithful(su, path, Moved(su, path, cur, content), LedgerAfter(su, path, cur, l, content))
  {
    var more := Fresh(cur, content);
    var before := Parsed(su, path, l.start, l.consumed);
    OnePassAppend(su.decoder, su.host, su.source(path), l.start, l.consumed, more);
    CarriedAfter(su, path, l.start, l.consumed);
    CarriedAfter(su, path, before.carried, more);
    hide OnePass;
    Resumed(su, path, before.carried, Opened(su, path, cur), more);
  }

  // Every successful scan leaves a cursor that stands for one pass over the bytes before it.
  lemma ScanKeepsFaithful(su: Setup, path: string, cur: FileCursor, l: Ledger, content: string)
    requires Faithful(su, path, cur, l)
    ensures Faithful(su, path, Moved(su, path, cur, content), LedgerAfter(su, path, cur, l, content))
  {
    hide Faithful, Moved, LedgerAfter;
    if |content| < cur.offset {
      RestartFaithful(su, path, cur, l, content);
    } else {
      ContinueFaithful(su, path, cur, l, content);
    }
  }

  lemma LineEndAt(b: string, n: nat)
    requires n <= |b|
    ensures AtLineEnd(b[..n]) <==> n == 0 || b[n - 1] == '\n'
  {
    if n > 0 { assert b[..n][n - 1] == b[n - 1]; }
  }

  // The complete length is where the last newline ends.
  lemma CompleteIs(b: string, n: nat)
    requires n <= |b| && (n == 0 || b[n - 1] == '\n') && forall i | n <= i < |b| :: b[i] != '\n'
    ensures CompleteLength(b) == n
  {
    var m := CompleteLength(b);
    LineEndAt(b, m);
    hide CompleteLength, AtLineEnd;
    assert m > 0 ==> b[m - 1] == '\n';
    assert n > 0 ==> b[n - 1] == '\n';
  }

  // Complete lines after a line end are the complete lines of the rest.
  lemma CompleteAfter(b: string, n: nat)
    requires n <= |b| && AtLineEnd(b[..n])
    ensures CompleteLength(b) == n + CompleteLength(b[n..])
  {
    var m := CompleteLength(b[n..]);
    LineEndAt(b, n);
    LineEndAt(b[n..], m);
    assert forall i | n + m <= i < |b| :: b[i] == b[n..][i - n];
    hide CompleteLength, AtLineEnd;
    assert m > 0 ==> b[n..][m - 1] == b[n + m - 1];
    CompleteIs(b, n + m);
  }

  // The bytes a successful scan has consumed are the file's complete lines exactly when the
  // file still begins with what was consumed before, or has become shorter than the cursor.
  // In that first case the scan sends what one pass over the file adds.
  lemma CatchesUp(su: Setup, path: string, cur: FileCursor, l: Ledger, content: string)
    requires Faithful(su, path, cur, l)
    ensures var after := LedgerAfter(su, path, cur, l, content);
            var complete := content[..CompleteLength(content)];
      && (after.consumed == complete <==> l.consumed <= content || |content| < cur.offset)
      && (!su.source(path).Codex? && after.consumed == complete ==>
          after.sent == Parsed(su, path, after.start, complete).turns)
  {
    if |content| >= cur.offset { ConsumedIsComplete(l.consumed, content); }
    ScanKeepsFaithful(su, path, cur, l, content);
    AfterConsumed(su, path, cur, l, content);
    hide Moved, LedgerAfter, Parsed;
  }

  lemma AfterConsumed(su: Setup, path: string, cur: FileCursor, l: Ledger, content: string)
    requires |l.consumed| == cur.offset
    ensures var n := |l.consumed|;
      LedgerAfter(su, path, cur, l, content).consumed ==
      if |content| < n then content[..CompleteLength(content)]
        else l.consumed + content[n..][..CompleteLength(content[n..])]
  {
    hide FreshParse;
    assert content[0..] == content;
  }

  lemma ConsumedIsComplete(consumed: string, content: string)
    requires AtLineEnd(consumed) && |consumed| <= |content|
    ensures var n := |consumed|;
      consumed + content[n..][..CompleteLength(content[n..])] == content[..CompleteLength(content)] <==>
        consumed <= content
  {
    var n := |consumed|;
    var rest := content[n..][..CompleteLength(content[n..])];
    if consumed <= content {
      CompleteAfter(content, n);
      assert content[..n + |rest|] == consumed + rest;
    }
    if consumed + rest == content[..CompleteLength(content)] {
      assert consumed == (consumed + rest)[..n];
    }
  }

  // One scan of a file as it was then; posting its turns may have failed.
  datatype Scan = Scan(content: string, ok: bool)

  datatype Tracked = Tracked(cursor: FileCursor, ledger: Ledger)

  function ScanOnce(su: Setup, path: string, t: Tracked, scan: Scan): Tracked {
    if !scan.ok || |scan.content| == t.cursor.offset then t
    else Tracked(Moved(su, path, t.cursor, scan.content), LedgerAfter(su, path, t.cursor, t.ledger, scan.content))
  }

  function ScanAll(su: Setup, path: string, scans: seq<Scan>): Tracked {
    if scans == [] then Tracked(NO_CURSOR, Ledger(Opened(su, path, NO_CURSOR), "", []))
    else ScanOnce(su, path, ScanAll(su, path, scans[..|scans| - 1]), scans[|scans| - 1])
  }

  ghost predicate OnlyAppended(scans: seq<Scan>) {
    forall i, j | 0 <= i <= j < |scans| :: scans[i].content <= scans[j].content
  }

  // A file that is only appended to is sent as by one pass: after any scans, failed or not,
  // the turns sent by those that moved the cursor are the one-pass turns of the bytes before
  // it, and a scan that succeeds reaches the last complete line.
  lemma {:induction false} IncrementalIsOnePass(su: Setup, path: string, scans: seq<Scan>)
    requires scans != [] && OnlyAppended(scans) && !su.source(path).Codex?
    ensures var t := ScanAll(su, path, scans);
            var last := scans[|scans| - 1];
      && Faithful(su, path, t.cursor, t.ledger)
      && t.ledger.start == Opened(su, path, NO_CURSOR)
      && t.cursor.offset <= |last.content| && AtLineEnd(last.content[..t.cursor.offset])
      && t.ledger.consumed == last.content[..t.cursor.offset]
      && t.ledger.sent == Parsed(su, path, t.ledger.start, last.content[..t.cursor.offset]).turns
      && (last.ok ==> t.cursor.offset == CompleteLength(last.content))
    decreases |scans|
  {
    var n := |scans| - 1;
    var last := scans[n];
    var before := ScanAll(su, path, scans[..n]);
    if n == 0 {
      FirstFaithful(su, path);
    } else {
      assert scans[..n][n - 1] == scans[n - 1];
      IncrementalIsOnePass(su, path, scans[..n]);
    }
    hide Moved, LedgerAfter, Parsed;
    assert before.ledger.consumed <= last.content;
    ScanGrows(su, path, before, last);
  }

  lemma ScanGrows(su: Setup, path: string, before: Tracked, scan: Scan)
    requires Faithful(su, path, before.cursor, before.ledger) && before.ledger.consumed <= scan.content
    ensures var t := ScanOnce(su, path, before, scan);
      && Faithful(su, path, t.cursor, t.ledger) && t.ledger.start == before.ledger.start
      && t.ledger.consumed <= scan.content
      && (scan.ok ==> t.ledger.consumed == scan.content[..CompleteLength(scan.content)])
  {
    var cur, l := before.cursor, before.ledger;
    ScanKeepsFaithful(su, path, cur, l, scan.content);
    CatchesUp(su, path, cur, l, scan.content);
    if |scan.content| == cur.offset {
      assert scan.content == l.consumed;
      assert scan.content[..|scan.content|] == scan.content;
      LineEndAt(scan.content, |scan.content|);
      CompleteIs(scan.content, |scan.content|);
    }
    hide Moved, Parsed, FreshParse;
  }

  // A file that shrinks is parsed from its beginning, but from the container and project of
  // what it held before. That is harmless exactly when the two agree with the file's own
  // start, or the new lines name them before their first turn.
  lemma RotationKeepsNames(su: Setup, path: string, cur: FileCursor, l: Ledger, content: string)
    requires |content| < cur.offset && !su.source(path).Codex?
    ensures var lines := Split(content[..CompleteLength(content)]);
            var stale, own := Opened(su, path, cur), Opened(su, path, NO_CURSOR);
      LedgerAfter(su, path, cur, l, content).sent ==
        Parsed(su, path, own, content[..CompleteLength(content)]).turns <==>
        && (stale.container == own.container || !UnnamedTurn(su.decoder, lines, NamesContainer))
        && (stale.project == own.project || !UnnamedTurn(su.decoder, lines, NamesProject))
  {
    var complete := content[..CompleteLength(content)];
    assert content[0..] == content;
    assert Fresh(cur, content) == complete;
    TurnsFromAnotherStart(su.decoder, su.host, su.source(path), Opened(su, path, cur), Opened(su, path, NO_CURSOR),
                          Split(complete));
  }

  // All turns a ledger has sent are acknowledged.
  ghost predicate Kept(su: Setup, files: map<string, FileCursor>, ledgers: map<string, Ledger>, acks: seq<Turn>,
                       path: string) {
    && Faithful(su, path, CursorFor(files, path), LedgerFor(su, ledgers, path))
    && forall t | t in LedgerFor(su, ledgers, path).sent :: t in acks
  }

  ghost predicate AllKept(su: Setup, files: map<string, FileCursor>, ledgers: map<string, Ledger>, acks: seq<Turn>) {
    forall path: string :: Kept(su, files, ledgers, acks, path)
  }

  // One thing that happens to the syncer: it looks at files, some of which cannot be read,
  // or its process dies and starts again.
  datatype Event = Poll(files: seq<(string, Option<string>)>) | Restart

  // ---------- What polls do when nothing fails ----------

  // The cursors and the turns of one look at a file. A file that cannot be read and one whose
  // size is where the cursor stands are passed over.
  function LookedAt(su: Setup, files: map<string, FileCursor>, path: string,
                    content: Option<string>): (map<string, FileCursor>, seq<Turn>)
  {
    var cur := CursorFor(files, path);
    if content.None? || |content.value| == cur.offset then (files, [])
    else (files[path := Moved(su, path, cur, content.value)], FreshParse(su, path, cur, content.value).turns)
  }

  // The cursors after looks at some files, one after another, and the turns found on the way.
  function Polled(su: Setup, files: map<string, FileCursor>,
                  listed: seq<(string, Option<string>)>): (map<string, FileCursor>, seq<Turn>)
  {
    if listed == [] then (files, [])
    else
      var before, last := Polled(su, files, listed[..|listed| - 1]), listed[|listed| - 1];
      var now := LookedAt(su, before.0, last.0, last.1);
      (now.0, before.1 + now.1)
  }

  // The files of all polls of a history.
  function Looks(events: seq<Event>): seq<(string, Option<string>)> {
    if events == [] then []
    else
      var last := events[|events| - 1];
      Looks(events[..|events| - 1]) + (if last.Poll? then last.files else [])
  }

  lemma PolledSnoc(su: Setup, files: map<string, FileCursor>, listed: seq<(string, Option<string>)>)
    requires listed != []
    ensures var before, last := Polled(su, files, listed[..|listed| - 1]), listed[|listed| - 1];
            var now := LookedAt(su, before.0, last.0, last.1);
      Polled(su, files, listed) == (now.0, before.1 + now.1)
  {
    hide LookedAt;
  }

  lemma {:induction false} PolledAppend(su: Setup, files: map<string, FileCursor>,
                                        a: seq<(string, Option<string>)>, b: seq<(string, Option<string>)>)
    ensures var first := Polled(su, files, a);
            var rest := Polled(su, first.0, b);
      Polled(su, files, a + b) == (rest.0, first.1 + rest.1)
  {
    hide LookedAt;
    var first := Polled(su, files, a);
    if b == [] {
      assert a + b == a && first.1 + [] == first.1;
    } else {
      var most, last := b[..|b| - 1], b[|b| - 1];
      assert (a + b)[..|a + b| - 1] == a + most;
      PolledAppend(su, files, a, most);
      PolledSnoc(su, files, a + b);
      PolledSnoc(su, first.0, b);
      hide Polled;
      assert (a + b)[|a + b| - 1] == last;
      var rest := Polled(su, first.0, most);
      var now := LookedAt(su, rest.0, last.0, last.1);
      assert first.1 + rest.1 + now.1 == first.1 + (rest.1 + now.1);
    }
  }

  // A file listed once ends with the cursor that its one look gives it.
  lemma {:induction false} PolledAt(su: Setup, files: map<string, FileCursor>, listed: seq<(string, Option<string>)>,
                                    i: nat)
    requires i < |listed| && forall j | 0 <= j < |listed| && j != i :: listed[j].0 != listed[i].0
    ensures CursorFor(Polled(su, files, listed).0, listed[i].0) ==
      CursorFor(LookedAt(su, files, listed[i].0, listed[i].1).0, listed[i].0)
    decreases |listed|
  {
    hide Moved, FreshParse;
    var n := |listed| - 1;
    if i < n {
      PolledAt(su, files, listed[..n], i);
    } else {
      PolledElsewhere(su, files, listed[..n], listed[i].0);
    }
  }

  lemma {:induction false} PolledElsewhere(su: Setup, files: map<string, FileCursor>,
                                           listed: seq<(string, Option<string>)>, path: string)
    requires forall j | 0 <= j < |listed| :: listed[j].0 != path
    ensures CursorFor(Polled(su, files, listed).0, path) == CursorFor(files, path)
  {
    hide Moved, FreshParse;
    if listed != [] { PolledElsewhere(su, files, listed[..|listed| - 1], path); }
  }

  // `calm` is a promise of the environment: no request and no save fails during the call.
  class Syncer {
    const su: Setup
    var files: map<string, FileCursor>
    var saved: map<string, FileCursor>
    ghost var ledgers: map<string, Ledger>
    ghost var savedLedgers: map<string, Ledger>
    // Every turn the server has acknowledged, in order.
    ghost var acks: seq<Turn>

    ghost predicate Valid()
      reads this
    {
      AllKept(su, files, ledgers, acks) && AllKept(su, saved, savedLedgers, acks)
    }

    constructor (su: Setup)
      ensures Valid() && this.su == su && files == saved == map[] && acks == []
    {
      this.su := su;
      files, saved, ledgers, savedLedgers, acks := map[], map[], map[], map[], [];
      new;
      forall path: string
        ensures Kept(su, files, ledgers, acks, path)
      {
        FirstFaithful(su, path);
      }
    }

    // Posts turns in batches until one fails.
    method PostAll(turns: seq<Turn>, calm: bool) returns (ok: bool, ghost posted: nat)
      requires Valid()
      modifies this`acks
      ensures Valid() && posted <= |turns| && acks == old(acks) + turns[..posted]
      ensures ok ==> posted == |turns|
      ensures calm ==> ok
    {
      hide AllKept;
      var i := 0;
      posted := 0;
      while i < |turns|
        invariant posted == Min(i, |turns|) && 0 <= i
        invariant acks == old(acks) + turns[..posted]
        invariant Valid()
      {
        var end := i + POST_BATCH;
        if end > |turns| { end := |turns|; }
        var failed: bool := *;
        if failed && !calm { return false, posted; }
        ghost var before := acks;
        acks := acks + turns[i..end];
        assert turns[..posted] + turns[i..end] == turns[..end];
        AllKeptLonger(su, files, ledgers, before, acks);
        AllKeptLonger(su, saved, savedLedgers, before, acks);
        posted := end;
        i := i + POST_BATCH;
      }
      ok := true;
    }

    // A file that cannot be read, or whose turns could not all be posted, leaves its cursor
    // where it was.
    method ScanFile(path: string, content: Option<string>, calm: bool) returns (ok: bool, ghost posted: nat)
      requires Valid()
      modifies this`files, this`ledgers, this`acks
      ensures Valid()
      ensures !ok ==> files == old(files) && ledgers == old(ledgers)
      ensures content.None? ==> !ok && acks == old(acks)
      ensures calm && content.Some? ==> ok
      ensures ok ==>
        files == LookedAt(su, old(files), path, content).0
        && acks == old(acks) + LookedAt(su, old(files), path, content).1
      ensures content.Some? ==>
        var cur := CursorFor(old(files), path);
        var turns := FreshParse(su, path, cur, content.value).turns;
        if |content.value| == cur.offset then
          ok && files == old(files) && ledgers == old(ledgers) && acks == old(acks)
        else
          && posted <= |turns| && acks == old(acks) + turns[..posted]
          && (ok ==>
              && posted == |turns|
              && files == old(files)[path := Moved(su, path, cur, content.value)]
              && ledgers ==
                old(ledgers)[path := LedgerAfter(su, path, cur, LedgerFor(su, old(ledgers), path), content.value)])
    {
      hide AllKept, LedgerAfter, FreshParse, Moved, OnePass;
      posted := 0;
      var cur := if path in files then files[path] else NO_CURSOR;
      if content.None? { return false, 0; }
      var bytes := content.value;
      if |bytes| == cur.offset { return true, 0; }
      var offset := cur.offset;
      if |bytes| < offset { offset := 0; }
      var container, project := cur.session, cur.project;
      if container == "" { container := su.guess(path); }
      if project == "" { project := "unknown"; }
      var st := new FileState(su.decoder, su.source(path), su.host, container, project);
      var turns, n := st.ReadTurns(bytes[offset..]);
      MovedIs(su, path, cur, bytes, Parse(turns, st.Value()), n);
      ok, posted := PostAll(turns, calm);
      if !ok { return; }
      assert turns[..posted] == turns;
      KeptAfterScan(su, files, ledgers, old(acks), path, bytes);
      ledgers := ledgers[path := LedgerAfter(su, path, cur, LedgerFor(su, ledgers, path), bytes)];
      files := files[path := FileCursor(offset + n, st.container, st.project)];
    }

    // Writes the cursors to disk; a failed write leaves the file as it was.
    method Save(calm: bool) returns (ok: bool)
      requires Valid()
      modifies this`saved, this`savedLedgers
      ensures Valid() && (calm ==> ok)
      ensures if ok then saved == files && savedLedgers == ledgers
        else saved == old(saved) && savedLedgers == old(savedLedgers)
    {
      hide AllKept;
      var failed: bool := *;
      ok := !failed || calm;
      if ok { saved, savedLedgers := files, ledgers; }
    }

    // One look at every listed file, saving after each one that moved.
    method Once(listed: seq<(string, Option<string>)>, calm: bool) returns (ok: bool)
      requires Valid()
      modifies this`files, this`ledgers, this`saved, this`savedLedgers, this`acks
      ensures Valid() && old(acks) <= acks
      ensures ok && old(saved) == old(files) ==> saved == files
      ensures calm ==>
        ok && files == Polled(su, old(files), listed).0 && acks == old(acks) + Polled(su, old(files), listed).1
    {
      hide AllKept, LookedAt, Polled, Moved, LedgerAfter, FreshParse;
      NothingPolled(su, files);
      for i := 0 to |listed|
        invariant Valid() && old(acks) <= acks
        invariant old(saved) == old(files) ==> saved == files
        invariant calm ==>
          files == Polled(su, old(files), listed[..i]).0 && acks == old(acks) + Polled(su, old(files), listed[..i]).1
      {
        assert listed[..i + 1][..i] == listed[..i];
        PolledSnoc(su, old(files), listed[..i + 1]);
        var path, content := listed[i].0, listed[i].1;
        var before := CursorFor(files, path);
        ghost var had := files;
        var scanned, _ := ScanFile(path, content, calm);
        PassedOver(su, had, path, content);
        if scanned {
          if CursorFor(files, path) != before {
            var written := Save(calm);
            if !written { return false; }
          } else {
            MovedIsSet(su, had, path, content);
            assert files == had;
          }
        }
      }
      assert listed[..|listed|] == listed;
      ok := true;
    }

    // Any history of polls and restarts. Every cursor then stands for one pass, and every
    // turn of the bytes before it has been acknowledged. When nothing fails, restarts make no
    // difference, and the turns acknowledged are those of all the looks in order.
    method Watch(events: seq<Event>, calm: bool)
      requires Valid()
      modifies this`files, this`ledgers, this`saved, this`savedLedgers, this`acks
      ensures Valid() && old(acks) <= acks
      ensures calm && old(saved) == old(files) ==>
        && saved == files == Polled(su, old(files), Looks(events)).0
        && acks == old(acks) + Polled(su, old(files), Looks(events)).1
    {
      hide AllKept, Polled;
      NothingPolled(su, files);
      for i := 0 to |events|
        invariant Valid() && old(acks) <= acks
        invariant calm && old(saved) == old(files) ==>
          && saved == files == Polled(su, old(files), Looks(events[..i])).0
          && acks == old(acks) + Polled(su, old(files), Looks(events[..i])).1
      {
        assert events[..i + 1][..i] == events[..i];
        ghost var looks := Looks(events[..i]);
        assert Looks(events[..i + 1]) == looks + if events[i].Poll? then events[i].files else [];
        match events[i] {
          case Poll(listed) =>
            PolledAppend(su, old(files), looks, listed);
            var ok := Once(listed, calm);
            if !ok { files, ledgers := saved, savedLedgers; }
          case Restart =>
            assert looks + [] == looks;
            files, ledgers := saved, savedLedgers;
        }
      }
      assert events[..|events|] == events;
    }
  }

  lemma NothingPolled(su: Setup, files: map<string, FileCursor>)
    ensures Polled(su, files, []) == (files, [])
  {
  }

  lemma PassedOver(su: Setup, files: map<string, FileCursor>, path: string, content: Option<string>)
    ensures content.None? ==> LookedAt(su, files, path, content) == (files, [])
  {
  }

  // A cursor that a scan has set differs from a missing one.
  lemma MovedIsSet(su: Setup, files: map<string, FileCursor>, path: string, content: Option<string>)
    ensures content.Some? ==> Moved(su, path, CursorFor(files, path), content.value) != NO_CURSOR
  {
    if content.Some? {
      var cur := CursorFor(files, path);
      CarriedAfter(su, path, Opened(su, path, cur), Fresh(cur, content.value));
    }
  }

  lemma KeptLonger(su: Setup, files: map<string, FileCursor>, ledgers: map<string, Ledger>, acks: seq<Turn>,
                   more: seq<Turn>, path: string)
    requires Kept(su, files, ledgers, acks, path) && acks <= more
    ensures Kept(su, files, ledgers, more, path)
  {
    hide Faithful;
  }

  lemma AllKeptLonger(su: Setup, files: map<string, FileCursor>, ledgers: map<string, Ledger>, acks: seq<Turn>,
                      more: seq<Turn>)
    requires AllKept(su, files, ledgers, acks) && acks <= more
    ensures AllKept(su, files, ledgers, more)
  {
    hide Kept;
    forall path: string
      ensures Kept(su, files, ledgers, more, path)
    {
      KeptLonger(su, files, ledgers, acks, more, path);
    }
  }

  lemma MovedIs(su: Setup, path: string, cur: FileCursor, content: string, pass: Parse, n: nat)
    requires var tail := content[ReadFrom(cur, content)..];
      n == CompleteLength(tail)
        && pass == OnePass(su.decoder, su.host, su.source(path), Opened(su, path, cur), tail[..n])
    ensures pass == FreshParse(su, path, cur, content)
    ensures Moved(su, path, cur, content) ==
      FileCursor(ReadFrom(cur, content) + n, pass.carried.container, pass.carried.project)
  {
    hide OnePass;
  }

  lemma KeptElsewhere(su: Setup, files: map<string, FileCursor>, ledgers: map<string, Ledger>,
                      files': map<string, FileCursor>, ledgers': map<string, Ledger>, acks: seq<Turn>, path: string)
    requires Kept(su, files, ledgers, acks, path)
    requires CursorFor(files', path) == CursorFor(files, path)
      && LedgerFor(su, ledgers', path) == LedgerFor(su, ledgers, path)
    ensures Kept(su, files', ledgers', acks, path)
  {
    hide Faithful;
  }

  lemma KeptScan(su: Setup, files: map<string, FileCursor>, ledgers: map<string, Ledger>, acks: seq<Turn>,
                 path: string, content: string)
    requires Kept(su, files, ledgers, acks, path)
    ensures var cur, l := CursorFor(files, path), LedgerFor(su, ledgers, path);
            var after := LedgerAfter(su, path, cur, l, content);
      && Faithful(su, path, Moved(su, path, cur, content), after)
      && forall t | t in after.sent :: t in acks + FreshParse(su, path, cur, content).turns
  {
    hide FreshParse, Moved;
    var cur, l := CursorFor(files, path), LedgerFor(su, ledgers, path);
    ScanKeepsFaithful(su, path, cur, l, content);
    hide Faithful;
  }

  lemma KeptHere(su: Setup, files: map<string, FileCursor>, ledgers: map<string, Ledger>, acks: seq<Turn>,
                 path: string, cur: FileCursor, l: Ledger)
    requires path in files && files[path] == cur && path in ledgers && ledgers[path] == l
    requires Faithful(su, path, cur, l) && forall t | t in l.sent :: t in acks
    ensures Kept(su, files, ledgers, acks, path)
  {
    hide Faithful;
  }

  lemma KeptAfterScan(su: Setup, files: map<string, FileCursor>, ledgers: map<string, Ledger>, acks: seq<Turn>,
                      path: string, content: string)
    requires AllKept(su, files, ledgers, acks)
    ensures var cur := CursorFor(files, path);
            var files' := files[path := Moved(su, path, cur, content)];
            var ledgers' := ledgers[path := LedgerAfter(su, path, cur, LedgerFor(su, ledgers, path), content)];
      AllKept(su, files', ledgers', acks + FreshParse(su, path, cur, content).turns)
  {
    hide Kept, Faithful, Moved, LedgerAfter, FreshParse;
    var cur, was := CursorFor(files, path), LedgerFor(su, ledgers, path);
    var cur', l' := Moved(su, path, cur, content), LedgerAfter(su, path, cur, was, content);
    var files', ledgers', acks' :=
      files[path := cur'], ledgers[path := l'], acks + FreshParse(su, path, cur, content).turns;
    forall p: string
      ensures Kept(su, files', ledgers', acks', p)
    {
      if p == path {
        KeptScan(su, files, ledgers, acks, path, content);
        KeptHere(su, files', ledgers', acks', path, cur', l');
      } else {
        KeptLonger(su, files, ledgers, acks, acks', p);
        KeptElsewhere(su, files, ledgers, files', ledgers', acks', p);
      }
    }
  }
}
