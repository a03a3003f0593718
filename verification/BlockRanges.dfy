// Aligned blocks of an object, the widening of a footer read, and the assembly of a
// byte range from blocks (docker/lancedb-go-disk-cache.rs, `widen` and the tail of `get_blocks`).
module BlockRanges {
  import opened Wrappers
  import T = Text

  type byte = b: int | 0 <= b < 256

  const BLOCK_BYTES: nat := 0x4_0000
  const DATA_TAIL_BYTES: nat := 8 * 1024 * 1024
  const FOOTER_READ_BYTES: nat := 64 * 1024
  const WHOLE_OBJECT_MAX_BYTES: nat := 8 * 1024 * 1024

  // A normalised object path: its non-empty, slash-free parts.
  type Location = seq<string>

  // The bytes of block `b` of an object holding `data`.
  function BlockOf(data: seq<byte>, b: nat): seq<byte>
    requires b * BLOCK_BYTES < |data|
  {
    data[b * BLOCK_BYTES..Min((b + 1) * BLOCK_BYTES, |data|)]
  }

  // Whether "/<part>/" occurs inside the joined path.
  predicate ContainsInnerPart(location: Location, part: string) {
    exists i :: 0 < i < |location| - 1 && location[i] == part
  }

  predicate Cacheable(location: Location) {
    exists i ::
      0 <= i < |location| && (location[i] == "data" || location[i] == "_indices" || location[i] == "_deletions")
  }

  predicate SlashFree(location: Location) { forall k | 0 <= k < |location| :: '/' !in location[k] }

  // Where a slash-free text ends in a path.
  lemma PieceEnds(a: string, b: string, x: string, y: string)
    requires '/' !in a && '/' !in b && a + "/" + x == b + "/" + y
    ensures a == b && x == y
  {
    var s := a + "/" + x;
    assert s[|a|] == '/' && s[|b|] == '/';
    assert forall i | 0 <= i < |a| :: s[i] == a[i] && s[i] != '/';
    assert forall i | 0 <= i < |b| :: s[i] == b[i] && s[i] != '/';
    assert a == s[..|a|] && b == s[..|b|] && x == s[|a| + 1..] && y == s[|b| + 1..];
  }

  lemma StartsWithPiece(location: Location, part: string)
    requires location != [] && SlashFree(location) && '/' !in part
    ensures part + "/" <= T.Join(location, "/") <==> |location| > 1 && location[0] == part
  {
    var path := T.Join(location, "/");
    if |location| > 1 {
      var rest := T.Join(location[1..], "/");
      if part + "/" <= path { PieceEnds(part, location[0], path[|part| + 1..], rest); }
    } else {
      assert (part + "/")[|part|] == '/' && path == location[0];
      assert forall i | 0 <= i < |path| :: path[i] != '/';
    }
  }

  // A part is found inside the joined path by the slashes around it.
  lemma {:induction false} InnerPartIs(location: Location, part: string)
    requires SlashFree(location) && '/' !in part
    ensures ContainsInnerPart(location, part) <==> T.Occurs("/" + part + "/", T.Join(location, "/"))
  {
    var path, mark := T.Join(location, "/"), "/" + part + "/";
    if |location| <= 1 {
      assert location == [] || path == location[0];
      assert forall i: nat :: T.At(mark, path, i) ==> path[i..i + |mark|][0] == path[i];
    } else {
      var first, rest := location[0], T.Join(location[1..], "/");
      InnerPartIs(location[1..], part);
      StartsWithPiece(location[1..], part);
      assert path == first + "/" + rest;
      forall i: nat
        ensures T.At(mark, path, i) <==>
                (i == |first| && part + "/" <= rest) || (i > |first| && T.At(mark, rest, i - |first| - 1))
      {
        MarkAt(first, rest, part, i);
      }
      hide T.At, T.Join;
      InnerShift(location, part);
      hide ContainsInnerPart;
      if part + "/" <= rest { assert T.At(mark, path, |first|); }
      if i: nat :| T.At(mark, rest, i) { assert T.At(mark, path, (i + |first| + 1) as nat); }
    }
  }

  lemma InnerShift(location: Location, part: string)
    requires |location| > 1
    ensures ContainsInnerPart(location, part) <==>
      (|location| > 2 && location[1] == part) || ContainsInnerPart(location[1..], part)
  {
    if i :| 0 < i < |location| - 1 && location[i] == part { assert i > 1 ==> location[1..][i - 1] == part; }
    if i :| 0 < i < |location| - 2 && location[1..][i] == part { assert location[i + 1] == part; }
  }

  lemma MarkAt(first: string, rest: string, part: string, i: nat)
    requires '/' !in first
    ensures T.At("/" + part + "/", first + "/" + rest, i) <==>
      (i == |first| && part + "/" <= rest) || (i > |first| && T.At("/" + part + "/", rest, i - |first| - 1))
  {
    var path, mark := first + "/" + rest, "/" + part + "/";
    var n := i + |mark|;
    if n <= |path| {
      assert path[i..n][0] == path[i];
      if i == |first| {
        assert path[i..n] == "/" + rest[..|part| + 1];
        assert mark == "/" + (part + "/");
        assert mark[1..] == part + "/" && path[i..n][1..] == rest[..|part| + 1];
      } else if i > |first| {
        assert path[i..n] == rest[i - |first| - 1..n - |first| - 1];
      }
    }
  }

  // The span of blocks to fetch for the missing span lo..=hi.
  function Widen(promote: nat, location: Location, size: Option<nat>, start: nat, end: nat, lo: nat,
                 hi: nat): (span: (nat, nat))
    requires start <= end
    ensures span.0 <= lo && span.1 == hi
  {
    var footer := end - start == FOOTER_READ_BYTES && (size.None? || size.value == end);
    if promote == 0 || !footer then (lo, hi)
    else if ContainsInnerPart(location, "_indices") && end <= promote then (0, hi)
    else if ContainsInnerPart(location, "data") then
      (Min(Max(end - DATA_TAIL_BYTES, 0) / BLOCK_BYTES, lo), hi)
    else (lo, hi)
  }

  // The span grows for a footer read alone, towards the front, and stays inside an object of
  // known size. How far: for an index file no further than the promotion limit, for a data
  // file than its tail, each rounded up to whole blocks.
  lemma WidenBounded(promote: nat, location: Location, size: Option<nat>, start: nat, end: nat, lo: nat, hi: nat)
    requires start < end && lo <= hi <= (end - 1) / BLOCK_BYTES
    ensures var span := Widen(promote, location, size, start, end, lo, hi);
      span.0 < lo ==>
        && promote > 0 && end - start == FOOTER_READ_BYTES
        && (size.Some? ==> hi * BLOCK_BYTES < size.value)
        && (if ContainsInnerPart(location, "_indices") && end <= promote
            then span.0 == 0 && (hi + 1 - span.0) * BLOCK_BYTES < promote + BLOCK_BYTES
            else
              && ContainsInnerPart(location, "data")
              && (hi + 1 - span.0) * BLOCK_BYTES < DATA_TAIL_BYTES + 2 * BLOCK_BYTES)
  {
  }

  // The promotion limit does not bound the tail of a data file: with a limit of one byte the
  // first read of a file of 16 MiB fetches 8 MiB.
  lemma TailIgnoresPromotion()
    ensures var location, end := ["db", "data", "a.lance"], 2 * DATA_TAIL_BYTES;
            var hi := (end - 1) / BLOCK_BYTES;
            var span := Widen(1, location, None, end - FOOTER_READ_BYTES, end, hi, hi);
      (hi + 1 - span.0) * BLOCK_BYTES == DATA_TAIL_BYTES
  {
    var location: Location := ["db", "data", "a.lance"];
    assert location[1] == "data" && ContainsInnerPart(location, "data");
    assert !ContainsInnerPart(location, "_indices") by { assert location[1] != "_indices"; }
  }

  // A byte range of an object returned by one request to the backing store, with the
  // object's size from the response's metadata.
  datatype Span = Span(size: nat, start: nat, end: nat, bytes: seq<byte>)

  // `span` is what a ranged read of `data` starting at block `lo` returns.
  ghost predicate SpanOf(data: seq<byte>, lo: nat, hi: nat, span: Span) {
    && span.size == |data|
    && span.start == lo * BLOCK_BYTES < |data|
    && span.end == Min((hi + 1) * BLOCK_BYTES, |data|)
    && span.start <= span.end
    && span.bytes == data[span.start..span.end]
  }

  // The slots of a read: slot k holds block first + k.
  type Slots = seq<Option<seq<byte>>>

  // Each filled slot holds exactly its block of `data`.
  ghost predicate SlotsOf(data: seq<byte>, first: nat, slots: Slots) {
    forall k :: 0 <= k < |slots| && slots[k].Some? ==>
      (first + k) * BLOCK_BYTES < |data| && slots[k].value == BlockOf(data, first + k)
  }

  // `fill`: copies the blocks of a fetched span into the empty slots they belong to.
  function Filled(first: nat, slots: Slots, span: Span): (filled: Slots)
    requires span.start <= span.end && |span.bytes| == span.end - span.start
    ensures |filled| == |slots|
  {
    seq(|slots|, k requires 0 <= k < |slots| =>
      var start := (first + k) * BLOCK_BYTES;
      if slots[k].Some? || start < span.start || start >= span.end then slots[k]
      else Some(span.bytes[start - span.start..Min(start + BLOCK_BYTES, span.end) - span.start]))
  }

  // A fetched span fills exactly the slots of its blocks, with the object's own bytes.
  lemma FillKeepsBlocks(data: seq<byte>, lo: nat, hi: nat, span: Span, first: nat, slots: Slots)
    requires SpanOf(data, lo, hi, span) && lo <= hi
    requires SlotsOf(data, first, slots)
    ensures SlotsOf(data, first, Filled(first, slots, span))
    ensures forall k :: 0 <= k < |slots| ==>
      (Filled(first, slots, span)[k].Some? <==>
        slots[k].Some? || (lo <= first + k <= hi && (first + k) * BLOCK_BYTES < |data|))
  {
    var filled := Filled(first, slots, span);
    forall k | 0 <= k < |slots|
      ensures filled[k].Some? ==> (first + k) * BLOCK_BYTES < |data| && filled[k].value == BlockOf(data, first + k)
      ensures filled[k].Some? <==> slots[k].Some? || (lo <= first + k <= hi && (first + k) * BLOCK_BYTES < |data|)
    {
      var b := first + k;
      var start := b * BLOCK_BYTES;
      if slots[k].None? && span.start <= start < span.end {
        var end := Min(start + BLOCK_BYTES, span.end);
        assert end == Min((b + 1) * BLOCK_BYTES, |data|);
        SliceOfSlice(data, span.start, span.end, start - span.start, end - span.start);
      }
    }
  }

  datatype Assembly = Assembled(bytes: seq<byte>) | Unpopulated(start: nat) | SlicePanic

  // The parts taken from some slots, or where the first missing block starts.
  datatype Pieces = Pieces(parts: seq<seq<byte>>) | MissingPiece(start: nat) | BadSlice

  function Cons(part: seq<byte>, rest: Pieces): Pieces {
    if rest.Pieces? then Pieces([part] + rest.parts) else rest
  }

  // The parts of start..end taken from slots of which the first one starts at byte `s`.
  function PiecesAt(slots: Slots, s: nat, start: nat, end: nat): Pieces {
    if slots == [] || s >= end then Pieces([])
    else if slots[0].None? then MissingPiece(s)
    else
      var block := slots[0].value;
      var from, to := Max(start, s) - s, Min(end, s + |block|) - s;
      if from > to then BadSlice else Cons(block[from..to], PiecesAt(slots[1..], s + BLOCK_BYTES, start, end))
  }

  function Concat(parts: seq<seq<byte>>): seq<byte> {
    if parts == [] then [] else parts[0] + Concat(parts[1..])
  }

  // The bytes handed to the caller for start..end, `end` already clamped to the size.
  // More or fewer than one part needs a buffer of end - start bytes, which underflows
  // when the clamped end lies before the start.
  function Assemble(slots: Slots, first: nat, start: nat, end: nat): Assembly {
    match PiecesAt(slots, first * BLOCK_BYTES, start, end)
    case MissingPiece(at) => Unpopulated(at)
    case BadSlice => SlicePanic
    case Pieces(parts) =>
      if |parts| != 1 && end < start then SlicePanic else Assembled(Concat(parts))
  }

  // Each slot up to `end` holds its block of `data`, the first one's block starting at `s`.
  ghost predicate FullTo(data: seq<byte>, slots: Slots, s: nat, end: nat) {
    s < end ==>
      && slots != [] && s < |data| && slots[0] == Some(data[s..Min(s + BLOCK_BYTES, |data|)])
      && FullTo(data, slots[1..], s + BLOCK_BYTES, end)
  }

  lemma {:induction false} FullSlots(data: seq<byte>, slots: Slots, first: nat, end: nat)
    requires SlotsOf(data, first, slots) && end <= |data| && end <= (first + |slots|) * BLOCK_BYTES
    requires forall k :: 0 <= k < |slots| && (first + k) * BLOCK_BYTES < |data| ==> slots[k].Some?
    ensures FullTo(data, slots, first * BLOCK_BYTES, end)
    decreases |slots|
  {
    if first * BLOCK_BYTES < end {
      var rest := slots[1..];
      assert slots[0].Some? && slots[0].value == BlockOf(data, first + 0);
      forall k | 0 <= k < |rest|
        ensures rest[k] == slots[k + 1] && first + 1 + k == first + (k + 1)
      {
      }
      FullSlots(data, rest, first + 1, end);
    }
  }

  lemma ConcatCons(part: seq<byte>, rest: seq<seq<byte>>)
    ensures Concat([part] + rest) == part + Concat(rest)
  {
    assert ([part] + rest)[1..] == rest;
  }

  // The parts are there and join to the bytes.
  predicate Gives(pieces: Pieces, bytes: seq<byte>) { pieces.Pieces? && Concat(pieces.parts) == bytes }

  lemma GivesMore(part: seq<byte>, rest: Pieces, bytes: seq<byte>)
    requires Gives(rest, bytes)
    ensures Gives(Cons(part, rest), part + bytes)
  {
    ConcatCons(part, rest.parts);
  }

  // The part of the block at `s` inside start..end is the object's bytes there.
  lemma PartIsTheObject(data: seq<byte>, s: nat, start: nat, end: nat)
    requires s < end <= |data| && start < end && start < s + BLOCK_BYTES
    ensures var block := data[s..Min(s + BLOCK_BYTES, |data|)];
            var from, to := Max(start, s) - s, Min(end, s + |block|) - s;
      && 0 <= from <= to <= |block|
      && block[from..to] == data[Max(start, s)..Min(s + BLOCK_BYTES, end)]
  {
    var e := Min(s + BLOCK_BYTES, |data|);
    SliceOfSlice(data, s, e, Max(start, s) - s, Min(end, e) - s);
  }

  // The first part is the object's bytes, and what follows is taken from the next slots.
  lemma PieceStep(data: seq<byte>, slots: Slots, s: nat, start: nat, end: nat)
    requires FullTo(data, slots, s, end) && s < end <= |data| && start < end && start < s + BLOCK_BYTES
    ensures slots != [] && FullTo(data, slots[1..], s + BLOCK_BYTES, end)
    ensures PiecesAt(slots, s, start, end) ==
      Cons(data[Max(start, s)..Min(s + BLOCK_BYTES, end)], PiecesAt(slots[1..], s + BLOCK_BYTES, start, end))
  {
    PartIsTheObject(data, s, start, end);
    hide Cons;
  }

  lemma Slices(data: seq<byte>, a: nat, b: nat, c: nat)
    requires a <= b <= c <= |data|
    ensures data[a..b] + data[b..c] == data[a..c]
  {
  }

  lemma NoPieces(data: seq<byte>, slots: Slots, s: nat, start: nat, end: nat)
    requires s >= end && end <= |data|
    ensures Gives(PiecesAt(slots, s, start, end), data[end..end])
  {
  }

  lemma {:induction false} PiecesAreTheRange(data: seq<byte>, slots: Slots, s: nat, start: nat, end: nat)
    requires FullTo(data, slots, s, end) && start < s + BLOCK_BYTES && start < end <= |data|
    ensures Gives(PiecesAt(slots, s, start, end), data[Min(Max(start, s), end)..end])
    decreases |slots|
  {
    hide FullTo, PiecesAt, Gives, Cons;
    if s >= end {
      NoPieces(data, slots, s, start, end);
    } else {
      var from, mid := Max(start, s), Min(s + BLOCK_BYTES, end);
      PieceStep(data, slots, s, start, end);
      PiecesAreTheRange(data, slots[1..], s + BLOCK_BYTES, start, end);
      GivesMore(data[from..mid], PiecesAt(slots[1..], s + BLOCK_BYTES, start, end), data[mid..end]);
      Slices(data, from, mid, end);
    }
  }

  // With every needed block present, assembly returns the object's bytes: no missing
  // block, no bad slice, and nothing beyond the object's end.
  lemma AssembleIsExact(data: seq<byte>, slots: Slots, first: nat, start: nat, rangeEnd: nat)
    requires SlotsOf(data, first, slots)
    requires first == start / BLOCK_BYTES && start < |data| && start < rangeEnd
    requires |slots| == (rangeEnd - 1) / BLOCK_BYTES - first + 1
    requires forall k :: 0 <= k < |slots| && (first + k) * BLOCK_BYTES < |data| ==> slots[k].Some?
    ensures Assemble(slots, first, start, Min(rangeEnd, |data|)) == Assembled(data[start..Min(rangeEnd, |data|)])
  {
    FullSlots(data, slots, first, Min(rangeEnd, |data|));
    hide SlotsOf, FullTo, PiecesAt;
    PiecesAreTheRange(data, slots, first * BLOCK_BYTES, start, Min(rangeEnd, |data|));
  }

  // Past the end of the object nothing can be returned: the buffer computation or the
  // slice of the last block underflows unless the read starts exactly at the end.
  lemma AssembleBeyondEnd(data: seq<byte>, slots: Slots, first: nat, start: nat, rangeEnd: nat)
    requires SlotsOf(data, first, slots)
    requires first == start / BLOCK_BYTES && |data| <= start < rangeEnd
    requires |slots| == (rangeEnd - 1) / BLOCK_BYTES - first + 1
    requires forall k :: 0 <= k < |slots| && (first + k) * BLOCK_BYTES < |data| ==> slots[k].Some?
    ensures Assemble(slots, first, start, |data|) == if start == |data| then Assembled([]) else SlicePanic
  {
    var s := first * BLOCK_BYTES;
    if s < |data| {
      assert slots[0].Some? && slots[0].value == BlockOf(data, first + 0);
      FirstIsLast(data, slots, s, start);
    }
  }

  lemma FirstIsLast(data: seq<byte>, slots: Slots, s: nat, start: nat)
    requires s < |data| <= start && |data| < s + BLOCK_BYTES && slots != [] && slots[0] == Some(data[s..|data|])
    ensures PiecesAt(slots, s, start, |data|) == if start == |data| then Pieces([[]]) else BadSlice
    ensures Concat([[]]) == []
  {
    var block := slots[0].value;
    if start == |data| {
      assert block[start - s..start - s] == [];
      assert PiecesAt(slots[1..], s + BLOCK_BYTES, start, |data|) == Pieces([]);
      assert Cons([], Pieces([])) == Pieces([[]]);
    }
    var none: seq<byte> := [];
    ConcatCons(none, []);
    assert [none] + [] == [none];
  }
}
