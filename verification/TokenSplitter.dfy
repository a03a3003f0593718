// Splitting a text into overlapping chunks under a token budget, by nested binary searches
// against an external token counter (raw_ingest.go, `splitTokenChunks`).
module TokenSplitter {
  import opened Wrappers

  const EMBED_CHUNK_OVERLAP: int := 64

  // The tokenize request: a count, or None when the request fails. The same text always
  // gets the same answer, and nothing else is known about it.
  type TokenCounter = string -> Option<nat>

  datatype SplitResult = Chunks(chunks: seq<string>) | TokenizeError | Panicked

  // A chunk text[start..end].
  datatype Cut = Cut(start: nat, end: nat)

  // Division as the source does it, towards zero.
  function TruncDiv(a: nat, b: int): int
    requires b != 0
  {
    if b > 0 then a / b else -(a / -b)
  }

  // The capacity computed for the result divides by zero at the overlap size and may be negative below it.
  predicate BadCapacity(count: nat, maxTokens: int) {
    maxTokens == EMBED_CHUNK_OVERLAP || TruncDiv(count, maxTokens - EMBED_CHUNK_OVERLAP) + 1 < 0
  }

  // ---------- The searches, as functions ----------

  // The end found by the first binary search over lo..=hi.
  function FitEnd(tc: TokenCounter, text: string, start: nat, maxTokens: int, lo: int, hi: int,
                  best: nat): (r: Option<nat>)
    requires start < lo && hi <= |text| && start < best <= |text|
    ensures r.Some? ==> start < r.value <= |text|
    decreases hi - lo
  {
    if lo > hi then Some(best)
    else
      var mid := lo + (hi - lo) / 2;
      match tc(text[start..mid])
      case None => None
      case Some(n) =>
        if n <= maxTokens then FitEnd(tc, text, start, maxTokens, mid + 1, hi, mid)
        else FitEnd(tc, text, start, maxTokens, lo, mid - 1, best)
  }

  // The overlap start found by the second one.
  function OverlapStart(tc: TokenCounter, text: string, end: nat, lo: int, hi: int, found: nat): (r: Option<nat>)
    requires 0 <= lo && hi <= end <= |text| && found <= end
    ensures r.Some? ==> r.value <= end
    decreases hi - lo
  {
    if lo > hi then Some(found)
    else
      var mid := lo + (hi - lo) / 2;
      match tc(text[mid..end])
      case None => None
      case Some(n) =>
        if n <= EMBED_CHUNK_OVERLAP then OverlapStart(tc, text, end, lo, mid - 1, mid)
        else OverlapStart(tc, text, end, mid + 1, hi, found)
  }

  // The position after the last newline at or after `minimum`, or `end`.
  function BoundaryFrom(text: string, minimum: nat, i: int, end: nat): (r: nat)
    requires minimum <= end <= |text| && minimum - 1 <= i < end
    ensures || (r == end && forall j :: minimum <= j <= i ==> text[j] != '\n')
            || (minimum < r <= i + 1 && text[r - 1] == '\n' && forall j :: r <= j <= i ==> text[j] != '\n')
    decreases i - minimum + 1
  {
    if i < minimum then end
    else if text[i] == '\n' then i + 1
    else BoundaryFrom(text, minimum, i - 1, end)
  }

  function Boundary(text: string, start: nat, end: nat): (r: nat)
    requires start < end <= |text|
    ensures start < r <= end
  {
    BoundaryFrom(text, start + (end - start) * 3 / 4, end - 1, end)
  }

  // One round: the end of the chunk at `start`, and where the next chunk starts.
  function NextCut(tc: TokenCounter, text: string, start: nat, maxTokens: int): (r: Option<(nat, nat)>)
    requires start < |text|
    ensures r.Some? ==> start < r.value.1 <= r.value.0 <= |text|
  {
    var best := FitEnd(tc, text, start, maxTokens, start + 1, |text|, start + 1);
    if best.None? then None
    else
      var end := Boundary(text, start, best.value);
      var overlap := OverlapStart(tc, text, end, start, end, end);
      if overlap.None? then None
      else Some((end, if overlap.value <= start then end else overlap.value))
  }

  // The chunks from `start` on, or None when a tokenize request fails.
  function Cuts(tc: TokenCounter, text: string, start: nat, maxTokens: int): Option<seq<Cut>>
    requires start <= |text|
    decreases |text| - start
  {
    if start == |text| then Some([])
    else
      match tc(text[start..])
      case None => None
      case Some(n) =>
        if n <= maxTokens then Some([Cut(start, |text|)])
        else
          var next := NextCut(tc, text, start, maxTokens);
          if next.None? then None else Prepend([Cut(start, next.value.0)], Cuts(tc, text, next.value.1, maxTokens))
  }

  function Prepend(head: seq<Cut>, tail: Option<seq<Cut>>): Option<seq<Cut>> {
    if tail.None? then None else Some(head + tail.value)
  }

  predicate CutsWithin(text: string, cuts: seq<Cut>) {
    forall k :: 0 <= k < |cuts| ==> cuts[k].start < cuts[k].end <= |text|
  }

  function Texts(text: string, cuts: seq<Cut>): (chunks: seq<string>)
    requires CutsWithin(text, cuts)
    ensures |chunks| == |cuts|
  {
    seq(|cuts|, k requires 0 <= k < |cuts| => text[cuts[k].start..cuts[k].end])
  }

  // The specification of a split.
  function Split(tc: TokenCounter, text: string, maxTokens: int): SplitResult {
    match tc(text)
    case None => TokenizeError
    case Some(count) =>
      if count <= maxTokens then Chunks([text])
      else if BadCapacity(count, maxTokens) then Panicked
      else
        match Cuts(tc, text, 0, maxTokens)
        case None => TokenizeError
        case Some(cuts) =>
          assert CutsWithin(text, cuts) by { CutsTile(tc, text, 0, maxTokens); }
          Chunks(Texts(text, cuts))
  }

  // ---------- Coverage, for any counter at all ----------

  // The cuts start at `start`, end at the end of the text, move strictly forward and leave no gap.
  predicate Tiles(text: string, start: nat, cuts: seq<Cut>) {
    && CutsWithin(text, cuts)
    && (cuts == [] <==> start == |text|)
    && (cuts != [] ==> cuts[0].start == start && cuts[|cuts| - 1].end == |text|)
    && forall k :: 0 <= k < |cuts| - 1 ==> cuts[k].start < cuts[k + 1].start <= cuts[k].end
  }

  lemma {:induction false} CutsTile(tc: TokenCounter, text: string, start: nat, maxTokens: int)
    requires start <= |text|
    ensures Cuts(tc, text, start, maxTokens).Some? ==> Tiles(text, start, Cuts(tc, text, start, maxTokens).value)
    decreases |text| - start
  {
    if start < |text| && tc(text[start..]).Some? && tc(text[start..]).value > maxTokens {
      hide Tiles, NextCut;
      var next := NextCut(tc, text, start, maxTokens);
      if next.Some? {
        CutsTile(tc, text, next.value.1, maxTokens);
        var rest := Cuts(tc, text, next.value.1, maxTokens);
        if rest.Some? { OneMoreTile(text, start, next.value.0, next.value.1, rest.value); }
      }
    }
  }

  lemma OneMoreTile(text: string, start: nat, end: nat, next: nat, rest: seq<Cut>)
    requires start < next <= end <= |text| && Tiles(text, next, rest)
    ensures Tiles(text, start, [Cut(start, end)] + rest)
  {
    var cuts := [Cut(start, end)] + rest;
    assert forall k :: 0 < k < |cuts| ==> cuts[k] == rest[k - 1];
  }

  // Each chunk without the tail that the next chunk repeats.
  function Rebuild(text: string, cuts: seq<Cut>): string
    requires CutsWithin(text, cuts)
    requires forall k :: 0 <= k < |cuts| - 1 ==> cuts[k].start < cuts[k + 1].start <= cuts[k].end
  {
    if cuts == [] then []
    else
      var chunk := text[cuts[0].start..cuts[0].end];
      var overlap := if |cuts| > 1 then cuts[0].end - cuts[1].start else 0;
      chunk[..|chunk| - overlap] + Rebuild(text, cuts[1..])
  }

  // Dropping the overlaps rebuilds the text exactly.
  lemma {:induction false} RebuildIsText(text: string, start: nat, cuts: seq<Cut>)
    requires start <= |text| && Tiles(text, start, cuts)
    ensures Rebuild(text, cuts) == text[start..]
    decreases |cuts|
  {
    if |cuts| == 1 {
      assert text[cuts[0].start..cuts[0].end] == text[start..] && cuts[1..] == [];
      assert Rebuild(text, cuts[1..]) == [];
    } else if cuts != [] {
      TilesTail(text, start, cuts);
      RebuildIsText(text, cuts[1].start, cuts[1..]);
      hide Tiles, CutsWithin;
      JoinSlices(text, start, cuts[1].start, cuts[0].end);
    }
  }

  lemma TilesTail(text: string, start: nat, cuts: seq<Cut>)
    requires Tiles(text, start, cuts) && |cuts| > 1
    ensures Tiles(text, cuts[1].start, cuts[1..])
    ensures start == cuts[0].start <= cuts[1].start <= cuts[0].end <= |text|
    ensures Rebuild(text, cuts) ==
      text[start..cuts[0].end][..cuts[1].start - start] + Rebuild(text, cuts[1..])
  {
  }

  lemma JoinSlices(text: string, a: nat, b: nat, c: nat)
    requires a <= b <= c <= |text|
    ensures text[a..c][..b - a] + text[b..] == text[a..]
  {
    assert text[a..c][..b - a] == text[a..b];
  }

  // For an arbitrary counter, even a non-monotone one: a successful split of a non-empty
  // text is a list of non-empty slices that tile it.
  lemma SplitCovers(tc: TokenCounter, text: string, maxTokens: int)
    requires Split(tc, text, maxTokens).Chunks? && text != []
    ensures exists cuts: seq<Cut> ::
      && Tiles(text, 0, cuts) && cuts != []
      && Split(tc, text, maxTokens).chunks == Texts(text, cuts)
      && Rebuild(text, cuts) == text
  {
    var cuts: seq<Cut>;
    if tc(text).value <= maxTokens {
      cuts := [Cut(0, |text|)];
      assert text[0..|text|] == text;
      assert Texts(text, cuts) == [text];
    } else {
      CutsTile(tc, text, 0, maxTokens);
      cuts := Cuts(tc, text, 0, maxTokens).value;
    }
    RebuildIsText(text, 0, cuts);
    assert Tiles(text, 0, cuts);
  }

  // Exactly when the split of an over-budget text panics; never for a budget above the overlap.
  lemma PanicsIff(tc: TokenCounter, text: string, maxTokens: int)
    ensures Split(tc, text, maxTokens).Panicked? <==>
      && tc(text).Some? && tc(text).value > maxTokens
      && (maxTokens == EMBED_CHUNK_OVERLAP
          || (maxTokens < EMBED_CHUNK_OVERLAP && tc(text).value >= 2 * (EMBED_CHUNK_OVERLAP - maxTokens)))
  {
    if tc(text).Some? && maxTokens < EMBED_CHUNK_OVERLAP {
      var b := EMBED_CHUNK_OVERLAP - maxTokens;
      assert tc(text).value / b >= 2 <==> tc(text).value >= 2 * b;
    }
  }

  // ---------- Budget and overlap, for a monotone counter ----------

  // Total, zero on the empty text, and never smaller on an extension to either side.
  ghost predicate Monotone(tc: TokenCounter) {
    && (forall s :: tc(s).Some?)
    && tc([]) == Some(0)
    && (forall s, t :: Grows(tc, s, t))
  }

  ghost predicate Grows(tc: TokenCounter, s: string, t: string)
    requires tc(s).Some? && tc(t).Some? && tc(s + t).Some?
  {
    tc(s).value <= tc(s + t).value && tc(t).value <= tc(s + t).value
  }

  lemma SliceCounts(tc: TokenCounter, text: string, a: nat, b: nat, c: nat, d: nat)
    requires Monotone(tc) && a <= b <= c <= d <= |text|
    ensures tc(text[b..c]).value <= tc(text[a..d]).value
  {
    assert text[a..c] == text[a..b] + text[b..c];
    assert text[a..d] == text[a..c] + text[c..d];
    assert Grows(tc, text[a..b], text[b..c]) && Grows(tc, text[a..c], text[c..d]);
  }

  // The longest prefix of text[start..] within the budget, or one rune.
  ghost predicate LongestPrefix(tc: TokenCounter, text: string, maxTokens: int, start: nat, best: nat)
    requires start < best <= |text| && Monotone(tc)
  {
    && (tc(text[start..best]).value <= maxTokens || best == start + 1)
    && forall e :: best < e <= |text| ==> tc(text[start..e]).value > maxTokens
  }

  predicate FitsTo(tc: TokenCounter, text: string, maxTokens: int, start: nat, end: nat)
    requires start <= end <= |text|
  {
    tc(text[start..end]).Some? && tc(text[start..end]).value <= maxTokens
  }

  lemma PrefixIsLongest(tc: TokenCounter, text: string, maxTokens: int, start: nat, hi: nat, best: nat)
    requires Monotone(tc) && start <= hi <= best <= |text| && start < best
    requires best == start + 1 || FitsTo(tc, text, maxTokens, start, best)
    requires hi < |text| ==> !FitsTo(tc, text, maxTokens, start, hi + 1)
    ensures LongestPrefix(tc, text, maxTokens, start, best)
  {
    forall e | best < e <= |text|
      ensures tc(text[start..e]).value > maxTokens
    {
      SliceCounts(tc, text, start, start, hi + 1, e);
    }
  }

  lemma FitEndStep(tc: TokenCounter, text: string, start: nat, maxTokens: int, lo: int, hi: int, best: nat)
    returns (mid: nat)
    requires Monotone(tc) && start < lo && hi <= |text| && start < best <= |text|
    ensures lo > hi ==> FitEnd(tc, text, start, maxTokens, lo, hi, best) == Some(best)
    ensures lo <= hi ==>
      && lo <= mid <= hi
      && FitEnd(tc, text, start, maxTokens, lo, hi, best) ==
        if FitsTo(tc, text, maxTokens, start, mid) then FitEnd(tc, text, start, maxTokens, mid + 1, hi, mid)
        else FitEnd(tc, text, start, maxTokens, lo, mid - 1, best)
  {
    mid := if lo <= hi then lo + (hi - lo) / 2 else 0;
    assert lo <= hi ==> tc(text[start..mid]).Some?;
  }

  // The first search finds it.
  lemma {:induction false} FitEndIsLongest(tc: TokenCounter, text: string, start: nat, maxTokens: int, lo: int,
                                           hi: int, best: nat)
    requires Monotone(tc) && start < lo && lo <= hi + 1 && hi <= |text| && start < best <= |text|
    requires best == start + 1 || FitsTo(tc, text, maxTokens, start, best)
    requires lo == best + 1 || (lo == best == start + 1)
    requires hi < |text| ==> !FitsTo(tc, text, maxTokens, start, hi + 1)
    ensures FitEnd(tc, text, start, maxTokens, lo, hi, best).Some?
    ensures LongestPrefix(tc, text, maxTokens, start, FitEnd(tc, text, start, maxTokens, lo, hi, best).value)
    decreases hi - lo
  {
    hide Monotone, LongestPrefix, FitEnd, FitsTo;
    var mid := FitEndStep(tc, text, start, maxTokens, lo, hi, best);
    if lo > hi {
      PrefixIsLongest(tc, text, maxTokens, start, hi, best);
    } else if FitsTo(tc, text, maxTokens, start, mid) {
      FitEndIsLongest(tc, text, start, maxTokens, mid + 1, hi, mid);
    } else {
      FitEndIsLongest(tc, text, start, maxTokens, lo, mid - 1, best);
    }
  }

  // The second search finds the longest suffix of the chunk within the overlap.
  lemma {:induction false} OverlapIsLongest(tc: TokenCounter, text: string, start: nat, end: nat, lo: int, hi: int,
                                            found: nat)
    requires Monotone(tc) && start <= end && start <= lo && lo <= hi + 1 && hi <= end <= |text| && found <= end
    requires found == hi + 1 || (found == hi == end)
    requires tc(text[found..end]).value <= EMBED_CHUNK_OVERLAP
    requires lo > start ==> tc(text[lo - 1..end]).value > EMBED_CHUNK_OVERLAP
    ensures OverlapStart(tc, text, end, lo, hi, found).Some?
    ensures var m := OverlapStart(tc, text, end, lo, hi, found).value;
      && start <= m && tc(text[m..end]).value <= EMBED_CHUNK_OVERLAP
      && forall j :: start <= j < m ==> tc(text[j..end]).value > EMBED_CHUNK_OVERLAP
    decreases hi - lo
  {
    if lo > hi {
      assert text[end..end] == [];
      forall j | start <= j < found
        ensures tc(text[j..end]).value > EMBED_CHUNK_OVERLAP
      {
        SliceCounts(tc, text, j, lo - 1, end, end);
      }
    } else {
      var mid := lo + (hi - lo) / 2;
      if tc(text[mid..end]).value <= EMBED_CHUNK_OVERLAP {
        OverlapIsLongest(tc, text, start, end, lo, mid - 1, mid);
      } else {
        OverlapIsLongest(tc, text, start, end, mid + 1, hi, found);
      }
    }
  }

  ghost predicate CutAtBoundary(text: string, start: nat, best: nat, end: nat)
    requires start < best <= |text|
  {
    var minimum := start + (best - start) * 3 / 4;
    || (end == best && forall j :: minimum <= j < best ==> text[j] != '\n')
    || (minimum < end <= best && text[end - 1] == '\n' && forall j :: end <= j < best ==> text[j] != '\n')
  }

  // What a monotone counter adds: a chunk is the rest of the text, if that fits the budget;
  // otherwise it is cut from the longest prefix that fits, or from one rune when none does,
  // after the last newline of that prefix's final quarter if it has one.
  ghost predicate WellCut(tc: TokenCounter, text: string, maxTokens: int, cut: Cut)
    requires cut.start < cut.end <= |text| && Monotone(tc)
  {
    if tc(text[cut.start..]).value <= maxTokens then cut.end == |text|
    else
      exists best ::
        && cut.start < best <= |text| && LongestPrefix(tc, text, maxTokens, cut.start, best)
        && CutAtBoundary(text, cut.start, best, cut.end)
  }

  lemma WellCutFits(tc: TokenCounter, text: string, maxTokens: int, cut: Cut)
    requires cut.start < cut.end <= |text| && Monotone(tc) && WellCut(tc, text, maxTokens, cut)
    ensures tc(text[cut.start..cut.end]).value <= maxTokens || cut.end == cut.start + 1
  {
    assert text[cut.start..] == text[cut.start..|text|];
    if tc(text[cut.start..]).value > maxTokens {
      var best :| cut.start < best <= |text| && LongestPrefix(tc, text, maxTokens, cut.start, best)
        && CutAtBoundary(text, cut.start, best, cut.end);
      SliceCounts(tc, text, cut.start, cut.start, cut.end, best);
    }
  }

  // `next` starts the longest suffix of text[start..end] within the overlap.
  ghost predicate LongestOverlap(tc: TokenCounter, text: string, start: nat, end: nat, next: nat)
    requires start < end <= |text| && Monotone(tc)
  {
    exists m :: LongestSuffix(tc, text, start, end, m) && next == if m == start then end else m
  }

  ghost predicate LongestSuffix(tc: TokenCounter, text: string, start: nat, end: nat, m: nat)
    requires start < end <= |text| && Monotone(tc)
  {
    && start <= m <= end && tc(text[m..end]).value <= EMBED_CHUNK_OVERLAP
    && forall j :: start <= j < m ==> tc(text[j..end]).value > EMBED_CHUNK_OVERLAP
  }

  lemma NextCutIsWell(tc: TokenCounter, text: string, start: nat, maxTokens: int)
    requires Monotone(tc) && start < |text| && tc(text[start..]).value > maxTokens
    ensures NextCut(tc, text, start, maxTokens).Some?
    ensures var (end, next) := NextCut(tc, text, start, maxTokens).value;
      WellCut(tc, text, maxTokens, Cut(start, end)) && LongestOverlap(tc, text, start, end, next)
  {
    hide FitEnd, OverlapStart, BoundaryFrom;
    FitEndIsLongest(tc, text, start, maxTokens, start + 1, |text|, start + 1);
    var best := FitEnd(tc, text, start, maxTokens, start + 1, |text|, start + 1).value;
    var end := Boundary(text, start, best);
    assert text[end..end] == [];
    OverlapIsLongest(tc, text, start, end, start, end, end);
    var m := OverlapStart(tc, text, end, start, end, end).value;
    assert LongestSuffix(tc, text, start, end, m);
    assert LongestPrefix(tc, text, maxTokens, start, best) && CutAtBoundary(text, start, best, end);
  }

  ghost predicate AllWell(tc: TokenCounter, text: string, maxTokens: int, cuts: seq<Cut>)
    requires CutsWithin(text, cuts) && Monotone(tc)
  {
    && (forall k :: 0 <= k < |cuts| ==> WellCut(tc, text, maxTokens, cuts[k]))
    && (forall k :: 0 <= k < |cuts| - 1 ==> LongestOverlap(tc, text, cuts[k].start, cuts[k].end, cuts[k + 1].start))
  }

  lemma LastIsWell(tc: TokenCounter, text: string, start: nat, maxTokens: int)
    requires Monotone(tc) && start < |text| && tc(text[start..]).value <= maxTokens
    ensures AllWell(tc, text, maxTokens, [Cut(start, |text|)])
  {
  }

  lemma OneMoreIsWell(tc: TokenCounter, text: string, maxTokens: int, cut: Cut, rest: seq<Cut>)
    requires cut.start < cut.end <= |text| && CutsWithin(text, rest) && Monotone(tc)
    requires WellCut(tc, text, maxTokens, cut) && AllWell(tc, text, maxTokens, rest)
    requires rest != [] ==> LongestOverlap(tc, text, cut.start, cut.end, rest[0].start)
    ensures CutsWithin(text, [cut] + rest) && AllWell(tc, text, maxTokens, [cut] + rest)
  {
    hide WellCut, LongestOverlap;
    var cuts := [cut] + rest;
    assert forall k :: 0 < k < |cuts| ==> cuts[k] == rest[k - 1];
  }

  // Every chunk of a split is cut as late and repeated as far as its tokens allow.
  lemma {:induction false} CutsAreWell(tc: TokenCounter, text: string, start: nat, maxTokens: int)
    requires Monotone(tc) && start <= |text|
    ensures Cuts(tc, text, start, maxTokens).Some?
    ensures var cuts := Cuts(tc, text, start, maxTokens).value;
      Tiles(text, start, cuts) && AllWell(tc, text, maxTokens, cuts)
    decreases |text| - start
  {
    CutsTile(tc, text, start, maxTokens);
    if start < |text| {
      hide AllWell, WellCut, LongestOverlap, NextCut;
      if tc(text[start..]).value <= maxTokens {
        LastIsWell(tc, text, start, maxTokens);
      } else {
        NextCutIsWell(tc, text, start, maxTokens);
        var (end, next) := NextCut(tc, text, start, maxTokens).value;
        CutsAreWell(tc, text, next, maxTokens);
        OneMoreIsWell(tc, text, maxTokens, Cut(start, end), Cuts(tc, text, next, maxTokens).value);
      }
    }
  }

  // With a monotone counter a split that does not panic succeeds, every chunk fits the
  // budget unless it is one rune, and every cut and every overlap is as long as it can be.
  lemma SplitFits(tc: TokenCounter, text: string, maxTokens: int)
    requires Monotone(tc) && !Split(tc, text, maxTokens).Panicked?
    ensures var r := Split(tc, text, maxTokens);
      && r.Chunks?
      && (forall chunk :: chunk in r.chunks ==> tc(chunk).value <= maxTokens || |chunk| == 1)
      && (tc(text).value > maxTokens ==>
            exists cuts: seq<Cut> :: Tiles(text, 0, cuts) && r.chunks == Texts(text, cuts)
              && AllWell(tc, text, maxTokens, cuts))
  {
    CutsAreWell(tc, text, 0, maxTokens);
    var cuts := Cuts(tc, text, 0, maxTokens).value;
    hide WellCut, LongestOverlap;
    if tc(text).value > maxTokens {
      forall chunk | chunk in Texts(text, cuts)
        ensures tc(chunk).value <= maxTokens || |chunk| == 1
      {
        var k :| 0 <= k < |cuts| && Texts(text, cuts)[k] == chunk;
        WellCutFits(tc, text, maxTokens, cuts[k]);
      }
    }
  }

  // ---------- The loops ----------

  method PreferTextBoundary(text: string, start: nat, end: nat) returns (r: nat)
    requires start < end <= |text|
    ensures r == Boundary(text, start, end)
  {
    var minimum := start + (end - start) * 3 / 4;
    var i := end - 1;
    while i >= minimum
      invariant minimum - 1 <= i < end
      invariant BoundaryFrom(text, minimum, i, end) == Boundary(text, start, end)
    {
      if text[i] == '\n' { return i + 1; }
      i := i - 1;
    }
    r := end;
  }

  // The first binary search.
  method SearchEnd(tc: TokenCounter, text: string, start: nat, maxTokens: int) returns (r: Option<nat>)
    requires start < |text|
    ensures r == FitEnd(tc, text, start, maxTokens, start + 1, |text|, start + 1)
  {
    hide FitEnd;
    var lo, hi := start + 1, |text|;
    var best := start + 1;
    while lo <= hi
      invariant start < lo && hi <= |text| && start < best <= |text|
      invariant FitEnd(tc, text, start, maxTokens, lo, hi, best) ==
        FitEnd(tc, text, start, maxTokens, start + 1, |text|, start + 1)
      decreases hi - lo
    {
      var mid := lo + (hi - lo) / 2;
      FitEndUnfolds(tc, text, start, maxTokens, lo, hi, best, mid);
      var n := tc(text[start..mid]);
      if n.None? { return None; }
      if n.value <= maxTokens {
        best, lo := mid, mid + 1;
      } else {
        hi := mid - 1;
      }
    }
    FitEndDone(tc, text, start, maxTokens, lo, hi, best);
    r := Some(best);
  }

  lemma FitEndDone(tc: TokenCounter, text: string, start: nat, maxTokens: int, lo: int, hi: int, best: nat)
    requires start < lo && hi <= |text| && start < best <= |text| && lo > hi
    ensures FitEnd(tc, text, start, maxTokens, lo, hi, best) == Some(best)
  {
  }

  lemma FitEndUnfolds(tc: TokenCounter, text: string, start: nat, maxTokens: int, lo: int, hi: int, best: nat, mid: int)
    requires start < lo <= hi <= |text| && start < best <= |text| && mid == lo + (hi - lo) / 2
    ensures lo <= mid <= hi
    ensures FitEnd(tc, text, start, maxTokens, lo, hi, best) ==
      match tc(text[start..mid]) {
        case None => None
        case Some(n) =>
          if n <= maxTokens then FitEnd(tc, text, start, maxTokens, mid + 1, hi, mid)
          else FitEnd(tc, text, start, maxTokens, lo, mid - 1, best)
      }
  {
  }

  // The second binary search.
  method SearchOverlap(tc: TokenCounter, text: string, start: nat, end: nat) returns (r: Option<nat>)
    requires start <= end <= |text|
    ensures r == OverlapStart(tc, text, end, start, end, end)
  {
    var overlapStart: nat := end;
    var lo, hi := start, end;
    while lo <= hi
      invariant 0 <= lo && hi <= end && overlapStart <= end
      invariant OverlapStart(tc, text, end, lo, hi, overlapStart) == OverlapStart(tc, text, end, start, end, end)
      decreases hi - lo
    {
      var mid := lo + (hi - lo) / 2;
      var n := tc(text[mid..end]);
      if n.None? { return None; }
      if n.value <= EMBED_CHUNK_OVERLAP {
        overlapStart, hi := mid, mid - 1;
      } else {
        lo := mid + 1;
      }
    }
    r := Some(overlapStart);
  }

  method SplitTokenChunks(tc: TokenCounter, text: string, maxTokens: int) returns (r: SplitResult)
    ensures r == Split(tc, text, maxTokens)
  {
    hide FitEnd, OverlapStart, Boundary;
    var count := tc(text);
    if count.None? { return TokenizeError; }
    if count.value <= maxTokens { return Chunks([text]); }
    if BadCapacity(count.value, maxTokens) { return Panicked; }
    ghost var cuts: seq<Cut> := [];
    var chunks: seq<string> := [];
    var start := 0;
    PrependNone(Cuts(tc, text, 0, maxTokens));
    while start < |text|
      invariant start <= |text| && CutsWithin(text, cuts) && chunks == Texts(text, cuts)
      invariant Cuts(tc, text, 0, maxTokens) == Prepend(cuts, Cuts(tc, text, start, maxTokens))
      decreases |text| - start
    {
      var remaining := text[start..];
      var remainingCount := tc(remaining);
      if remainingCount.None? { return TokenizeError; }
      if remainingCount.value <= maxTokens {
        TextsMore(text, cuts, Cut(start, |text|));
        return Chunks(chunks + [remaining]);
      }
      var best := SearchEnd(tc, text, start, maxTokens);
      if best.None? { return TokenizeError; }
      var end := PreferTextBoundary(text, start, best.value);
      var overlap := SearchOverlap(tc, text, start, end);
      if overlap.None? { return TokenizeError; }
      var overlapStart := overlap.value;
      if overlapStart <= start { overlapStart := end; }
      PrependMore(cuts, Cut(start, end), Cuts(tc, text, overlapStart, maxTokens));
      TextsMore(text, cuts, Cut(start, end));
      cuts := cuts + [Cut(start, end)];
      chunks := chunks + [text[start..end]];
      start := overlapStart;
    }
    r := Chunks(chunks);
  }

  lemma PrependNone(tail: Option<seq<Cut>>)
    ensures Prepend([], tail) == tail
  {
    if tail.Some? { assert [] + tail.value == tail.value; }
  }

  lemma TextsMore(text: string, cuts: seq<Cut>, cut: Cut)
    requires CutsWithin(text, cuts) && cut.start < cut.end <= |text|
    ensures CutsWithin(text, cuts + [cut])
    ensures Texts(text, cuts + [cut]) == Texts(text, cuts) + [text[cut.start..cut.end]]
    ensures text[cut.start..|text|] == text[cut.start..]
  {
  }

  lemma PrependMore(head: seq<Cut>, cut: Cut, tail: Option<seq<Cut>>)
    ensures Prepend(head, Prepend([cut], tail)) == Prepend(head + [cut], tail)
  {
    if tail.Some? { assert head + ([cut] + tail.value) == (head + [cut]) + tail.value; }
  }
}
