// The object store behind the block cache: ranged reads served from cached blocks, and
// mutations that invalidate before they reach the backing store
// (docker/lancedb-go-disk-cache.rs, `DiskCacheStore`).
module CacheStore {
  import opened Wrappers
  import opened BlockRanges
  import opened BlockCache
  import OM = ObjectMetadata

  datatype Object = Object(data: seq<byte>, lastModified: int, eTag: Option<seq<byte>>)

  type Objects = map<Location, Object>

  datatype Range = Whole | Bounded(start: nat, end: nat) | Offset(from: nat) | Suffix(length: nat)

  datatype GetResult = GetResult(meta: OM.Meta, start: nat, end: nat, bytes: seq<byte>)

  datatype Outcome = Served(result: GetResult) | Errored | Panicked

  function MetaOf(o: Object): OM.Meta { OM.Meta(|o.data|, o.lastModified, o.eTag) }

  // A ranged read of the backing store, clamped at the object's end (section 14.1.2 of RFC 9110).
  function BackingGet(objects: Objects, location: Location, range: Range): Option<GetResult> {
    if location !in objects then None
    else
      var o := objects[location];
      var n := |o.data|;
      match range
      case Whole => Some(GetResult(MetaOf(o), 0, n, o.data))
      case Bounded(start, end) =>
        if end <= start || start >= n then None
        else Some(GetResult(MetaOf(o), start, Min(end, n), o.data[start..Min(end, n)]))
      case Offset(from) =>
        if from >= n then None else Some(GetResult(MetaOf(o), from, n, o.data[from..]))
      case Suffix(length) =>
        var from := Max(n - length, 0);
        Some(GetResult(MetaOf(o), from, n, o.data[from..]))
  }

  ghost predicate ValidObjects(objects: Objects) {
    forall location :: location in objects ==> |objects[location].data| < OM.TWO_TO_64
  }

  // A cached file says the truth about the object it belongs to.
  ghost predicate CoherentFile(o: Object, p: CachePath, bytes: seq<byte>) {
    match p
    case BlockPath(_, start, end) =>
      start % BLOCK_BYTES == 0 && start < |o.data| && end == Min(start + BLOCK_BYTES, |o.data|)
        && bytes == o.data[start..end]
    case MetaPath(_) => OM.Decode(bytes) == Some(OM.Normalised(MetaOf(o)))
  }

  ghost predicate Coherent(namespace: string, objects: Objects, disk: Disk) {
    forall p :: p in disk && p.owner.namespace == namespace ==>
      p.owner.location in objects && CoherentFile(objects[p.owner.location], p, disk[p].data)
  }

  // The result of a read says what the backing store would have said, up to the parts of
  // the metadata that a cached record keeps.
  ghost predicate Agrees(objects: Objects, location: Location, range: Range, r: GetResult) {
    var backing := BackingGet(objects, location, range);
    && backing.Some?
    && r.start == backing.value.start && r.end == backing.value.end && r.bytes == backing.value.bytes
    && OM.Normalised(r.meta) == OM.Normalised(backing.value.meta)
  }

  // The one family of reads that is not answered like the backing store: a range starting
  // at or past the end of an object whose widened fetch still starts inside it. It is only
  // possible while the object's metadata is not cached.
  ghost predicate PastEnd(promote: nat, location: Location, data: seq<byte>, start: nat, end: nat)
    requires start < end
  {
    && |data| <= start
    && Widen(promote, location, None, start, end, start / BLOCK_BYTES, (end - 1) / BLOCK_BYTES).0 * BLOCK_BYTES < |data|
  }

  ghost predicate EndMissed(promote: nat, objects: Objects, location: Location, start: nat, end: nat)
    requires start < end
  {
    location in objects && PastEnd(promote, location, objects[location].data, start, end)
  }

  // ---------- Missing blocks ----------

  // The blocks, from slot k on, that are empty and start inside the object as far as its
  // size is known.
  function Missing(first: nat, slots: Slots, size: Option<nat>, k: nat): (r: seq<nat>)
    requires k <= |slots|
    ensures forall b :: b in r <==>
      first + k <= b < first + |slots| && slots[b - first].None? && (size.None? || b * BLOCK_BYTES < size.value)
    ensures forall i, j :: 0 <= i < j < |r| ==> r[i] < r[j]
    decreases |slots| - k
  {
    if k == |slots| then []
    else
      var rest := Missing(first, slots, size, k + 1);
      assert forall i :: 0 <= i < |rest| ==> rest[i] in rest;
      if slots[k].None? && (size.None? || (first + k) * BLOCK_BYTES < size.value) then [first + k] + rest else rest
  }

  method Fill(first: nat, slots: Slots, span: Span) returns (filled: Slots)
    requires span.start <= span.end && |span.bytes| == span.end - span.start
    ensures filled == Filled(first, slots, span)
  {
    filled := slots;
    for k := 0 to |slots|
      invariant |filled| == |slots|
      invariant forall j :: 0 <= j < k ==> filled[j] == Filled(first, slots, span)[j]
      invariant forall j :: k <= j < |slots| ==> filled[j] == slots[j]
    {
      var start := (first + k) * BLOCK_BYTES;
      if slots[k].None? && span.start <= start < span.end {
        var end := Min(start + BLOCK_BYTES, span.end);
        filled := filled[k := Some(span.bytes[start - span.start..end - span.start])];
      }
    }
  }

  // ---------- Coherence ----------

  lemma WriteKeepsCoherence(namespace: string, objects: Objects, v: View, p: CachePath, bytes: seq<byte>, maxBytes: nat,
                            outcome: WriteOutcome, victims: seq<CachePath>, v': View)
    requires Coherent(namespace, objects, v.disk) && Written(v, p, bytes, maxBytes, outcome, victims, v')
    requires p.owner.namespace == namespace && p.owner.location in objects
    requires CoherentFile(objects[p.owner.location], p, bytes)
    ensures Coherent(namespace, objects, v'.disk)
  {
    hide CoherentFile, Written;
    WrittenFiles(v, p, bytes, maxBytes, outcome, victims, v');
  }

  lemma InvalidatedIsFree(v: View, maxBytes: nat, owner: ObjectName)
    requires Inv(v) && Tight(v, maxBytes)
    ensures forall p :: p in Drop(v, OwnedPaths(v.entries, owner)).disk ==> p.owner != owner && p in v.disk
    ensures forall p ::
      p in Drop(v, OwnedPaths(v.entries, owner)).disk ==> Drop(v, OwnedPaths(v.entries, owner)).disk[p] == v.disk[p]
  {
    hide SumSizes, Keep;
    forall p | p in v.disk - OwnedPaths(v.entries, owner)
      ensures p.owner != owner
    {
      assert p in v.entries;
    }
  }

  // While objects have no cached file, whatever happens to them keeps the cache coherent.
  lemma FreeIsCoherent(namespace: string, objects: Objects, objects': Objects, disk: Disk, changed: set<Location>)
    requires Coherent(namespace, objects, disk)
    requires forall p :: p in disk && p.owner.namespace == namespace ==> p.owner.location !in changed
    requires forall l ::
      l !in changed ==> (l in objects <==> l in objects') && (l in objects ==> objects'[l] == objects[l])
    ensures Coherent(namespace, objects', disk)
  {
  }

  // ---------- Objects that fit ----------

  // The bytes of an object's metadata record.
  function MetaBytes(o: Object): nat { 16 + if o.eTag.Some? then |o.eTag.value| else 0 }

  // An object's metadata and blocks fit the cap together.
  predicate FitsCap(o: Object, maxBytes: nat) { MetaBytes(o) + |o.data| <= maxBytes }

  // How many blocks an object of this size has.
  function Blocks(size: nat): nat { (size + BLOCK_BYTES - 1) / BLOCK_BYTES }

  // The file of block k of an object of this size.
  function BlockFile(owner: ObjectName, size: nat, k: nat): CachePath {
    BlockPath(owner, k * BLOCK_BYTES, Min((k + 1) * BLOCK_BYTES, size))
  }

  // `p` is a file of the object and `bytes` its length.
  ghost predicate FileSize(o: Object, p: CachePath, bytes: nat) {
    match p
    case BlockPath(_, start, end) =>
      start % BLOCK_BYTES == 0 && start < |o.data| && end == Min(start + BLOCK_BYTES, |o.data|) && bytes == end - start
    case MetaPath(_) => bytes == MetaBytes(o)
  }

  lemma CoherentSize(o: Object, p: CachePath, bytes: seq<byte>)
    requires CoherentFile(o, p, bytes)
    ensures FileSize(o, p, |bytes|)
  {
    hide OM.FromLittleEndian, OM.BitsToSigned;
  }

  // The part of a fetched span that is copied to the file of a block.
  lemma BlockOfSpan(o: Object, owner: ObjectName, fetched: Span, lo: nat, hi: nat, block: nat)
    requires SpanOf(o.data, lo, hi, fetched) && lo <= block <= hi
    ensures block * BLOCK_BYTES < |o.data| <==> block * BLOCK_BYTES < fetched.end
    ensures var start := block * BLOCK_BYTES;
            var end := Min(start + BLOCK_BYTES, fetched.end);
      start < fetched.end ==>
        && fetched.start <= start <= end <= fetched.end && |fetched.bytes| == fetched.end - fetched.start
        && BlockFile(owner, |o.data|, block) == BlockPath(owner, start, end)
        && CoherentFile(o, BlockPath(owner, start, end), fetched.bytes[start - fetched.start..end - fetched.start])
  {
    var start := block * BLOCK_BYTES;
    var end := Min(start + BLOCK_BYTES, fetched.end);
    if start < fetched.end {
      SliceOfSlice(o.data, fetched.start, fetched.end, start - fetched.start, end - fetched.start);
    }
  }

  lemma {:induction false} BlocksSum(o: Object, owner: ObjectName, entries: Entries, bound: nat)
    requires forall p :: p in entries ==>
      p.BlockPath? && p.owner == owner && FileSize(o, p, entries[p].size) && p.start < bound * BLOCK_BYTES
    ensures SumSizes(entries) <= Min(bound * BLOCK_BYTES, |o.data|)
    decreases bound
  {
    if bound == 0 {
      assert forall p :: p !in entries;
      assert entries == map[];
    } else {
      var p := BlockFile(owner, |o.data|, bound - 1);
      var rest := entries - {p};
      forall q | q in rest
        ensures q.start < (bound - 1) * BLOCK_BYTES
      {
        assert q.start != p.start;
      }
      BlocksSum(o, owner, rest, bound - 1);
      if p in entries {
        SumWithout(entries, p);
      } else {
        assert rest == entries;
      }
    }
  }

  // Files of one object together are no larger than the object and its record.
  lemma ObjectSum(o: Object, owner: ObjectName, entries: Entries)
    requires forall p :: p in entries ==> p.owner == owner && FileSize(o, p, entries[p].size)
    ensures SumSizes(entries) <= MetaBytes(o) + |o.data|
  {
    var meta := MetaPath(owner);
    var blocks := entries - {meta};
    forall p | p in blocks
      ensures p.BlockPath? && p.start < Blocks(|o.data|) * BLOCK_BYTES
    {
      assert p != meta;
    }
    BlocksSum(o, owner, blocks, Blocks(|o.data|));
    if meta in entries {
      SumWithout(entries, meta);
    } else {
      assert blocks == entries;
    }
  }

  // So if the object fits, there is room for any of its files beside those just used.
  lemma UsedLeaveRoom(namespace: string, objects: Objects, v: View, since: nat, p: CachePath, bytes: seq<byte>)
    requires Accounted(v) && Coherent(namespace, objects, v.disk) && OnlyUsed(v, since, p.owner)
    requires p.owner.namespace == namespace && p.owner.location in objects
    requires CoherentFile(objects[p.owner.location], p, bytes)
    ensures var o := objects[p.owner.location];
      SumSizes(UsedEntries(v, since) - {p}) + |bytes| <= MetaBytes(o) + |o.data|
  {
    var o := objects[p.owner.location];
    var others := UsedEntries(v, since) - {p};
    var all := others[p := CacheEntry(p.owner, |bytes|, 0)];
    CoherentSize(o, p, bytes);
    forall q | q in others
      ensures q.owner == p.owner && FileSize(o, q, others[q].size)
    {
      assert Used(v, since, q);
      CoherentSize(o, q, v.disk[q].data);
    }
    hide CoherentFile, FileSize, Coherent, Accounted;
    ObjectSum(o, p.owner, all);
    SumInsert(others, p, all[p]);
  }

  // A file of the object that is already there has the length of its new content.
  lemma SameLength(namespace: string, objects: Objects, disk: Disk, p: CachePath, bytes: seq<byte>)
    requires Coherent(namespace, objects, disk) && p in disk && p.owner.namespace == namespace
    requires p.owner.location in objects && CoherentFile(objects[p.owner.location], p, bytes)
    ensures |disk[p].data| == |bytes|
  {
    CoherentSize(objects[p.owner.location], p, bytes);
    CoherentSize(objects[p.owner.location], p, disk[p].data);
  }

  // Writing a file of an object that fits keeps what was used since, and without a fault
  // the file is there.
  lemma PutUsesOnly(namespace: string, objects: Objects, v: View, p: CachePath, bytes: seq<byte>, maxBytes: nat,
                    outcome: WriteOutcome, victims: seq<CachePath>, v': View, since: nat)
    requires Inv(v) && Tight(v, maxBytes) && Coherent(namespace, objects, v.disk)
    requires p.owner.namespace == namespace && p.owner.location in objects
    requires FitsCap(objects[p.owner.location], maxBytes) && CoherentFile(objects[p.owner.location], p, bytes)
    requires Written(v, p, bytes, maxBytes, outcome, victims, v')
    ensures UsesOnly(v, v', since, p.owner, 1)
    ensures OnlyUsed(v, since, p.owner) && !outcome.Failed? && v.clock < U64_MAX ==> Used(v', since, p)
  {
    if p in v.disk { SameLength(namespace, objects, v.disk, p, bytes); }
    assert p in v.disk ==> outcome.AlreadyThere?;
    WriteKeepsClock(v, p, bytes, maxBytes, outcome, victims, v');
    assert Accounted(v);
    hide Inv, Tight, Coherent, CoherentFile, SumSizes;
    if OnlyUsed(v, since, p.owner) {
      UsedLeaveRoom(namespace, objects, v, since, p, bytes);
      WriteKeepsUsed(v, p, bytes, maxBytes, outcome, victims, v', since);
      hide Written;
      assert p !in v.entries || Used(v', since, p) || v.clock == U64_MAX || outcome.Failed?;
    }
  }

  // What the read has of the object's blocks was used since.
  ghost predicate SlotsUsed(v: View, since: nat, owner: ObjectName, size: nat, first: nat, slots: Slots) {
    forall k :: 0 <= k < |slots| && slots[k].Some? ==> Used(v, since, BlockFile(owner, size, first + k))
  }

  // The uses of one read: probing, and twice a fetch of at most all blocks.
  function FetchUses(size: nat): nat { 2 * (2 + Blocks(size)) }
  function ReadUses(size: nat): nat { 1 + Blocks(size) + FetchUses(size) }

  // `calm` is a promise of the environment: no request and no file operation fails during the
  // call. `requests` counts the requests to the backing store.
  class DiskCacheStore {
    var cache: DiskRangeCache
    const namespace: string
    var objects: Objects
    ghost var requests: nat

    ghost predicate Valid()
      reads this`cache, this`objects, cache
    {
      && Inv(cache.V()) && Tight(cache.V(), cache.maxBytes)
      && ValidObjects(objects) && Coherent(namespace, objects, cache.disk)
    }

    constructor (namespace: string, objects: Objects, files: Disk, maxBytes: nat, promoteBytes: nat)
      requires ValidObjects(objects) && Coherent(namespace, objects, files)
      ensures Valid() && fresh(cache) && this.namespace == namespace && this.objects == objects
      ensures cache.disk.Keys <= files.Keys && cache.maxBytes == maxBytes && cache.promoteBytes == promoteBytes
    {
      this.namespace, this.objects, requests := namespace, objects, 0;
      cache := new DiskRangeCache(files, maxBytes, promoteBytes);
    }

    function Name(location: Location): ObjectName { ObjectName(namespace, location) }

    // Whether the object's metadata is cached.
    ghost predicate SizeCached(location: Location)
      reads this`cache, cache
    {
      MetaPath(Name(location)) in cache.disk
    }

    // Whether the metadata and all blocks of start..end inside the object are cached.
    ghost predicate Cached(location: Location, start: nat, end: nat)
      requires start < end
      reads this`cache, this`objects, cache
    {
      && location in objects && SizeCached(location)
      && forall k: nat ::
        start / BLOCK_BYTES <= k <= (end - 1) / BLOCK_BYTES && k * BLOCK_BYTES < |objects[location].data| ==>
           BlockFile(Name(location), |objects[location].data|, k) in cache.disk
    }

    ghost predicate Fits(location: Location)
      reads this`cache, this`objects
    {
      location in objects && FitsCap(objects[location], cache.maxBytes)
    }

    // A read of an object that fits is under way since the clock showed `since`: nothing else
    // was used since, what it has was used, and `room` more uses leave the clock unsaturated.
    ghost predicate Reading(location: Location, since: nat, first: nat, slots: Slots, meta: bool, room: nat)
      reads this`cache, this`objects, cache
    {
      && Fits(location) && OnlyUsed(cache.V(), since, Name(location)) && cache.clock + room <= U64_MAX
      && (meta ==> Used(cache.V(), since, MetaPath(Name(location))))
      && SlotsUsed(cache.V(), since, Name(location), |objects[location].data|, first, slots)
    }

    // A request to the backing store.
    method FetchOriginal(location: Location, range: Range, calm: bool) returns (r: Option<GetResult>)
      modifies this`requests
      ensures requests == old(requests) + 1
      ensures r == BackingGet(objects, location, range) || (r.None? && !calm)
    {
      requests := requests + 1;
      var failed: bool := *;
      r := if failed && !calm then None else BackingGet(objects, location, range);
    }

    method PassThrough(location: Location, range: Range, calm: bool) returns (out: Outcome)
      modifies this`requests
      ensures requests == old(requests) + 1
      ensures out.Served? ==> BackingGet(objects, location, range) == Some(out.result)
      ensures !out.Panicked? && (out.Errored? && calm ==> BackingGet(objects, location, range).None?)
    {
      var r := FetchOriginal(location, range, calm);
      out := if r.Some? then Served(r.value) else Errored;
    }

    method CachedMeta(location: Location, calm: bool, ghost since: nat) returns (meta: Option<OM.Meta>)
      requires Valid()
      modifies cache
      ensures Valid() && cache.disk == old(cache.disk)
      ensures meta.Some? ==> location in objects && meta.value == OM.Normalised(MetaOf(objects[location]))
      ensures meta.Some? ==> SizeCached(location)
      ensures calm && meta.None? ==> !SizeCached(location)
      ensures UsesOnly(old(cache.V()), cache.V(), since, Name(location), 1)
      ensures meta.Some? && old(OnlyUsed(cache.V(), since, Name(location)) && cache.clock < U64_MAX) ==>
        Used(cache.V(), since, MetaPath(Name(location)))
    {
      hide Inv, Tight, OM.Decode, OM.Normalised, UsesOnly, Used, Keep, SumSizes;
      var path := MetaPath(Name(location));
      ReadUsesOnly(cache.V(), path, since);
      var data := cache.ReadEntry(path, None, calm);
      if data.None? { return None; }
      meta := OM.Decode(data.value);
    }

    method CachedBlock(location: Location, start: nat, end: nat, calm: bool, ghost since: nat)
      returns (data: Option<seq<byte>>)
      requires Valid() && start <= end
      modifies cache
      ensures Valid() && cache.disk == old(cache.disk)
      ensures data.Some? ==>
        location in objects && start % BLOCK_BYTES == 0 && start < |objects[location].data| &&
        end == Min(start + BLOCK_BYTES, |objects[location].data|) && data.value == objects[location].data[start..end]
      ensures calm && BlockPath(Name(location), start, end) in cache.disk ==> data.Some?
      ensures UsesOnly(old(cache.V()), cache.V(), since, Name(location), 1)
      ensures data.Some? && old(OnlyUsed(cache.V(), since, Name(location)) && cache.clock < U64_MAX) ==>
        Used(cache.V(), since, BlockPath(Name(location), start, end))
    {
      hide Inv, Tight, UsesOnly, Used, Keep, SumSizes;
      var path := BlockPath(Name(location), start, end);
      ReadUsesOnly(cache.V(), path, since);
      data := cache.ReadEntry(path, Some(end - start), calm);
    }

    method PutMeta(location: Location, calm: bool, ghost since: nat)
      requires Valid() && location in objects
      modifies cache
      ensures Valid()
      ensures Fits(location) ==> UsesOnly(old(cache.V()), cache.V(), since, Name(location), 1)
      ensures calm && Fits(location) && old(OnlyUsed(cache.V(), since, Name(location)) && cache.clock < U64_MAX) ==>
        Used(cache.V(), since, MetaPath(Name(location)))
    {
      hide Inv, Tight, OM.Decode, OM.Encode, OM.Normalised, Written, UsesOnly, Used, OnlyUsed, Coherent;
      var meta := MetaOf(objects[location]);
      OM.MetaRoundTrip(meta);
      var path := MetaPath(Name(location));
      ghost var before := cache.V();
      ghost var outcome, victims := cache.WriteEntry(path, OM.Encode(meta), calm);
      WriteKeepsCoherence(namespace, objects, before, path, OM.Encode(meta), cache.maxBytes, outcome, victims,
                          cache.V());
      if FitsCap(objects[location], cache.maxBytes) {
        PutUsesOnly(namespace, objects, before, path, OM.Encode(meta), cache.maxBytes, outcome, victims, cache.V(),
                    since);
      }
    }

    method PutBlock(location: Location, start: nat, end: nat, bytes: seq<byte>, calm: bool, ghost since: nat)
      requires Valid() && location in objects
      requires CoherentFile(objects[location], BlockPath(Name(location), start, end), bytes)
      modifies cache
      ensures Valid()
      ensures Fits(location) ==> UsesOnly(old(cache.V()), cache.V(), since, Name(location), 1)
      ensures calm && Fits(location) && old(OnlyUsed(cache.V(), since, Name(location)) && cache.clock < U64_MAX) ==>
        Used(cache.V(), since, BlockPath(Name(location), start, end))
    {
      CoherentSize(objects[location], BlockPath(Name(location), start, end), bytes);
      hide Inv, Tight, Written, CoherentFile, UsesOnly, Used, OnlyUsed, Coherent;
      if bytes == [] || |bytes| > cache.maxBytes { return; }
      var path := BlockPath(Name(location), start, end);
      ghost var before := cache.V();
      ghost var outcome, victims := cache.WriteEntry(path, bytes, calm);
      WriteKeepsCoherence(namespace, objects, before, path, bytes, cache.maxBytes, outcome, victims, cache.V());
      if FitsCap(objects[location], cache.maxBytes) {
        PutUsesOnly(namespace, objects, before, path, bytes, cache.maxBytes, outcome, victims, cache.V(), since);
      }
    }

    // One request for the span lo..=hi; what comes back is copied into the cache block by block.
    method FetchSpan(location: Location, lo: nat, hi: nat, calm: bool, ghost since: nat)
      returns (meta: OM.Meta, span: Option<Span>)
      requires Valid() && lo <= hi
      modifies cache, this`requests
      ensures Valid() && requests == old(requests) + 1
      ensures span.Some? ==>
        location in objects && meta == MetaOf(objects[location]) && SpanOf(objects[location].data, lo, hi, span.value)
      ensures span.None? && calm ==> location !in objects || lo * BLOCK_BYTES >= |objects[location].data|
      ensures Fits(location) ==>
        UsesOnly(old(cache.V()), cache.V(), since, Name(location), 2 + Blocks(|objects[location].data|))
      ensures calm && span.Some? && Fits(location) && old(OnlyUsed(cache.V(), since, Name(location)))
              && old(cache.clock) + 2 + Blocks(|objects[location].data|) <= U64_MAX ==>
        && Used(cache.V(), since, MetaPath(Name(location)))
        && forall b :: lo <= b <= hi && b * BLOCK_BYTES < |objects[location].data| ==>
             Used(cache.V(), since, BlockFile(Name(location), |objects[location].data|, b))
    {
      hide Inv, Tight, OM.Normalised, Used, OnlyUsed, Coherent, ValidObjects, Valid, OM.Encode, OM.Decode;
      meta := OM.Meta(0, 0, None);
      var r := FetchOriginal(location, Bounded(lo * BLOCK_BYTES, (hi + 1) * BLOCK_BYTES), calm);
      if r.None? { return meta, None; }
      meta := r.value.meta;
      var known := CachedMeta(location, calm, since);
      if known.None? { PutMeta(location, calm, since); }
      var broken: bool := *;
      if broken && !calm { return meta, None; }
      var fetched := Span(meta.size, r.value.start, r.value.end, r.value.bytes);
      StoreBlocks(location, fetched, lo, hi, calm, since);
      return meta, Some(fetched);
    }

    method StoreBlocks(location: Location, fetched: Span, lo: nat, hi: nat, calm: bool, ghost since: nat)
      requires Valid() && lo <= hi && location in objects && SpanOf(objects[location].data, lo, hi, fetched)
      modifies cache
      ensures Valid()
      ensures Fits(location) ==>
        UsesOnly(old(cache.V()), cache.V(), since, Name(location), Blocks(|objects[location].data|))
      ensures calm && Fits(location) && old(OnlyUsed(cache.V(), since, Name(location)))
              && old(cache.clock) + Blocks(|objects[location].data|) <= U64_MAX ==>
        forall b :: lo <= b <= hi && b * BLOCK_BYTES < |objects[location].data| ==>
          Used(cache.V(), since, BlockFile(Name(location), |objects[location].data|, b))
    {
      hide Inv, Tight, Used, OnlyUsed, Coherent, ValidObjects, Valid, SpanOf, CoherentFile;
      ghost var v0 := cache.V();
      ghost var size := |objects[location].data|;
      ghost var tracked :=
        calm && Fits(location) && OnlyUsed(v0, since, Name(location)) && cache.clock + Blocks(size) <= U64_MAX;
      var block := lo;
      while block <= hi
        invariant Valid() && lo <= block && (block > lo ==> (block - 1) * BLOCK_BYTES < size)
        invariant Fits(location) == old(Fits(location))
        invariant Fits(location) ==> UsesOnly(v0, cache.V(), since, Name(location), block - lo)
        invariant tracked ==>
          forall b :: lo <= b < block ==> Used(cache.V(), since, BlockFile(Name(location), size, b))
      {
        var start := block * BLOCK_BYTES;
        BlockOfSpan(objects[location], Name(location), fetched, lo, hi, block);
        if start >= fetched.end { break; }
        var end := Min(start + BLOCK_BYTES, fetched.end);
        assert BlockPath(Name(location), start, end) == BlockFile(Name(location), size, block);
        PutBlock(location, start, end, fetched.bytes[start - fetched.start..end - fetched.start], calm, since);
        block := block + 1;
      }
    }

    // The blocks first..first + count found in the cache, of an object of known size.
    method ProbeBlocks(location: Location, size: nat, first: nat, count: nat, calm: bool, ghost since: nat,
                       ghost room: nat)
      returns (slots: Slots)
      requires Valid() && location in objects && size == |objects[location].data|
      modifies cache
      ensures Valid() && |slots| == count && SlotsOf(objects[location].data, first, slots)
      ensures cache.disk == old(cache.disk)
      ensures calm ==>
        forall k | 0 <= k < count && (first + k) * BLOCK_BYTES < size
                   && BlockFile(Name(location), size, first + k) in cache.disk :: slots[k].Some?
      ensures old(Reading(location, since, first, [], true, Blocks(size) + room)) ==>
        Reading(location, since, first, slots, true, room)
    {
      hide Inv, Tight, Used, OnlyUsed, Coherent, ValidObjects, Valid;
      slots := seq(count, _ => None);
      ghost var reading := Reading(location, since, first, [], true, Blocks(size) + room);
      for k := 0 to count
        invariant Valid() && |slots| == count && cache.disk == old(cache.disk)
        invariant SlotsOf(objects[location].data, first, slots)
        invariant forall j :: k <= j < count ==> slots[j].None?
        invariant k > 0 ==> (first + k - 1) * BLOCK_BYTES < size
        invariant calm ==>
          forall j :: 0 <= j < k && BlockFile(Name(location), size, first + j) in cache.disk ==> slots[j].Some?
        invariant reading ==> Reading(location, since, first, slots, true, Blocks(size) + room - k)
      {
        var start := (first + k) * BLOCK_BYTES;
        if start >= size { break; }
        var end := Min(start + BLOCK_BYTES, size);
        assert BlockPath(Name(location), start, end) == BlockFile(Name(location), size, first + k);
        var data := CachedBlock(location, start, end, calm, since);
        slots := slots[k := data];
      }
    }

    // A read of start..end through the block cache: aligned blocks from disk, the missing
    // ones from one ranged request. In a calm environment the answer is the backing store's,
    // with one family of exceptions: a range from beyond the end panics, and one from the very
    // end is empty, exactly when the metadata was not cached and the widened request starts
    // inside the object. A range of an object that fits is cached afterwards, and one that is
    // cached is read without a request.
    method GetBlocks(location: Location, start: nat, end: nat, calm: bool) returns (out: Outcome)
      requires Valid() && start < end
      modifies cache, this`requests
      ensures Valid() && cache.promoteBytes == old(cache.promoteBytes)
      ensures out.Served? && BackingGet(objects, location, Bounded(start, end)).Some? ==>
        Agrees(objects, location, Bounded(start, end), out.result)
      ensures out.Panicked? || (out.Served? && BackingGet(objects, location, Bounded(start, end)).None?) ==>
        && EndMissed(cache.promoteBytes, objects, location, start, end)
        && (calm ==> !old(SizeCached(location)))
        && (if start == |objects[location].data| then out.Served? && out.result.bytes == [] else out.Panicked?)
      ensures calm && BackingGet(objects, location, Bounded(start, end)).Some? ==> out.Served?
      ensures calm ==>
        (out.Panicked? <==>
          && EndMissed(cache.promoteBytes, objects, location, start, end) && start > |objects[location].data|
          && !old(SizeCached(location)))
      ensures calm ==>
        (out.Served? && BackingGet(objects, location, Bounded(start, end)).None? <==>
          && EndMissed(cache.promoteBytes, objects, location, start, end) && start == |objects[location].data|
          && !old(SizeCached(location)))
      ensures calm && old(Cached(location, start, end)) && start < |objects[location].data| ==>
        requests == old(requests)
      ensures calm && Fits(location) && start < |objects[location].data|
              && old(cache.clock) + ReadUses(|objects[location].data|) <= U64_MAX ==>
        Cached(location, start, end)
    {
      hide Inv, Tight, OM.Decode, Assemble, SpanOf, Coherent, ValidObjects, Widen, Filled, OnlyUsed, Used, Reading;
      ghost var since := cache.clock;
      NothingUsed(cache.V(), Name(location));
      var meta := CachedMeta(location, calm, since);
      if meta.Some? && start >= meta.value.size {
        out := PassThrough(location, Bounded(start, end), calm);
        return;
      }
      var first, last := start / BLOCK_BYTES, (end - 1) / BLOCK_BYTES;
      var slots: Slots := seq(last - first + 1, _ => None);
      ghost var reading := calm && Fits(location) && start < |objects[location].data|
        && old(cache.clock) + ReadUses(|objects[location].data|) <= U64_MAX;
      if reading {
        if meta.Some? {
          ReadBegins(location, since, first, [], true, Blocks(meta.value.size) + FetchUses(meta.value.size));
        } else {
          ReadBegins(location, since, first, slots, false, FetchUses(|objects[location].data|));
        }
      }
      if meta.Some? {
        slots := ProbeBlocks(location, meta.value.size, first, last - first + 1, calm, since,
                             FetchUses(meta.value.size));
      }
      var done, known;
      done, known, slots := FetchMissing(location, start, end, meta, slots, calm, since);
      if !done { out := Errored; return; }
      NormalisedSize(location, objects, Some(known));
      InBoundsAgrees(objects, location, start, end, known);
      if reading {
        ReadIsCached(location, start, end, since, slots);
      }
      out := Finish(known, slots, start, end, objects[location].data);
    }

    lemma UsedIsCached()
      requires Valid()
      ensures forall since: nat, p :: Used(cache.V(), since, p) ==> p in cache.disk
    {
    }

    lemma ReadBegins(location: Location, since: nat, first: nat, slots: Slots, meta: bool, room: nat)
      requires Fits(location) && OnlyUsed(cache.V(), since, Name(location)) && cache.clock + room <= U64_MAX
      requires meta ==> Used(cache.V(), since, MetaPath(Name(location)))
      requires forall k :: 0 <= k < |slots| ==> slots[k].None?
      ensures Reading(location, since, first, slots, meta, room)
    {
    }

    // What a finished read used is cached.
    lemma ReadIsCached(location: Location, start: nat, end: nat, since: nat, slots: Slots)
      requires Valid() && start < end && Reading(location, since, start / BLOCK_BYTES, slots, true, 0)
      requires |slots| == (end - 1) / BLOCK_BYTES - start / BLOCK_BYTES + 1
      requires forall k ::
        0 <= k < |slots| && (start / BLOCK_BYTES + k) * BLOCK_BYTES < |objects[location].data| ==> slots[k].Some?
      ensures Cached(location, start, end)
    {
      var first, size := start / BLOCK_BYTES, |objects[location].data|;
      UsedIsCached();
      hide Valid, OnlyUsed, Used;
      forall k: nat | first <= k <= (end - 1) / BLOCK_BYTES && k * BLOCK_BYTES < size
        ensures Used(cache.V(), since, BlockFile(Name(location), size, k))
      {
        assert slots[k - first].Some? && first + (k - first) == k;
      }
    }

    // The fetches of `GetBlocks`. With no other reader the in-flight map is empty, so the
    // reader owns the shared fetch and then, if that failed, fetches what is still
    // missing itself. When it is done every block of the range inside the object is there.
    method FetchMissing(location: Location, start: nat, end: nat, cachedMeta: Option<OM.Meta>, cachedSlots: Slots,
                        calm: bool, ghost since: nat)
      returns (done: bool, meta: OM.Meta, slots: Slots)
      requires Valid() && start < end
      requires |cachedSlots| == (end - 1) / BLOCK_BYTES - start / BLOCK_BYTES + 1
      requires cachedMeta.Some? ==> location in objects && start < |objects[location].data|
                                    && cachedMeta.value == OM.Normalised(MetaOf(objects[location]))
      requires location in objects ==> SlotsOf(objects[location].data, start / BLOCK_BYTES, cachedSlots)
      requires cachedMeta.None? ==> forall k :: 0 <= k < |cachedSlots| ==> cachedSlots[k].None?
      modifies cache, this`requests
      ensures Valid() && |slots| == |cachedSlots|
      ensures done ==>
        && location in objects && OM.Normalised(meta) == OM.Normalised(MetaOf(objects[location]))
        && SlotsOf(objects[location].data, start / BLOCK_BYTES, slots)
        && (forall k ::
            0 <= k < |slots| && (start / BLOCK_BYTES + k) * BLOCK_BYTES < |objects[location].data| ==> slots[k].Some?)
        && (start >= |objects[location].data| ==>
              cachedMeta.None? && PastEnd(cache.promoteBytes, location, objects[location].data, start, end))
      ensures calm && !done ==>
        location !in objects ||
        (start >= |objects[location].data|
         && !PastEnd(cache.promoteBytes, location, objects[location].data, start, end))
      ensures cachedMeta.Some? && (forall k ::
          0 <= k < |cachedSlots| && (start / BLOCK_BYTES + k) * BLOCK_BYTES < |objects[location].data| ==>
            cachedSlots[k].Some?) ==>
        requests == old(requests)
      ensures calm && done && old(Reading(location, since, start / BLOCK_BYTES, cachedSlots, cachedMeta.Some?,
                                          FetchUses(|objects[location].data|))) ==>
        Reading(location, since, start / BLOCK_BYTES, slots, true, 0)
    {
      hide Inv, Tight, OM.Normalised, OM.Decode, SlotsOf, SpanOf, Coherent, ValidObjects, Valid, Widen, Reading;
      var held;
      held, slots := cachedMeta, cachedSlots;
      var first := start / BLOCK_BYTES;
      meta := OM.Meta(0, 0, None);
      NormalisedSize(location, objects, cachedMeta);
      var missing := Missing(first, slots, SizeOf(held), 0);
      MissingBounds(first, slots, SizeOf(held));
      ghost var half := if location in objects then FetchUses(|objects[location].data|) / 2 else 0;
      if missing != [] {
        var span := Widen(cache.promoteBytes, location, SizeOf(held), start, end, missing[0], missing[|missing| - 1]);
        done, held, slots := FetchAndFill(location, span.0, span.1, held, first, slots, calm, since, half);
        done, held, slots := FetchStill(location, held, first, slots, calm, since);
        if !done { return; }
      } else {
        LessRoom(location, since, first, slots, held.Some?, half + half, 0);
      }
      done, meta := true, held.value;
    }

    lemma LessRoom(location: Location, since: nat, first: nat, slots: Slots, meta: bool, room: nat, less: nat)
      requires less <= room
      ensures Reading(location, since, first, slots, meta, room) ==> Reading(location, since, first, slots, meta, less)
    {
    }

    // Fetches what the shared fetch left missing, and reports an error of its own.
    method FetchStill(location: Location, held: Option<OM.Meta>, first: nat, slots: Slots, calm: bool, ghost since: nat)
      returns (done: bool, held': Option<OM.Meta>, slots': Slots)
      requires Valid() && slots != []
      requires held.Some? ==>
        location in objects && OM.Normalised(held.value) == OM.Normalised(MetaOf(objects[location]))
      requires location in objects ==> SlotsOf(objects[location].data, first, slots)
      requires held.None? ==> forall k :: 0 <= k < |slots| ==> slots[k].None?
      modifies cache, this`requests
      ensures Valid() && |slots'| == |slots|
      ensures done ==>
        && location in objects && held'.Some? && OM.Normalised(held'.value) == OM.Normalised(MetaOf(objects[location]))
        && SlotsOf(objects[location].data, first, slots')
        && (forall k :: 0 <= k < |slots| && (first + k) * BLOCK_BYTES < |objects[location].data| ==> slots'[k].Some?)
        && (held.None? ==> first * BLOCK_BYTES < |objects[location].data|)
      ensures calm && !done ==>
        location !in objects || (held.None? && first * BLOCK_BYTES >= |objects[location].data|)
      ensures calm && done && old(Reading(location, since, first, slots, held.Some?,
                                          FetchUses(|objects[location].data|) / 2)) ==>
        Reading(location, since, first, slots', true, 0)
    {
      hide Inv, Tight, OM.Normalised, OM.Decode, SlotsOf, SpanOf, Coherent, ValidObjects, Valid, Reading;
      done, held', slots' := true, held, slots;
      NormalisedSize(location, objects, held);
      var still := Missing(first, slots, SizeOf(held), 0);
      MissingBounds(first, slots, SizeOf(held));
      if still != [] {
        done, held', slots' :=
          FetchAndFill(location, still[0], still[|still| - 1], held, first, slots, calm, since, 0);
      } else if location in objects {
        LessRoom(location, since, first, slots, held.Some?, FetchUses(|objects[location].data|) / 2, 0);
      }
    }

    // One fetch of blocks lo..=hi into the empty slots.
    method FetchAndFill(location: Location, lo: nat, hi: nat, meta: Option<OM.Meta>, first: nat, slots: Slots,
                        calm: bool, ghost since: nat, ghost room: nat)
      returns (done: bool, meta': Option<OM.Meta>, slots': Slots)
      requires Valid() && lo <= hi
      requires meta.Some? ==>
        location in objects && OM.Normalised(meta.value) == OM.Normalised(MetaOf(objects[location]))
      requires location in objects ==> SlotsOf(objects[location].data, first, slots)
      modifies cache, this`requests
      ensures Valid() && |slots'| == |slots|
      ensures location in objects ==> SlotsOf(objects[location].data, first, slots')
      ensures !done ==> meta' == meta && slots' == slots
      ensures !done && calm ==> location !in objects || lo * BLOCK_BYTES >= |objects[location].data|
      ensures done ==>
        && location in objects && lo * BLOCK_BYTES < |objects[location].data|
        && meta' == (if meta.Some? then meta else Some(MetaOf(objects[location])))
        && forall k :: 0 <= k < |slots| ==>
             (slots'[k].Some? <==>
              slots[k].Some? || (lo <= first + k <= hi && (first + k) * BLOCK_BYTES < |objects[location].data|))
      ensures location in objects && (calm || !done)
              && old(Reading(location, since, first, slots, meta.Some?,
                             FetchUses(|objects[location].data|) / 2 + room)) ==>
        Reading(location, since, first, slots', meta.Some? || done, room)
    {
      hide Inv, Tight, OM.Normalised, SlotsOf, Coherent, ValidObjects, Valid, Used, OnlyUsed;
      meta', slots' := meta, slots;
      var fetchedMeta, fetched := FetchSpan(location, lo, hi, calm, since);
      done := fetched.Some?;
      if done {
        if meta.None? { meta' := Some(fetchedMeta); }
        FillKeepsBlocks(objects[location].data, lo, hi, fetched.value, first, slots);
        slots' := Fill(first, slots, fetched.value);
      }
    }

    method Finish(meta: OM.Meta, slots: Slots, start: nat, end: nat, ghost data: seq<byte>) returns (out: Outcome)
      requires start < end && meta.size == |data| && SlotsOf(data, start / BLOCK_BYTES, slots)
      requires |slots| == (end - 1) / BLOCK_BYTES - start / BLOCK_BYTES + 1
      requires forall k :: 0 <= k < |slots| && (start / BLOCK_BYTES + k) * BLOCK_BYTES < |data| ==> slots[k].Some?
      ensures start < |data| ==> out == Served(GetResult(meta, start, Min(end, |data|), data[start..Min(end, |data|)]))
      ensures start == |data| ==> out == Served(GetResult(meta, start, start, []))
      ensures start > |data| ==> out == Panicked
    {
      var first := start / BLOCK_BYTES;
      var clamped := Min(end, meta.size);
      if start < |data| {
        AssembleIsExact(data, slots, first, start, end);
      } else {
        AssembleBeyondEnd(data, slots, first, start, end);
      }
      match Assemble(slots, first, start, clamped)
      case Assembled(bytes) => out := Served(GetResult(meta, start, clamped, bytes));
      case Unpopulated(_) => out := Errored;
      case SlicePanic => out := Panicked;
    }

    // Whether a read takes its range from the block cache: a bounded range, or the whole of a
    // small object.
    ghost predicate ByBlocks(location: Location, range: Range, conditional: bool)
      reads this`objects
    {
      && Cacheable(location) && !conditional && location in objects
      && match range
         case Bounded(start, end) => start < end && start < |objects[location].data|
         case Whole => 0 < |objects[location].data| <= WHOLE_OBJECT_MAX_BYTES
         case _ => false
    }

    ghost predicate RangeCached(location: Location, range: Range, conditional: bool)
      reads this`cache, this`objects, cache
    {
      && ByBlocks(location, range, conditional)
      && if range.Whole? then Cached(location, 0, |objects[location].data|)
        else Cached(location, range.start, range.end)
    }

    // `get_opts`: conditional and non-cacheable reads bypass the cache, bounded ranges are
    // read by blocks, and small whole objects are served from or copied into the cache.
    method GetOpts(location: Location, range: Range, conditional: bool, calm: bool) returns (out: Outcome)
      requires Valid()
      modifies cache, this`requests
      ensures Valid()
      ensures out.Served? && BackingGet(objects, location, range).Some? ==> Agrees(objects, location, range, out.result)
      ensures out.Panicked? || (out.Served? && BackingGet(objects, location, range).None?) ==>
        && ReadsPastEnd(cache.promoteBytes, objects, location, range)
        && (if range.start == |objects[location].data| then out.Served? && out.result.bytes == [] else out.Panicked?)
      ensures calm && BackingGet(objects, location, range).Some? ==> out.Served?
      ensures calm ==>
        (out.Panicked? <==>
          && Cacheable(location) && !conditional && ReadsPastEnd(cache.promoteBytes, objects, location, range)
          && range.start > |objects[location].data| && !old(SizeCached(location)))
      ensures calm ==>
        (out.Served? && BackingGet(objects, location, range).None? <==>
          && Cacheable(location) && !conditional && ReadsPastEnd(cache.promoteBytes, objects, location, range)
          && range.start == |objects[location].data| && !old(SizeCached(location)))
      ensures conditional || ("data" !in location && "_indices" !in location && "_deletions" !in location) ==>
        cache.V() == old(cache.V()) && requests == old(requests) + 1
      ensures calm && old(RangeCached(location, range, conditional)) ==> requests == old(requests)
      ensures calm && ByBlocks(location, range, conditional) && Fits(location)
              && old(cache.clock) + 1 + ReadUses(|objects[location].data|) <= U64_MAX ==>
        RangeCached(location, range, conditional)
    {
      hide Inv, Tight, OM.Decode, OM.Normalised, Coherent, ValidObjects, Widen, Valid, OnlyUsed, Used;
      if !Cacheable(location) || conditional {
        out := PassThrough(location, range, calm);
        return;
      }
      if range.Bounded? && range.start < range.end {
        out := GetBlocks(location, range.start, range.end, calm);
        return;
      }
      if !range.Whole? {
        out := PassThrough(location, range, calm);
        return;
      }
      ghost var since := cache.clock;
      CacheReady(location);
      var meta := CachedMeta(location, calm, since);
      NormalisedSize(location, objects, meta);
      if meta.Some? {
        if 0 < meta.value.size <= WHOLE_OBJECT_MAX_BYTES {
          out := GetBlocks(location, 0, meta.value.size, calm);
          if out.Served? { out := Served(out.result.(meta := meta.value)); }
        } else {
          out := PassThrough(location, Whole, calm);
        }
        return;
      }
      out := PassThrough(location, Whole, calm);
      if !out.Served? || out.result.meta.size > WHOLE_OBJECT_MAX_BYTES { return; }
      var broken: bool := *;
      if broken && !calm { out := Errored; return; }
      PutMeta(location, calm, since);
      StoreWhole(location, out.result.bytes, calm, since);
    }

    // When a read begins nothing was used since.
    lemma CacheReady(location: Location)
      requires Valid()
      ensures OnlyUsed(cache.V(), cache.clock, Name(location))
    {
      NothingUsed(cache.V(), Name(location));
    }

    method StoreWhole(location: Location, bytes: seq<byte>, calm: bool, ghost since: nat)
      requires Valid() && location in objects && bytes == objects[location].data
      modifies cache
      ensures Valid()
      ensures calm && bytes != []
              && old(Reading(location, since, 0, [], true, Blocks(|objects[location].data|))) ==>
        Cached(location, 0, |bytes|)
    {
      hide Inv, Tight, Coherent, ValidObjects, Valid, OnlyUsed, Used;
      ghost var reading := calm && Reading(location, since, 0, [], true, Blocks(|bytes|));
      ghost var size := |bytes|;
      var block := 0;
      while block * BLOCK_BYTES < |bytes|
        invariant Valid() && (block > 0 ==> (block - 1) * BLOCK_BYTES < size)
        invariant reading ==> Reading(location, since, 0, [], true, Blocks(size) - block)
        invariant reading ==> forall b :: 0 <= b < block ==> Used(cache.V(), since, BlockFile(Name(location), size, b))
        decreases |bytes| - block * BLOCK_BYTES
      {
        var start := block * BLOCK_BYTES;
        var end := Min(start + BLOCK_BYTES, |bytes|);
        assert BlockPath(Name(location), start, end) == BlockFile(Name(location), size, block);
        PutBlock(location, start, end, bytes[start..end], calm, since);
        block := block + 1;
      }
      UsedIsCached();
    }

    // `get_ranges` of a cacheable object: every range's bytes, or the failure of one.
    method GetCachedRanges(location: Location, ranges: seq<(nat, nat)>, calm: bool)
      returns (parts: seq<seq<byte>>, failure: Option<Outcome>)
      requires Valid()
      modifies cache, this`requests
      ensures Valid()
      ensures failure.None? ==>
        |parts| == |ranges| && forall i :: 0 <= i < |ranges| ==> RangeRead(objects, location, ranges[i], parts[i])
      ensures failure.Some? ==> !failure.value.Served?
      ensures calm && failure.Some? ==>
        exists i :: 0 <= i < |ranges| && (location in objects ==> ranges[i].0 >= |objects[location].data|)
    {
      hide Inv, Tight, OM.Normalised, Coherent, ValidObjects, Valid, Widen;
      parts, failure := [], None;
      for i := 0 to |ranges|
        invariant Valid() && |parts| == i && failure.None?
        invariant forall j :: 0 <= j < i ==> RangeRead(objects, location, ranges[j], parts[j])
      {
        if ranges[i].0 >= ranges[i].1 {
          parts := parts + [[]];
        } else {
          var out := GetBlocks(location, ranges[i].0, ranges[i].1, calm);
          if !out.Served? { return parts, Some(out); }
          parts := parts + [out.result.bytes];
        }
      }
    }

    // Removes the object's cached files.
    method Invalidate(location: Location)
      requires Valid()
      modifies cache
      ensures Valid()
      ensures forall p :: p in cache.disk ==> p in old(cache.disk) && p.owner != ObjectName(namespace, location)
    {
      hide Inv, Tight, CoherentFile, SumSizes, Keep;
      ghost var before := cache.V();
      cache.Invalidate(ObjectName(namespace, location));
      InvalidatedIsFree(before, cache.maxBytes, ObjectName(namespace, location));
    }

    // A mutation invalidates before its request. A request that fails may or may not have
    // taken effect.
    method Mutate(location: Location, value: Option<Object>, calm: bool) returns (ok: bool)
      requires Valid() && (value.Some? ==> |value.value.data| < OM.TWO_TO_64)
      modifies cache, this`objects
      ensures Valid()
      ensures objects == Assign(old(objects), location, value) || (!ok && objects == old(objects))
      ensures calm && (value.Some? || location in old(objects)) ==> ok
      ensures forall p :: p in cache.disk ==> p.owner != ObjectName(namespace, location)
    {
      hide Inv, Tight;
      Invalidate(location);
      var failed: bool, applied: bool := *, *;
      ok := !failed || (calm && (value.Some? || location in objects));
      if ok || applied {
        FreeIsCoherent(namespace, objects, Assign(objects, location, value), cache.disk, {location});
        objects := Assign(objects, location, value);
      }
    }

    method Put(location: Location, value: Object, calm: bool) returns (ok: bool)
      requires Valid() && |value.data| < OM.TWO_TO_64
      modifies cache, this`objects
      ensures Valid()
      ensures MayBecome(old(objects), Assign(old(objects), location, Some(value)), ok, objects) && (calm ==> ok)
    {
      ok := Mutate(location, Some(value), calm);
    }

    method Delete(location: Location, calm: bool) returns (ok: bool)
      requires Valid()
      modifies cache, this`objects
      ensures Valid()
      ensures MayBecome(old(objects), Assign(old(objects), location, None), ok, objects)
      ensures calm && location in old(objects) ==> ok
    {
      ok := Mutate(location, None, calm);
    }

    method Copy(from: Location, to: Location, calm: bool) returns (ok: bool)
      requires Valid()
      modifies cache, this`objects
      ensures Valid()
      ensures if from in old(objects)
              then MayBecome(old(objects), Assign(old(objects), to, Some(old(objects)[from])), ok, objects)
                && (calm ==> ok)
              else !ok && objects == old(objects)
    {
      if from in objects {
        ok := Mutate(to, Some(objects[from]), calm);
      } else {
        Invalidate(to);
        ok := false;
      }
    }

    // A rename is a copy and a delete; one that fails may have stopped between them.
    method Rename(from: Location, to: Location, calm: bool) returns (ok: bool)
      requires Valid()
      modifies cache, this`objects
      ensures Valid()
      ensures calm && from in old(objects) ==> ok
      ensures if from in old(objects)
              then MayBecome(old(objects), Moved(old(objects), from, to), ok, objects)
                   || (!ok && objects == Assign(old(objects), to, Some(old(objects)[from])))
              else !ok && objects == old(objects)
    {
      hide Inv, Tight;
      Invalidate(from);
      Invalidate(to);
      ok := false;
      if from in objects {
        var failed: bool, copied: bool, deleted: bool := *, *, *;
        ok := !failed || calm;
        if ok || (copied && deleted) {
          FreeIsCoherent(namespace, objects, Moved(objects, from, to), cache.disk, {from, to});
          objects := Moved(objects, from, to);
        } else if copied {
          FreeIsCoherent(namespace, objects, Assign(objects, to, Some(objects[from])), cache.disk, {from, to});
          objects := Assign(objects, to, Some(objects[from]));
        }
      }
    }

    // The process stops and starts again on the files left behind, perhaps with another cap.
    method Restart(maxBytes: nat, promoteBytes: nat)
      requires Valid()
      modifies this`cache
      ensures Valid() && fresh(cache) && objects == old(objects)
      ensures cache.maxBytes == maxBytes && cache.promoteBytes == promoteBytes
    {
      hide Inv, Tight, CoherentFile;
      cache := new DiskRangeCache(cache.disk, maxBytes, promoteBytes);
    }

    // A sequential history. Each result is recorded with the backing objects it met.
    method Run(ops: seq<Op>, calm: seq<bool>) returns (results: seq<OpResult>, ghost states: seq<Objects>)
      requires Valid() && forall i :: 0 <= i < |ops| && ops[i].Put? ==> |ops[i].value.data| < OM.TWO_TO_64
      requires |calm| == |ops|
      modifies this, cache
      ensures Valid()
      ensures |results| == |ops| && |states| == |ops| + 1 && states[0] == old(objects) && states[|ops|] == objects
      ensures forall i :: 0 <= i < |ops| ==> LikeBacking(ops[i], states[i], results[i], calm[i], states[i + 1])
    {
      hide Valid, LikeBacking;
      results, states := [], [objects];
      for i := 0 to |ops|
        invariant Valid() && (cache == old(cache) || fresh(cache))
        invariant |results| == i && |states| == i + 1 && states[0] == old(objects) && states[i] == objects
        invariant forall j :: 0 <= j < i ==> LikeBacking(ops[j], states[j], results[j], calm[j], states[j + 1])
      {
        var result := Perform(ops[i], calm[i]);
        results := results + [result];
        states := states + [objects];
      }
    }

    method Perform(op: Op, calm: bool) returns (result: OpResult)
      requires Valid() && (op.Put? ==> |op.value.data| < OM.TWO_TO_64)
      modifies this, cache
      ensures Valid() && (cache == old(cache) || fresh(cache))
      ensures LikeBacking(op, old(objects), result, calm, objects)
      ensures op.Restart? ==> cache.maxBytes == op.maxBytes && cache.promoteBytes == op.promoteBytes
    {
      hide Valid, Agrees, Widen;
      var ok := true;
      match op {
        case Put(location, value) => ok := Put(location, value, calm);
        case Delete(location) => ok := Delete(location, calm);
        case Copy(from, to) => ok := Copy(from, to, calm);
        case Rename(from, to) => ok := Rename(from, to, calm);
        case Restart(maxBytes, promoteBytes) => Restart(maxBytes, promoteBytes);
        case Get(location, range, conditional) =>
          var out := GetOpts(location, range, conditional, calm);
          return Read(out);
      }
      result := Acknowledged(ok);
    }
  }

  datatype Op =
    | Put(location: Location, value: Object)
    | Delete(location: Location)
    | Copy(from: Location, to: Location)
    | Rename(from: Location, to: Location)
    | Restart(maxBytes: nat, promoteBytes: nat)
    | Get(location: Location, range: Range, conditional: bool)

  // A request either took effect or, having failed, may have left everything as it was.
  ghost predicate MayBecome(before: Objects, intended: Objects, ok: bool, after: Objects) {
    after == intended || (!ok && after == before)
  }

  function Moved(objects: Objects, from: Location, to: Location): (moved: Objects)
    requires from in objects
    ensures to in moved && moved[to] == objects[from] && (from in moved <==> from == to)
    ensures forall other | other != from && other != to ::
      (other in moved <==> other in objects) && (other in objects ==> moved[other] == objects[other])
  {
    if from == to then objects else (objects - {from})[to := objects[from]]
  }

  datatype OpResult = Acknowledged(ok: bool) | Read(out: Outcome)

  // What one operation may answer and do, seen from the backing store alone. A read that the
  // backing store would answer is answered alike, and is answered unless something failed.
  // One that it would refuse is refused, but for a range from the end of an object on: from
  // the very end it may be served empty, from beyond it may panic.
  ghost predicate LikeBacking(op: Op, before: Objects, result: OpResult, calm: bool, after: Objects) {
    match op
    case Get(location, range, _) =>
      && after == before && result.Read?
      && (if BackingGet(before, location, range).Some? then
            && !result.out.Panicked? && (calm ==> result.out.Served?)
            && (result.out.Served? ==> Agrees(before, location, range, result.out.result))
          else
            result.out.Errored?
            || (range.Bounded? && range.start < range.end && location in before
                && (if range.start == |before[location].data| then result.out.Served? && result.out.result.bytes == []
                    else range.start > |before[location].data| && result.out.Panicked?)))
    case Restart(_, _) => after == before
    case _ =>
      && result.Acknowledged?
      && match op {
           case Put(location, value) =>
             && MayBecome(before, Assign(before, location, Some(value)), result.ok, after)
             && (calm ==> result.ok)
           case Delete(location) =>
             && MayBecome(before, Assign(before, location, None), result.ok, after)
             && (calm && location in before ==> result.ok)
           case Copy(from, to) =>
             if from in before then
               && MayBecome(before, Assign(before, to, Some(before[from])), result.ok, after)
               && (calm ==> result.ok)
             else !result.ok && after == before
           case Rename(from, to) =>
             if from in before then
               && (MayBecome(before, Moved(before, from, to), result.ok, after)
                   || (!result.ok && after == Assign(before, to, Some(before[from]))))
               && (calm ==> result.ok)
             else !result.ok && after == before
           case _ => true
         }
  }

  // The bytes of one range, empty when the range is.
  ghost predicate RangeRead(objects: Objects, location: Location, range: (nat, nat), bytes: seq<byte>) {
    if range.0 >= range.1 then bytes == []
    else
      && location in objects && range.0 <= |objects[location].data|
      && bytes == objects[location].data[range.0..Max(range.0, Min(range.1, |objects[location].data|))]
  }

  function Assign(objects: Objects, location: Location, value: Option<Object>): Objects {
    if value.Some? then objects[location := value.value] else objects - {location}
  }

  ghost predicate ReadsPastEnd(promote: nat, objects: Objects, location: Location, range: Range) {
    && range.Bounded? && range.start < range.end && location in objects
    && PastEnd(promote, location, objects[location].data, range.start, range.end)
  }

  function SizeOf(meta: Option<OM.Meta>): Option<nat> {
    if meta.Some? then Some(meta.value.size) else None
  }

  lemma NormalisedSize(location: Location, objects: Objects, meta: Option<OM.Meta>)
    ensures
      (meta.Some? && location in objects && OM.Normalised(meta.value) == OM.Normalised(MetaOf(objects[location]))) ==>
        meta.value.size == |objects[location].data|
    ensures location in objects ==>
      OM.Normalised(OM.Normalised(MetaOf(objects[location]))) == OM.Normalised(MetaOf(objects[location]))
  {
  }

  lemma InBoundsAgrees(objects: Objects, location: Location, start: nat, end: nat, meta: OM.Meta)
    requires location in objects && OM.Normalised(meta) == OM.Normalised(MetaOf(objects[location]))
    ensures var data := objects[location].data;
            start < |data| && start < end ==>
              Agrees(objects, location, Bounded(start, end),
                     GetResult(meta, start, Min(end, |data|), data[start..Min(end, |data|)]))
  {
  }

  // The first and last missing block enclose every missing one; with nothing known the
  // whole range is missing.
  lemma MissingBounds(first: nat, slots: Slots, size: Option<nat>)
    ensures var missing := Missing(first, slots, size, 0);
      && (missing != [] ==> missing[0] in missing && missing[0] <= missing[|missing| - 1])
      && (forall k :: 0 <= k < |slots| && slots[k].None? && (size.None? || (first + k) * BLOCK_BYTES < size.value) ==>
            missing != [] && missing[0] <= first + k <= missing[|missing| - 1])
      && (size.None? && |slots| > 0 && (forall k :: 0 <= k < |slots| ==> slots[k].None?) ==>
            missing != [] && missing[0] == first && missing[|missing| - 1] == first + |slots| - 1)
  {
    var missing := Missing(first, slots, size, 0);
    forall k | 0 <= k < |slots| && slots[k].None? && (size.None? || (first + k) * BLOCK_BYTES < size.value)
      ensures missing != [] && missing[0] <= first + k <= missing[|missing| - 1]
    {
      assert first + k in missing;
    }
    if missing != [] {
      assert missing[0] in missing && missing[|missing| - 1] in missing;
      if size.None? && forall k :: 0 <= k < |slots| ==> slots[k].None? {
        assert first in missing && first + (|slots| - 1) in missing;
      }
    }
  }

  // The exception is real: bytes 2..3 of a one-byte object, read through an empty cache.
  // The backing store refuses them; unless something fails, the cache panics.
  method PastEndPanics() returns (out: Outcome)
    ensures BackingGet(map[PAST_END_OBJECT := Object([7], 0, None)], PAST_END_OBJECT, Bounded(2, 3)).None?
    ensures out.Panicked?
  {
    var objects: Objects := map[PAST_END_OBJECT := Object([7], 0, None)];
    var store := new DiskCacheStore("namespace", objects, map[], 1024, 0);
    assert PAST_END_OBJECT[1] == "data" && Cacheable(PAST_END_OBJECT);
    assert !store.SizeCached(PAST_END_OBJECT);
    assert PastEnd(0, PAST_END_OBJECT, objects[PAST_END_OBJECT].data, 2, 3);
    out := store.GetOpts(PAST_END_OBJECT, Bounded(2, 3), false, true);
    assert store.objects == objects;
  }

  const PAST_END_OBJECT: Location := ["db", "data", "a.lance"]
}
