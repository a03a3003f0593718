// The bounded, persistent cache directory with least-recently-used eviction
// (docker/lancedb-go-disk-cache.rs, `DiskRangeCache`).
module BlockCache {
  import opened Wrappers
  import opened BlockRanges

  const U64_MAX: nat := 0xFFFF_FFFF_FFFF_FFFF

  // An object of one store; its SHA-256 is taken to be injective, so the name stands for it.
  datatype ObjectName = ObjectName(namespace: string, location: Location)

  // A published file of the cache directory.
  datatype CachePath =
    | BlockPath(owner: ObjectName, start: nat, end: nat)
    | MetaPath(owner: ObjectName)

  datatype CacheEntry = CacheEntry(owner: ObjectName, size: nat, access: nat)

  // `mtime` is in nanoseconds since the epoch.
  datatype DiskFile = DiskFile(data: seq<byte>, mtime: int)

  type Entries = map<CachePath, CacheEntry>
  type Disk = map<CachePath, DiskFile>

  // The whole state of the cache. `recency` lists the entries from least to most recently
  // used, and `boot` is the clock after the last start: the order of entries whose access
  // times tie is only known for those touched since.
  datatype View = View(total: int, clock: nat, entries: Entries, disk: Disk, boot: nat, recency: seq<CachePath>)

  function SaturatingInc(clock: nat): nat { Min(clock + 1, U64_MAX) }

  // ---------- Sums and sequences ----------

  ghost function SumSizes(entries: Entries): nat {
    if entries == map[] then 0
    else var p :| p in entries; entries[p].size + SumSizes(entries - {p})
  }

  lemma {:induction false} SumWithout(entries: Entries, p: CachePath)
    requires p in entries
    ensures SumSizes(entries) == entries[p].size + SumSizes(entries - {p})
    decreases |entries|
  {
    var q :| q in entries && SumSizes(entries) == entries[q].size + SumSizes(entries - {q});
    if p != q {
      SumWithout(entries - {q}, p);
      SumWithout(entries - {p}, q);
      assert entries - {q} - {p} == entries - {p} - {q};
    }
  }

  lemma SumInsert(entries: Entries, p: CachePath, e: CacheEntry)
    ensures SumSizes(entries[p := e]) ==
            SumSizes(entries) + e.size - (if p in entries then entries[p].size else 0)
  {
    var entries' := entries[p := e];
    SumWithout(entries', p);
    if p in entries {
      SumWithout(entries, p);
      assert entries' - {p} == entries - {p};
    } else {
      assert entries' - {p} == entries;
    }
  }

  // `s` without the paths of `drop`, in the same order.
  function Keep(s: seq<CachePath>, drop: set<CachePath>): (r: seq<CachePath>)
    ensures forall p :: p in r <==> p in s && p !in drop
    ensures |r| <= |s|
  {
    if s == [] then []
    else if s[0] in drop then Keep(s[1..], drop)
    else [s[0]] + Keep(s[1..], drop)
  }

  lemma {:induction false} KeepTwice(s: seq<CachePath>, a: set<CachePath>, b: set<CachePath>)
    ensures Keep(Keep(s, a), b) == Keep(s, a + b)
  {
    if s != [] {
      KeepTwice(s[1..], a, b);
      if s[0] !in a {
        assert ([s[0]] + Keep(s[1..], a))[1..] == Keep(s[1..], a);
      }
    }
  }

  lemma {:induction false} KeepAll(s: seq<CachePath>, drop: set<CachePath>)
    requires forall p :: p in s ==> p !in drop
    ensures Keep(s, drop) == s
  {
    if s != [] { KeepAll(s[1..], drop); }
  }

  ghost predicate NoDuplicates(s: seq<CachePath>) {
    forall i, j :: 0 <= i < j < |s| ==> s[i] != s[j]
  }

  // p was used before q, or their access times tie in a way the clock cannot tell apart.
  ghost predicate Older(entries: Entries, boot: nat, p: CachePath, q: CachePath) {
    && p in entries && q in entries
    && (entries[p].access < entries[q].access
        || (entries[p].access == entries[q].access && (entries[q].access <= boot || entries[q].access == U64_MAX)))
  }

  ghost predicate Ordered(entries: Entries, boot: nat, s: seq<CachePath>) {
    forall i, j :: 0 <= i < j < |s| ==> Older(entries, boot, s[i], s[j])
  }

  lemma {:induction false} KeepOrdered(entries: Entries, boot: nat, s: seq<CachePath>, drop: set<CachePath>)
    requires Ordered(entries, boot, s) && NoDuplicates(s)
    ensures Ordered(entries, boot, Keep(s, drop)) && NoDuplicates(Keep(s, drop))
  {
    if s != [] {
      KeepOrdered(entries, boot, s[1..], drop);
      var rest := Keep(s[1..], drop);
      forall p | p in rest
        ensures p != s[0] && Older(entries, boot, s[0], p)
      {
        var i :| 0 <= i < |s[1..]| && s[1..][i] == p;
        assert s[i + 1] == p;
      }
    }
  }

  lemma SameOrder(entries: Entries, entries': Entries, boot: nat, s: seq<CachePath>)
    requires Ordered(entries, boot, s)
    requires forall p :: p in s ==> p in entries && p in entries' && entries'[p] == entries[p]
    ensures Ordered(entries', boot, s)
  {
    forall i, j | 0 <= i < j < |s|
      ensures Older(entries', boot, s[i], s[j])
    {
      assert s[i] in s && s[j] in s && Older(entries, boot, s[i], s[j]);
    }
  }

  // ---------- The invariant ----------

  // Entries describe their files, and the total is the sum of their sizes.
  ghost predicate Accounted(v: View) {
    && v.entries.Keys <= v.disk.Keys
    && (forall p :: p in v.entries ==>
          && v.entries[p].owner == p.owner
          && v.entries[p].size == |v.disk[p].data|
          && v.entries[p].access <= v.clock)
    && v.total == SumSizes(v.entries)
    && v.boot <= v.clock <= U64_MAX
  }

  // The recency list holds each entry once, in order of use.
  ghost predicate Listed(v: View) {
    && NoDuplicates(v.recency)
    && (forall p :: p in v.recency <==> p in v.entries)
    && Ordered(v.entries, v.boot, v.recency)
  }

  ghost predicate Inv(v: View) { Accounted(v) && Listed(v) }

  // Every file is accounted for and the files fit the cap.
  ghost predicate Tight(v: View, maxBytes: nat) {
    v.disk.Keys == v.entries.Keys && v.total <= maxBytes
  }

  ghost predicate Before(entries: Entries, p: CachePath, q: CachePath) {
    p in entries && q in entries && entries[p].access < entries[q].access
  }

  ghost predicate StrictlyOrdered(entries: Entries, s: seq<CachePath>) {
    forall i, j :: 0 <= i < j < |s| ==> Before(entries, s[i], s[j])
  }

  // Access times grow strictly along the recency list.
  ghost predicate Strict(v: View) { StrictlyOrdered(v.entries, v.recency) }

  // ---------- The steps ----------

  // A file was read: it becomes the most recently used entry; an unaccounted file is adopted.
  ghost function Touch(v: View, p: CachePath): View
    requires p in v.disk
  {
    var now := SaturatingInc(v.clock);
    var size := |v.disk[p].data|;
    v.(clock := now,
       total := if p in v.entries then v.total else v.total + size,
       entries :=
         v.entries[p := if p in v.entries then v.entries[p].(access := now) else CacheEntry(p.owner, size, now)],
       recency := Keep(v.recency, {p}) + [p])
  }

  // An entry and its file are removed.
  ghost function Forget(v: View, p: CachePath): View {
    v.(total := if p in v.entries then v.total - v.entries[p].size else v.total,
       entries := v.entries - {p}, disk := v.disk - {p}, recency := Keep(v.recency, {p}))
  }

  // A new file is published as the most recently used entry.
  ghost function Admit(v: View, p: CachePath, bytes: seq<byte>, mtime: int): View {
    var now := SaturatingInc(v.clock);
    v.(clock := now, total := v.total + |bytes|,
       entries := v.entries[p := CacheEntry(p.owner, |bytes|, now)],
       disk := v.disk[p := DiskFile(bytes, mtime)],
       recency := Keep(v.recency, {p}) + [p])
  }

  lemma AppendNewest(v: View, entries': Entries, p: CachePath)
    requires Inv(v) && p in entries' && entries'[p].access == SaturatingInc(v.clock)
    requires forall q :: q in v.entries && q != p ==> q in entries' && entries'[q] == v.entries[q]
    ensures Ordered(entries', v.boot, Keep(v.recency, {p}) + [p]) && NoDuplicates(Keep(v.recency, {p}) + [p])
  {
    KeepOrdered(v.entries, v.boot, v.recency, {p});
    var kept := Keep(v.recency, {p});
    var s := kept + [p];
    forall i, j | 0 <= i < j < |s|
      ensures Older(entries', v.boot, s[i], s[j]) && s[i] != s[j]
    {
      assert s[i] == kept[i] && kept[i] in kept;
      if j < |kept| {
        assert s[j] == kept[j] && kept[j] in kept;
        assert Older(v.entries, v.boot, kept[i], kept[j]);
      }
    }
  }

  lemma UseListed(v: View, v': View, p: CachePath)
    requires Inv(v) && p in v'.entries && v'.entries[p].access == SaturatingInc(v.clock) && v'.boot == v.boot
    requires v'.entries.Keys == v.entries.Keys + {p}
    requires forall q :: q in v.entries && q != p ==> v'.entries[q] == v.entries[q]
    requires v'.recency == Keep(v.recency, {p}) + [p]
    ensures Listed(v')
  {
    AppendNewest(v, v'.entries, p);
    assert v'.recency[|v'.recency| - 1] == p;
  }

  lemma TouchInv(v: View, p: CachePath, maxBytes: nat)
    requires Inv(v) && p in v.disk
    ensures Inv(Touch(v, p))
    ensures Tight(v, maxBytes) ==> Tight(Touch(v, p), maxBytes)
  {
    hide Listed, SumSizes, Accounted;
    UseListed(v, Touch(v, p), p);
    TouchAccounted(v, p);
  }

  lemma TouchAccounted(v: View, p: CachePath)
    requires Accounted(v) && p in v.disk
    ensures Accounted(Touch(v, p))
  {
    SumInsert(v.entries, p, Touch(v, p).entries[p]);
    hide SumSizes, Keep;
  }

  lemma ForgetListed(v: View, p: CachePath)
    requires Listed(v)
    ensures Listed(Forget(v, p))
  {
    var v' := Forget(v, p);
    KeepOrdered(v.entries, v.boot, v.recency, {p});
    SameOrder(v.entries, v'.entries, v.boot, v'.recency);
  }

  lemma ForgetInv(v: View, p: CachePath, maxBytes: nat)
    requires Inv(v)
    ensures Inv(Forget(v, p))
    ensures Tight(v, maxBytes) ==> Tight(Forget(v, p), maxBytes)
  {
    ForgetListed(v, p);
    if p in v.entries {
      SumWithout(v.entries, p);
    } else {
      assert v.entries - {p} == v.entries;
    }
  }

  lemma AdmitInv(v: View, p: CachePath, bytes: seq<byte>, mtime: int, maxBytes: nat)
    requires Inv(v) && p !in v.entries
    ensures Inv(Admit(v, p, bytes, mtime))
    ensures Tight(v, maxBytes) && v.total + |bytes| <= maxBytes ==> Tight(Admit(v, p, bytes, mtime), maxBytes)
  {
    hide Listed, SumSizes, Accounted;
    UseListed(v, Admit(v, p, bytes, mtime), p);
    AdmitAccounted(v, p, bytes, mtime);
  }

  lemma AdmitAccounted(v: View, p: CachePath, bytes: seq<byte>, mtime: int)
    requires Accounted(v) && p !in v.entries
    ensures Accounted(Admit(v, p, bytes, mtime))
  {
    SumInsert(v.entries, p, Admit(v, p, bytes, mtime).entries[p]);
    hide SumSizes, Keep;
  }

  // ---------- Eviction ----------

  ghost predicate Oldest(v: View, p: CachePath) {
    p in v.entries && forall q :: q in v.entries ==> v.entries[p].access <= v.entries[q].access
  }

  // The state after evicting `victims`, first to last.
  ghost function ForgetAll(v: View, victims: seq<CachePath>): View {
    if victims == [] then v
    else Forget(ForgetAll(v, victims[..|victims| - 1]), victims[|victims| - 1])
  }

  // Each victim was a least recently used entry when it was evicted, and without its
  // eviction `need` more bytes would not have fitted.
  ghost predicate Evicted(v: View, victims: seq<CachePath>, need: nat, maxBytes: nat) {
    victims == [] ||
    var earlier := victims[..|victims| - 1];
    && Evicted(v, earlier, need, maxBytes)
    && Oldest(ForgetAll(v, earlier), victims[|victims| - 1])
    && ForgetAll(v, earlier).total + need > maxBytes
  }

  lemma EvictOneMore(v: View, victims: seq<CachePath>, p: CachePath, need: nat, maxBytes: nat)
    requires Evicted(v, victims, need, maxBytes)
    requires Oldest(ForgetAll(v, victims), p) && ForgetAll(v, victims).total + need > maxBytes
    ensures Evicted(v, victims + [p], need, maxBytes)
    ensures ForgetAll(v, victims + [p]) == Forget(ForgetAll(v, victims), p)
  {
    assert (victims + [p])[..|victims|] == victims;
  }

  // Under strict access times the map-and-clock cache is an ordered list: evictions take
  // the front of the recency list, in order, and leave its tail.
  lemma {:induction false} EvictsTheFront(v: View, victims: seq<CachePath>, need: nat, maxBytes: nat)
    requires Inv(v) && Strict(v) && Evicted(v, victims, need, maxBytes)
    ensures |victims| <= |v.recency| && victims == v.recency[..|victims|]
    ensures ForgetAll(v, victims).recency == v.recency[|victims|..]
    ensures Inv(ForgetAll(v, victims)) && Strict(ForgetAll(v, victims))
    decreases |victims|
  {
    if victims != [] {
      var n := |victims| - 1;
      var earlier := victims[..n];
      EvictsTheFront(v, earlier, need, maxBytes);
      var before := ForgetAll(v, earlier);
      EvictFirst(before, victims[n], maxBytes);
      SplitLast(victims);
      PrefixGrows(v.recency, n);
    }
  }

  lemma EvictFirst(v: View, p: CachePath, maxBytes: nat)
    requires Inv(v) && Strict(v) && Oldest(v, p)
    ensures v.recency != [] && v.recency[0] == p && Forget(v, p).recency == v.recency[1..]
    ensures Inv(Forget(v, p)) && Strict(Forget(v, p))
  {
    OldestIsFirst(v, p);
    KeepTail(v.recency, p);
    ForgetInv(v, p, maxBytes);
    StrictTail(v, p);
  }

  lemma OldestIsFirst(v: View, p: CachePath)
    requires Inv(v) && Strict(v) && Oldest(v, p)
    ensures v.recency != [] && v.recency[0] == p
  {
    assert p in v.recency;
    var i :| 0 <= i < |v.recency| && v.recency[i] == p;
    assert i > 0 ==> Before(v.entries, v.recency[0], p);
  }

  lemma KeepTail(s: seq<CachePath>, p: CachePath)
    requires s != [] && s[0] == p && NoDuplicates(s)
    ensures Keep(s, {p}) == s[1..]
  {
    forall q | q in s[1..] ensures q != p {
      var i :| 0 <= i < |s[1..]| && s[1..][i] == q;
      assert s[i + 1] == q;
    }
    KeepAll(s[1..], {p});
  }

  lemma StrictTail(v: View, p: CachePath)
    requires Inv(v) && Strict(v) && v.recency != [] && v.recency[0] == p
    ensures Strict(Forget(v, p))
  {
    var v' := Forget(v, p);
    KeepTail(v.recency, p);
    forall i, j | 0 <= i < j < |v'.recency|
      ensures Before(v'.entries, v'.recency[i], v'.recency[j])
    {
      assert v'.recency[i] == v.recency[i + 1] && v'.recency[j] == v.recency[j + 1];
      assert Before(v.entries, v.recency[i + 1], v.recency[j + 1]);
      assert v.recency[i + 1] != v.recency[0] && v.recency[j + 1] != v.recency[0];
    }
  }

  // A use keeps access times strict for as long as the clock has not saturated.
  lemma TouchStrict(v: View, p: CachePath)
    requires Inv(v) && Strict(v) && p in v.disk && v.clock < U64_MAX
    ensures Strict(Touch(v, p))
  {
    AppendStrict(v, Touch(v, p).entries, p);
  }

  lemma AdmitStrict(v: View, p: CachePath, bytes: seq<byte>, mtime: int)
    requires Inv(v) && Strict(v) && p !in v.entries && v.clock < U64_MAX
    ensures Strict(Admit(v, p, bytes, mtime))
  {
    AppendStrict(v, Admit(v, p, bytes, mtime).entries, p);
  }

  lemma AppendStrict(v: View, entries': Entries, p: CachePath)
    requires Inv(v) && Strict(v) && v.clock < U64_MAX
    requires p in entries' && entries'[p].access == SaturatingInc(v.clock)
    requires forall q :: q in v.entries && q != p ==> q in entries' && entries'[q] == v.entries[q]
    ensures StrictlyOrdered(entries', Keep(v.recency, {p}) + [p])
  {
    KeepStrict(v.entries, v.recency, {p});
    var kept := Keep(v.recency, {p});
    var s := kept + [p];
    forall i, j | 0 <= i < j < |s|
      ensures Before(entries', s[i], s[j])
    {
      assert s[i] == kept[i] && kept[i] in kept;
      if j < |kept| {
        assert s[j] == kept[j] && kept[j] in kept;
        assert Before(v.entries, kept[i], kept[j]);
      }
    }
  }

  lemma {:induction false} KeepStrict(entries: Entries, s: seq<CachePath>, drop: set<CachePath>)
    requires StrictlyOrdered(entries, s)
    ensures StrictlyOrdered(entries, Keep(s, drop))
  {
    if s != [] {
      KeepStrict(entries, s[1..], drop);
      forall p | p in Keep(s[1..], drop)
        ensures Before(entries, s[0], p)
      {
        var i :| 0 <= i < |s[1..]| && s[1..][i] == p;
        assert s[i + 1] == p;
      }
    }
  }

  // ---------- Writing a file ----------

  datatype WriteOutcome = AlreadyThere | NoRoom | Failed | Stored(mtime: int)

  predicate Mismatched(file: DiskFile, expectedLen: Option<nat>) {
    expectedLen.Some? && |file.data| != expectedLen.value
  }

  // The state `v'` that writing `bytes` to `p` leaves, having evicted `victims` on the way.
  ghost predicate Written(v: View, p: CachePath, bytes: seq<byte>, maxBytes: nat,
                          outcome: WriteOutcome, victims: seq<CachePath>, v': View)
  {
    if outcome.AlreadyThere? then
      && p in v.disk && |v.disk[p].data| == |bytes|
      && v' == if p in v.entries then Touch(v, p) else v.(clock := SaturatingInc(v.clock))
    else
      var cleared := if p in v.disk then Forget(v, p) else v;
      var roomy := ForgetAll(cleared, victims);
      && (p in v.disk ==> |v.disk[p].data| != |bytes|)
      && Evicted(cleared, victims, |bytes|, maxBytes)
      && match outcome {
           case NoRoom => roomy.entries == map[] && |bytes| > maxBytes && v' == roomy
           case Failed => roomy.total + |bytes| <= maxBytes && v' == roomy
           case Stored(mtime) => roomy.total + |bytes| <= maxBytes && v' == Admit(roomy, p, bytes, mtime)
         }
  }

  lemma {:induction false} ForgetAllShrinks(v: View, victims: seq<CachePath>)
    ensures forall q :: q in ForgetAll(v, victims).disk ==> q in v.disk && ForgetAll(v, victims).disk[q] == v.disk[q]
    ensures forall q :: q in ForgetAll(v, victims).entries ==> q in v.entries
  {
    if victims != [] { ForgetAllShrinks(v, victims[..|victims| - 1]); }
  }

  // Besides the written file, a write only removes files.
  lemma WrittenFiles(v: View, p: CachePath, bytes: seq<byte>, maxBytes: nat,
                     outcome: WriteOutcome, victims: seq<CachePath>, v': View)
    requires Written(v, p, bytes, maxBytes, outcome, victims, v')
    ensures forall q :: q in v'.disk ==>
      (q in v.disk && v'.disk[q] == v.disk[q]) || (q == p && v'.disk[q].data == bytes)
  {
    if !outcome.AlreadyThere? {
      ForgetAllShrinks(if p in v.disk then Forget(v, p) else v, victims);
    }
  }

  lemma AlreadyWritten(v: View, p: CachePath, bytes: seq<byte>, maxBytes: nat)
    requires Inv(v) && p in v.disk && |v.disk[p].data| == |bytes|
    ensures var v' := if p in v.entries then Touch(v, p) else v.(clock := SaturatingInc(v.clock));
            && Inv(v') && (Tight(v, maxBytes) ==> Tight(v', maxBytes))
            && Written(v, p, bytes, maxBytes, AlreadyThere, [], v')
  {
    if p in v.entries {
      TouchInv(v, p, maxBytes);
    } else {
      var v' := v.(clock := SaturatingInc(v.clock));
      assert Accounted(v');
      SameOrder(v.entries, v'.entries, v.boot, v.recency);
    }
  }

  lemma NewlyWritten(v: View, p: CachePath, bytes: seq<byte>, maxBytes: nat, outcome: WriteOutcome,
                     victims: seq<CachePath>, cleared: View, roomy: View)
    requires Inv(roomy) && p !in roomy.entries && (Tight(v, maxBytes) ==> Tight(roomy, maxBytes))
    requires p in v.disk ==> |v.disk[p].data| != |bytes|
    requires cleared == (if p in v.disk then Forget(v, p) else v)
    requires Evicted(cleared, victims, |bytes|, maxBytes) && roomy == ForgetAll(cleared, victims)
    requires match outcome {
               case AlreadyThere => false
               case NoRoom => roomy.entries == map[] && |bytes| > maxBytes
               case _ => roomy.total + |bytes| <= maxBytes
             }
    ensures var v' := if outcome.Stored? then Admit(roomy, p, bytes, outcome.mtime) else roomy;
            && Inv(v') && (Tight(v, maxBytes) ==> Tight(v', maxBytes))
            && Written(v, p, bytes, maxBytes, outcome, victims, v')
  {
    hide Inv, Tight;
    if outcome.Stored? {
      AdmitInv(roomy, p, bytes, outcome.mtime, maxBytes);
    }
  }

  // ---------- What was used lately stays ----------

  // The file was used after the clock showed `since`.
  ghost predicate Used(v: View, since: nat, p: CachePath) { p in v.entries && v.entries[p].access > since }

  ghost function UsedEntries(v: View, since: nat): Entries {
    map p | p in v.entries && v.entries[p].access > since :: v.entries[p]
  }

  lemma {:induction false} SumSubset(a: Entries, b: Entries)
    requires forall p :: p in a ==> p in b && b[p].size == a[p].size
    ensures SumSizes(a) <= SumSizes(b)
    decreases |a|
  {
    if a != map[] {
      var p :| p in a;
      SumWithout(a, p);
      SumWithout(b, p);
      SumSubset(a - {p}, b - {p});
    }
  }

  // Eviction spares the files used since, when they and the new bytes fit together.
  lemma {:induction false} UsedAreSpared(v: View, victims: seq<CachePath>, need: nat, maxBytes: nat, since: nat)
    requires Inv(v) && Evicted(v, victims, need, maxBytes)
    requires SumSizes(UsedEntries(v, since)) + need <= maxBytes
    ensures forall p :: Used(v, since, p) ==> Used(ForgetAll(v, victims), since, p)
  {
    if victims != [] {
      var n := |victims| - 1;
      UsedAreSpared(v, victims[..n], need, maxBytes, since);
      EvictedAreOlder(v, victims[..n], need, maxBytes);
      VictimIsUnused(v, ForgetAll(v, victims[..n]), victims[n], need, maxBytes, since);
    }
  }

  lemma VictimIsUnused(v: View, before: View, victim: CachePath, need: nat, maxBytes: nat, since: nat)
    requires Inv(before) && Oldest(before, victim) && before.total + need > maxBytes
    requires forall p :: p in before.entries ==> p in v.entries && before.entries[p] == v.entries[p]
    requires SumSizes(UsedEntries(v, since)) + need <= maxBytes
    ensures !Used(before, since, victim)
  {
    if Used(before, since, victim) { SumSubset(before.entries, UsedEntries(v, since)); }
  }

  // A read keeps what was used since, and its file joins it while the clock has not saturated.
  lemma TouchKeepsUsed(v: View, p: CachePath, since: nat)
    requires Inv(v) && p in v.disk && since <= v.clock
    ensures forall q :: Used(v, since, q) ==> Used(Touch(v, p), since, q)
    ensures forall q :: Used(Touch(v, p), since, q) ==> Used(v, since, q) || q == p
    ensures since <= Touch(v, p).clock <= v.clock + 1 && (v.clock < U64_MAX ==> Used(Touch(v, p), since, p))
  {
    hide Listed, SumSizes, Keep;
  }

  // So does a write that does not fail.
  lemma WriteKeepsUsed(v: View, p: CachePath, bytes: seq<byte>, maxBytes: nat, outcome: WriteOutcome,
                       victims: seq<CachePath>, v': View, since: nat)
    requires Inv(v) && Tight(v, maxBytes) && Written(v, p, bytes, maxBytes, outcome, victims, v')
    requires since <= v.clock && SumSizes(UsedEntries(v, since) - {p}) + |bytes| <= maxBytes
    ensures forall q :: Used(v, since, q) && q != p ==> Used(v', since, q)
    ensures forall q :: Used(v', since, q) ==> Used(v, since, q) || q == p
    ensures since <= v'.clock <= v.clock + 1
    ensures !outcome.Failed? && v.clock < U64_MAX ==> Used(v', since, p)
  {
    hide Inv, SumSizes, Keep, Evicted, ForgetAll;
    if outcome.AlreadyThere? {
      TouchKeepsUsed(v, p, since);
    } else {
      var cleared := if p in v.disk then Forget(v, p) else v;
      ForgetInv(v, p, maxBytes);
      assert v.clock <= U64_MAX by { ClockBound(v); }
      RoomKeepsUsed(v, p, cleared, victims, |bytes|, maxBytes, since);
      hide Used;
      AdmitKeepsUsed(ForgetAll(cleared, victims), p, bytes, v', since);
    }
  }

  lemma ClockBound(v: View)
    requires Inv(v)
    ensures v.clock <= U64_MAX && forall p :: p in v.entries ==> v.entries[p].access <= v.clock
  {
  }

  // What is left once there is room for the file.
  lemma RoomKeepsUsed(v: View, p: CachePath, cleared: View, victims: seq<CachePath>, need: nat, maxBytes: nat,
                      since: nat)
    requires Inv(cleared) && Evicted(cleared, victims, need, maxBytes)
    requires cleared.clock == v.clock && cleared.entries == v.entries - {p}
    requires SumSizes(UsedEntries(v, since) - {p}) + need <= maxBytes
    ensures var roomy := ForgetAll(cleared, victims);
      && roomy.clock == v.clock && p !in roomy.entries
      && (forall q :: Used(roomy, since, q) ==> q != p && Used(v, since, q))
      && (forall q :: Used(v, since, q) && q != p ==> Used(roomy, since, q))
  {
    hide Inv, SumSizes, Evicted, ForgetAll;
    assert UsedEntries(cleared, since) == UsedEntries(v, since) - {p};
    UsedAreSpared(cleared, victims, need, maxBytes, since);
    EvictedAreOlder(cleared, victims, need, maxBytes);
    ForgetAllKeepsClock(cleared, victims);
    assert forall q :: Used(v, since, q) && q != p ==> Used(cleared, since, q);
  }

  lemma AdmitKeepsUsed(v: View, p: CachePath, bytes: seq<byte>, v': View, since: nat)
    requires since <= v.clock <= U64_MAX && p !in v.entries
      && (v' == v || exists mtime :: v' == Admit(v, p, bytes, mtime))
    ensures forall q :: Used(v, since, q) ==> Used(v', since, q)
    ensures forall q :: Used(v', since, q) ==> Used(v, since, q) || q == p
    ensures since <= v'.clock <= v.clock + 1
    ensures v' != v && v.clock < U64_MAX ==> Used(v', since, p)
  {
    hide Keep;
  }

  // A write that does not fail leaves the file there, if it fits the cap at all.
  lemma WriteStores(v: View, p: CachePath, bytes: seq<byte>, maxBytes: nat, outcome: WriteOutcome,
                    victims: seq<CachePath>, v': View)
    requires Tight(v, maxBytes) && Written(v, p, bytes, maxBytes, outcome, victims, v')
    requires !outcome.Failed? && |bytes| <= maxBytes
    ensures p in v'.disk && p in v'.entries && |v'.disk[p].data| == |bytes|
  {
    hide SumSizes, Keep, Evicted, ForgetAll;
  }

  lemma {:induction false} ForgetAllKeepsClock(v: View, victims: seq<CachePath>)
    ensures ForgetAll(v, victims).clock == v.clock
  {
    if victims != [] { ForgetAllKeepsClock(v, victims[..|victims| - 1]); }
  }

  lemma WriteKeepsClock(v: View, p: CachePath, bytes: seq<byte>, maxBytes: nat, outcome: WriteOutcome,
                        victims: seq<CachePath>, v': View)
    requires Written(v, p, bytes, maxBytes, outcome, victims, v')
    ensures v'.clock <= v.clock + 1
  {
    hide ForgetAll, Evicted;
    if !outcome.AlreadyThere? { ForgetAllKeepsClock(if p in v.disk then Forget(v, p) else v, victims); }
  }

  // Since the clock showed `since`, the files of one object alone were used.
  ghost predicate OnlyUsed(v: View, since: nat, owner: ObjectName) {
    since <= v.clock && forall p :: Used(v, since, p) ==> p.owner == owner
  }

  // From v to v' the clock moved by at most `ticks`, and if since then only files of `owner`
  // were used, that is still so and none of them is lost.
  ghost predicate UsesOnly(v: View, v': View, since: nat, owner: ObjectName, ticks: nat) {
    && v'.clock <= v.clock + ticks
    && (OnlyUsed(v, since, owner) ==>
          OnlyUsed(v', since, owner) && forall p :: Used(v, since, p) ==> Used(v', since, p))
  }

  // A read of a file or of one that is not there.
  lemma ReadUsesOnly(v: View, p: CachePath, since: nat)
    requires Inv(v)
    ensures UsesOnly(v, v, since, p.owner, 1)
    ensures p in v.disk ==> UsesOnly(v, Touch(v, p), since, p.owner, 1)
    ensures p in v.disk && since <= v.clock < U64_MAX ==> Used(Touch(v, p), since, p)
  {
    hide Inv, Touch;
    if p in v.disk {
      TouchClock(v, p);
      if since <= v.clock { TouchKeepsUsed(v, p, since); }
    }
  }

  lemma TouchClock(v: View, p: CachePath)
    requires p in v.disk
    ensures Touch(v, p).clock <= v.clock + 1
  {
  }

  // A new use finds only the files used since it began.
  lemma NothingUsed(v: View, owner: ObjectName)
    requires Inv(v)
    ensures OnlyUsed(v, v.clock, owner)
  {
    ClockBound(v);
    hide Inv;
  }

  lemma UsesOnlyMore(v: View, v1: View, v2: View, since: nat, owner: ObjectName, ticks: nat, more: nat)
    requires UsesOnly(v, v1, since, owner, ticks) && UsesOnly(v1, v2, since, owner, more)
    ensures UsesOnly(v, v2, since, owner, ticks + more)
  {
  }

  // The cache of byte ranges. `maxBytes` caps the sizes of its files; promoteBytes is
  // the largest index file fetched whole on its footer read. `calm` is a promise of the
  // environment: no file operation fails during the call.
  class DiskRangeCache {
    const maxBytes: nat
    const promoteBytes: nat
    var totalBytes: int
    var clock: nat
    var entries: Entries
    var disk: Disk
    ghost var boot: nat
    ghost var recency: seq<CachePath>

    ghost function V(): View
      reads this
    {
      View(totalBytes, clock, entries, disk, boot, recency)
    }

    // Starts from the files left on disk, with each file's modification time as its last
    // use, and evicts until they fit the cap.
    constructor (files: Disk, maxBytes: nat, promoteBytes: nat)
      ensures this.maxBytes == maxBytes && this.promoteBytes == promoteBytes
      ensures Inv(V()) && Tight(V(), maxBytes)
      ensures forall p :: p in disk ==> p in files && disk[p] == files[p] && entries[p].access == LoadedAccess(files[p])
      ensures forall p, q :: p in files && p !in disk && q in disk ==>
        AgedBefore(files[p], files[q])
      ensures SumSizes(LoadedEntries(files)) <= maxBytes ==> disk == files
    {
      this.maxBytes, this.promoteBytes := maxBytes, promoteBytes;
      totalBytes, clock, entries, disk := 0, 0, map[], files;
      boot, recency := 0, [];
      new;
      LoadExistingEntries();
      ghost var loaded := V();
      ghost var victims := EvictTo(maxBytes);
      EvictedAreOlder(loaded, victims, 0, maxBytes);
      ForgetAllShrinks(loaded, victims);
      hide LoadedAccess, AgedBefore, Inv, Tight, ForgetAll;
      forall p, q | p in files && p !in disk && q in disk
        ensures AgedBefore(files[p], files[q])
      {
        LoadedOrder(files[p], files[q]);
      }
    }

    method LoadExistingEntries()
      requires totalBytes == 0 && clock == 0 && entries == map[] && boot == 0 && recency == []
      modifies this
      ensures Inv(V()) && disk == old(disk) && entries == LoadedEntries(disk)
    {
      hide Loading, InsertByAccess, Inv;
      var todo := disk.Keys;
      LoadNone();
      while todo != {}
        invariant todo <= disk.Keys && disk == old(disk) && boot == 0
        invariant entries == map p | p in disk && p !in todo :: LoadedEntry(p, disk[p])
        invariant Loading(entries, totalBytes, clock, recency)
        decreases todo
      {
        var path :| path in todo;
        var entry := LoadedEntry(path, disk[path]);
        LoadOne(entries, totalBytes, clock, recency, path, entry);
        clock := Max(clock, entry.access);
        totalBytes := totalBytes + entry.size;
        entries := entries[path := entry];
        recency := InsertByAccess(entries, recency, path);
        todo := todo - {path};
      }
      boot := clock;
      assert entries == LoadedEntries(disk);
      LoadDone(V());
    }

    method RemoveEntry(path: CachePath)
      modifies this`totalBytes, this`entries, this`recency
      ensures V() ==
        old(V()).(total := if path in old(entries) then old(totalBytes) - old(entries)[path].size else old(totalBytes),
                  entries := old(entries) - {path}, recency := Keep(old(recency), {path}))
    {
      if path in entries {
        totalBytes := totalBytes - entries[path].size;
      }
      entries := entries - {path};
      recency := Keep(recency, {path});
    }

    method RemoveFile(path: CachePath)
      modifies this`disk
      ensures disk == old(disk) - {path}
    {
      disk := disk - {path};
    }

    // Marks a file as just used, accounting for it if it was not.
    method RecordUse(path: CachePath)
      requires path in disk
      modifies this`clock, this`totalBytes, this`entries, this`recency
      ensures V() == Touch(old(V()), path)
    {
      clock := SaturatingInc(clock);
      if path in entries {
        entries := entries[path := entries[path].(access := clock)];
      } else {
        totalBytes := totalBytes + |disk[path].data|;
        entries := entries[path := CacheEntry(path.owner, |disk[path].data|, clock)];
      }
      recency := Keep(recency, {path}) + [path];
    }

    // The rename of a finished temporary file into place.
    method Publish(path: CachePath, bytes: seq<byte>, mtime: int)
      modifies this`clock, this`totalBytes, this`entries, this`disk, this`recency
      ensures V() == Admit(old(V()), path, bytes, mtime)
    {
      disk := disk[path := DiskFile(bytes, mtime)];
      clock := SaturatingInc(clock);
      totalBytes := totalBytes + |bytes|;
      entries := entries[path := CacheEntry(path.owner, |bytes|, clock)];
      recency := Keep(recency, {path}) + [path];
    }

    // Evicts an entry with the least access time, if there is one.
    method EvictOldest() returns (evicted: bool, ghost victim: CachePath)
      requires Inv(V())
      modifies this
      ensures Inv(V())
      ensures evicted <==> old(entries) != map[]
      ensures evicted ==> Oldest(old(V()), victim) && V() == Forget(old(V()), victim)
      ensures !evicted ==> V() == old(V())
      ensures evicted ==> |entries| < |old(entries)|
    {
      hide Inv, Keep;
      if entries == map[] {
        victim := MetaPath(ObjectName("", []));
        return false, victim;
      }
      OldestExists(V());
      var path :| path in entries && forall q :: q in entries ==> entries[path].access <= entries[q].access;
      ForgetInv(V(), path, maxBytes);
      assert entries.Keys == (entries - {path}).Keys + {path};
      RemoveEntry(path);
      RemoveFile(path);
      return true, path;
    }

    // Evicts least recently used entries until `need` more bytes fit under `cap`, or none is left.
    method EvictUntilFits(need: nat, cap: nat) returns (ghost victims: seq<CachePath>)
      requires Inv(V())
      modifies this
      ensures Inv(V()) && (totalBytes + need <= cap || entries == map[])
      ensures Evicted(old(V()), victims, need, cap) && V() == ForgetAll(old(V()), victims)
      ensures old(totalBytes) + need <= cap ==> V() == old(V())
      ensures old(Tight(V(), maxBytes)) ==> Tight(V(), maxBytes)
      ensures old(disk).Keys == old(entries).Keys ==> disk.Keys == entries.Keys
      ensures entries.Keys <= old(entries).Keys
    {
      hide Inv, Tight, Keep, SumSizes, Evicted, ForgetAll;
      victims := [];
      EvictNone(V(), need, cap);
      while totalBytes + need > cap
        invariant Inv(V())
        invariant Evicted(old(V()), victims, need, cap) && V() == ForgetAll(old(V()), victims)
        invariant old(totalBytes) + need <= cap ==> V() == old(V())
        invariant old(Tight(V(), maxBytes)) ==> Tight(V(), maxBytes)
        invariant old(disk).Keys == old(entries).Keys ==> disk.Keys == entries.Keys
        invariant entries.Keys <= old(entries).Keys
        decreases |entries|
      {
        ghost var before := V();
        var evicted;
        ghost var victim;
        evicted, victim := EvictOldest();
        if !evicted { break; }
        ForgetInv(before, victim, maxBytes);
        EvictOneMore(old(V()), victims, victim, need, cap);
        victims := victims + [victim];
      }
    }

    method EvictTo(targetBytes: nat) returns (ghost victims: seq<CachePath>)
      requires Inv(V())
      modifies this
      ensures Inv(V()) && totalBytes <= targetBytes
      ensures Evicted(old(V()), victims, 0, targetBytes) && V() == ForgetAll(old(V()), victims)
      ensures old(totalBytes) <= targetBytes ==> V() == old(V())
      ensures old(disk).Keys == old(entries).Keys ==> disk.Keys == entries.Keys
    {
      hide Inv, Tight, Evicted, ForgetAll;
      victims := EvictUntilFits(0, targetBytes);
      InvFacts(V());
    }

    // Reads a whole file; one of an unexpected length is removed.
    method ReadEntry(path: CachePath, expectedLen: Option<nat>, calm: bool) returns (result: Option<seq<byte>>)
      requires Inv(V())
      modifies this
      ensures Inv(V()) && (old(Tight(V(), maxBytes)) ==> Tight(V(), maxBytes))
      ensures result.Some? ==>
        && path in old(disk) && result.value == old(disk)[path].data
        && (expectedLen.Some? ==> |result.value| == expectedLen.value)
        && V() == Touch(old(V()), path)
      ensures result.None? && !(path in old(disk) && Mismatched(old(disk)[path], expectedLen)) ==> V() == old(V())
      ensures result.None? && path in old(disk) && Mismatched(old(disk)[path], expectedLen) ==>
        V() == Forget(old(V()), path) || (!calm && V() == old(V()))
      ensures calm && path in old(disk) && !Mismatched(old(disk)[path], expectedLen) ==> result.Some?
    {
      hide Inv, Tight, SumSizes, Keep;
      var unreadable: bool := *;
      if (unreadable && !calm) || path !in disk {
        return None;
      }
      var data := disk[path].data;
      if expectedLen.None? || |data| == expectedLen.value {
        TouchInv(V(), path, maxBytes);
        RecordUse(path);
        return Some(data);
      }
      ForgetInv(V(), path, maxBytes);
      RemoveEntry(path);
      RemoveFile(path);
      return None;
    }

    // Publishes a file unless one of that length is there, evicting the least recently
    // used entries until it fits. Disk errors, and nothing else, leave a file out that fits.
    method WriteEntry(path: CachePath, bytes: seq<byte>, calm: bool)
      returns (ghost outcome: WriteOutcome, ghost victims: seq<CachePath>)
      requires Inv(V())
      modifies this
      ensures Inv(V()) && (old(Tight(V(), maxBytes)) ==> Tight(V(), maxBytes))
      ensures Written(old(V()), path, bytes, maxBytes, outcome, victims, V())
      ensures calm ==> !outcome.Failed?
    {
      hide Inv, Tight, SumSizes, Keep, Evicted, ForgetAll, Written, Touch, Admit;
      ghost var before := V();
      victims := [];
      InvFacts(before);
      if path in disk {
        if |disk[path].data| == |bytes| {
          AlreadyWritten(before, path, bytes, maxBytes);
          if path in entries {
            RecordUse(path);
          } else {
            clock := SaturatingInc(clock);
          }
          outcome := AlreadyThere;
          return;
        }
        ForgetInv(before, path, maxBytes);
        RemoveEntry(path);
        RemoveFile(path);
      }
      ghost var cleared := V();
      victims := EvictUntilFits(|bytes|, maxBytes);
      ghost var roomy := V();
      InvFacts(roomy);
      if totalBytes + |bytes| > maxBytes {
        outcome := NoRoom;
        NewlyWritten(before, path, bytes, maxBytes, outcome, victims, cleared, roomy);
        return;
      }
      var diskError: bool := *;
      if diskError && !calm {
        outcome := Failed;
        NewlyWritten(before, path, bytes, maxBytes, outcome, victims, cleared, roomy);
        return;
      }
      var mtime: int := *;
      outcome := Stored(mtime);
      NewlyWritten(before, path, bytes, maxBytes, outcome, victims, cleared, roomy);
      Publish(path, bytes, mtime);
    }

    // Removes every accounted file of one object, and nothing else.
    method Invalidate(owner: ObjectName)
      requires Inv(V())
      modifies this
      ensures V() == Drop(old(V()), OwnedPaths(old(entries), owner))
      ensures Inv(V()) && (old(Tight(V(), maxBytes)) ==> Tight(V(), maxBytes))
    {
      hide Inv, Tight, SumSizes, Keep, Drop, Forget;
      InvFacts(V());
      var paths := set p | p in entries && entries[p].owner == owner;
      ghost var gone: set<CachePath> := {};
      DropNone(V());
      while paths != {}
        invariant paths + gone == OwnedPaths(old(entries), owner) && paths !! gone
        invariant Inv(V()) && V() == Drop(old(V()), gone)
        invariant old(Tight(V(), maxBytes)) ==> Tight(V(), maxBytes)
        decreases paths
      {
        var path :| path in paths;
        ForgetInv(V(), path, maxBytes);
        DropOne(old(V()), gone, path);
        RemoveEntry(path);
        RemoveFile(path);
        ForgetIs(Drop(old(V()), gone), path, V());
        paths, gone := paths - {path}, gone + {path};
      }
      assert gone == OwnedPaths(old(entries), owner);
    }
  }

  // The accounted files of one object.
  function OwnedPaths(entries: Entries, owner: ObjectName): set<CachePath> {
    set p | p in entries && p.owner == owner
  }

  // The state without the files of `gone`; the others keep their order.
  ghost function Drop(v: View, gone: set<CachePath>): View {
    v.(total := SumSizes(v.entries - gone), entries := v.entries - gone, disk := v.disk - gone,
       recency := Keep(v.recency, gone))
  }

  lemma DropNone(v: View)
    requires Inv(v)
    ensures Drop(v, {}) == v
  {
    KeepAll(v.recency, {});
    assert v.entries - {} == v.entries && v.disk - {} == v.disk;
  }

  lemma ForgetIs(v: View, p: CachePath, v': View)
    requires v' == v.(total := if p in v.entries then v.total - v.entries[p].size else v.total,
                      entries := v.entries - {p}, disk := v.disk - {p}, recency := Keep(v.recency, {p}))
    ensures v' == Forget(v, p)
  {
  }

  lemma DropOne(v: View, gone: set<CachePath>, p: CachePath)
    ensures Drop(v, gone + {p}) == Forget(Drop(v, gone), p)
  {
    hide SumSizes, Keep;
    KeepTwice(v.recency, gone, {p});
    var kept := v.entries - gone;
    assert kept - {p} == v.entries - (gone + {p});
    assert v.disk - gone - {p} == v.disk - (gone + {p});
    if p in kept {
      SumWithout(kept, p);
    } else {
      assert kept - {p} == kept;
    }
  }

  // ---------- Starting from files on disk ----------

  // The file was modified no later, as far as a clock of 64 bits can tell.
  predicate AgedBefore(a: DiskFile, b: DiskFile) { a.mtime <= b.mtime || a.mtime <= 0 || b.mtime >= U64_MAX }

  lemma LoadedOrder(a: DiskFile, b: DiskFile)
    ensures LoadedAccess(a) <= LoadedAccess(b) <==> AgedBefore(a, b)
  {
  }

  function LoadedAccess(file: DiskFile): nat {
    if file.mtime < 0 then 0 else Min(file.mtime, U64_MAX)
  }

  function LoadedEntry(p: CachePath, file: DiskFile): CacheEntry {
    CacheEntry(p.owner, |file.data|, LoadedAccess(file))
  }

  function LoadedEntries(files: Disk): Entries {
    map p | p in files :: LoadedEntry(p, files[p])
  }

  ghost function InsertByAccess(entries: Entries, s: seq<CachePath>, p: CachePath): (r: seq<CachePath>)
    requires p in entries && forall q :: q in s ==> q in entries
    ensures forall q :: q in r <==> q in s || q == p
  {
    if s == [] || entries[p].access <= entries[s[0]].access then [p] + s
    else [s[0]] + InsertByAccess(entries, s[1..], p)
  }

  lemma {:induction false} InsertOrdered(entries: Entries, s: seq<CachePath>, p: CachePath, e: CacheEntry)
    requires p !in entries && e.access <= U64_MAX
    requires forall q :: q in s ==> q in entries && entries[q].access <= U64_MAX
    requires NoDuplicates(s) && Ordered(entries, U64_MAX, s)
    ensures forall q :: q in s ==> q in entries[p := e]
    ensures NoDuplicates(InsertByAccess(entries[p := e], s, p))
    ensures Ordered(entries[p := e], U64_MAX, InsertByAccess(entries[p := e], s, p))
  {
    var entries' := entries[p := e];
    if s == [] {
    } else if e.access <= entries[s[0]].access {
      var r := [p] + s;
      forall i, j | 0 <= i < j < |r|
        ensures r[i] != r[j] && Older(entries', U64_MAX, r[i], r[j])
      {
        assert r[j] == s[j - 1] && s[j - 1] in s && s[0] in s;
        if i == 0 {
          assert j - 1 > 0 ==> Older(entries, U64_MAX, s[0], s[j - 1]);
        } else {
          assert r[i] == s[i - 1] && s[i - 1] in s && Older(entries, U64_MAX, s[i - 1], s[j - 1]);
        }
      }
    } else {
      InsertOrdered(entries, s[1..], p, e);
      var rest := InsertByAccess(entries', s[1..], p);
      assert s[0] in s;
      forall q | q in rest
        ensures q != s[0] && Older(entries', U64_MAX, s[0], q)
      {
        if q != p {
          var i :| 0 <= i < |s[1..]| && s[1..][i] == q;
          assert s[i + 1] == q && Older(entries, U64_MAX, s[0], s[i + 1]);
        }
      }
      var r := [s[0]] + rest;
      forall i, j | 0 <= i < j < |r|
        ensures r[i] != r[j] && Older(entries', U64_MAX, r[i], r[j])
      {
        assert r[j] == rest[j - 1] && rest[j - 1] in rest;
      }
    }
  }

  // What a step of the cache may use of the invariant.
  lemma InvFacts(v: View)
    requires Inv(v)
    ensures v.entries.Keys <= v.disk.Keys
    ensures forall p :: p in v.entries ==> v.entries[p].owner == p.owner
    ensures v.entries == map[] ==> v.total == 0
  {
  }

  lemma EvictNone(v: View, need: nat, maxBytes: nat)
    ensures Evicted(v, [], need, maxBytes) && ForgetAll(v, []) == v
  {
  }

  // The part of the invariant that holds while files are being loaded.
  ghost predicate Loading(entries: Entries, total: int, clock: nat, recency: seq<CachePath>) {
    && total == SumSizes(entries) && clock <= U64_MAX
    && (forall p :: p in entries ==> entries[p].access <= clock)
    && NoDuplicates(recency) && Ordered(entries, U64_MAX, recency)
    && (forall p :: p in recency <==> p in entries)
  }

  lemma LoadNone()
    ensures Loading(map[], 0, 0, [])
  {
  }

  lemma LoadOne(entries: Entries, total: int, clock: nat, recency: seq<CachePath>, p: CachePath, e: CacheEntry)
    requires Loading(entries, total, clock, recency) && p !in entries && e.access <= U64_MAX
    ensures forall q :: q in recency ==> q in entries[p := e]
    ensures Loading(entries[p := e], total + e.size, Max(clock, e.access), InsertByAccess(entries[p := e], recency, p))
  {
    SumInsert(entries, p, e);
    InsertOrdered(entries, recency, p, e);
  }

  // Once everything is loaded, the clock is the latest modification time: the order of
  // files loaded with equal times is arbitrary.
  lemma LoadDone(v: View)
    requires v.entries == LoadedEntries(v.disk) && v.boot == v.clock
    requires Loading(v.entries, v.total, v.clock, v.recency)
    ensures Inv(v)
  {
    forall i, j | 0 <= i < j < |v.recency|
      ensures Older(v.entries, v.boot, v.recency[i], v.recency[j])
    {
      assert Older(v.entries, U64_MAX, v.recency[i], v.recency[j]);
    }
  }

  lemma OldestExists(v: View)
    requires Inv(v) && v.entries != map[]
    ensures exists p :: Oldest(v, p)
  {
    var q :| q in v.entries;
    assert q in v.recency;
    forall r | r in v.entries
      ensures v.entries[v.recency[0]].access <= v.entries[r].access
    {
      assert r in v.recency;
      var i :| 0 <= i < |v.recency| && v.recency[i] == r;
      assert i > 0 ==> Older(v.entries, v.boot, v.recency[0], r);
    }
    assert v.recency[0] in v.recency;
    assert Oldest(v, v.recency[0]);
  }

  // Whatever ties there are, no victim was used after a survivor.
  lemma {:induction false} EvictedAreOlder(v: View, victims: seq<CachePath>, need: nat, maxBytes: nat)
    requires Inv(v) && Evicted(v, victims, need, maxBytes)
    ensures var v' := ForgetAll(v, victims);
      && (forall q :: q in v'.entries ==> q in v.entries && v'.entries[q] == v.entries[q])
      && (forall p, q ::
          p in v.entries && p !in v'.entries && q in v'.entries ==> v.entries[p].access <= v.entries[q].access)
      && (forall q :: q in v.disk && q !in v'.disk ==> q in v.entries && q !in v'.entries)
      && Inv(v')
  {
    if victims != [] {
      var earlier := victims[..|victims| - 1];
      EvictedAreOlder(v, earlier, need, maxBytes);
      ForgetInv(ForgetAll(v, earlier), victims[|victims| - 1], maxBytes);
    }
  }
}
