// The tables of the store and the dedup hashes (lance.go, `upsertTable`; main.go, `dedupState`;
// raw_ingest.go, `rawDerivedKey`).
module Tables {
  import opened Records

  type Rows = map<string, MemoryItem>
  type Hashes = map<string, string>

  // A merge insert: a row with a known id replaces it, any other is added. Of rows with one id
  // in one batch the last is taken to win.
  function Upsert(rows: Rows, items: seq<MemoryItem>): Rows {
    if items == [] then rows else Upsert(rows, items[..|items| - 1])[items[|items| - 1].id := items[|items| - 1]]
  }

  function RawDerivedKey(id: string): string { id + "|unit" }

  predicate Seen(dedup: Hashes, key: string, hash: string) {
    key != "" && hash != "" && key in dedup && dedup[key] == hash
  }

  function Mark(dedup: Hashes, key: string, hash: string): Hashes {
    if key == "" || hash == "" then dedup else dedup[key := hash]
  }

  // Distinct ids have distinct keys.
  lemma DerivedKeysDiffer(a: string, b: string)
    ensures RawDerivedKey(a) == RawDerivedKey(b) <==> a == b
  {
    if RawDerivedKey(a) == RawDerivedKey(b) {
      assert |a| == |b|;
      assert a == RawDerivedKey(a)[..|a|] && b == RawDerivedKey(b)[..|b|];
    }
  }

  lemma KeyNotEmpty(id: string)
    ensures RawDerivedKey(id) != ""
  {
    assert |RawDerivedKey(id)| == |id| + 5;
  }
}
