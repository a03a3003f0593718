# pi-memoryd, modelled and proved in Dafny

`pi-memoryd` turns raw chat and session logs into an embedded search index. This project models the parts of it
whose correctness is a matter of logic, and proves what they promise. `dafny verify dfyconfig.toml` checks all of it.

- **The block cache** in front of the object store (`docker/lancedb-go-disk-cache.rs`). `BlockRanges` is block
  arithmetic and the assembly of a range from blocks; `ObjectMetadata` the encoding of cached metadata; `BlockCache`
  the cache on disk with its recency list, byte cap and restart; `CacheStore` the object-store wrapper and whole
  sequential histories of it; `SingleFlight` the sharing of fetches as a transition system with any number of readers;
  `CachedReads` when they need no fetch of their own, `FetchProgress` that they finish, `PastEndReads` what they are
  answered past the end of an object, and `PastEndRuns` one such run.
- **Raw ingestion** (`raw_ingest.go`, `main.go`, `lance.go`). `RawRegistry` is the registry and its retry schedule;
  `TokenSplitter` the splitter and its nested binary searches; `RawIngest` what writing an object's units does to the
  store; `EmbeddedSizes` how long embedded texts get; `IngestRuns` the pipeline, with a failure or a crash possible
  after every step; `RepeatedIds` an object that it never settles; `ChunkIds` and `Tables` the ids, tables and dedup
  hashes.
- **Units and parsing** (`context.go`, `telegram.go`, `raw_parser.go`). `ContextUnits` computes contextual units;
  `UnitTexts` and `UnitLines` say what their headers and lines tell and exactly which changes have one embedded again;
  `TelegramParse` merges message versions; `SessionParse` parses the logs of every harness with and without state rows;
  `MessageContents`, `RowOrigins` and `StateRows` say, without the parser, where the text and every other field of a row
  come from, and `ObjectKeys` what object keys, times and directories name.
- **Incremental sync** (`cmd/tireless/index`). `LogTurns` parses lines into turns; `TurnOrigins` says where the fields of a
  turn come from; `PostedTurns` compares posted turns with parsed rows; `SyncCursor` keeps byte-offset cursors over growing
  files.
- **Queries** (`lance_sql.go`, `mem.go`, `main.go`, `lance.go`). `Sql` and `SqlReading` are a scanner, a parser and an
  evaluator for where clauses; `FilterSql` and `CursorSql` print filters and cursors; `Pagination` and
  `RecordWalk` walk containers; `CollapseHits` collapses ranked hits.
- **Migration** (`lance.go`, `lance_sql.go`). `V4Ids` maps v4 paths to readable ids, `Migration` is the resumable batch
  copy, and `MigratedIds` ties migrated ids to parsed ones.

`Wrappers`, `Text`, `Ordering` and `Records` hold what the others share.

Things outside the program are parameters about which nothing is assumed: token counting (any function of the text that
may also fail), embedding, SHA-256, JSON and log decoding, Go's `%q` quoting, file and network failures, crashes, clocks
and the scheduling of readers. Where a parameter is a function of its input, only that is assumed; `RawIngest` also
takes hashes to be non-empty. Strings are sequences of code points, and byte strings where the source handles bytes.

Operations that may fail take a promise of the environment, `calm`: that nothing fails during the call. What an operation
does then is part of its contract, beside what it keeps when anything fails.

Where the code falls short of what one would expect, the model keeps the code's behaviour and says when it is harmless:

- A range that starts past the end of an object ends in a panic, or at the very end in an empty answer, instead of the
  backing store's error. Unless something fails, that happens exactly when the object's metadata is not cached and the
  widened request starts inside the object (`CacheStore.DiskCacheStore.GetBlocks`; a concrete read in
  `CacheStore.PastEndPanics`). With concurrent readers it happens exactly when the reader was not refused on arrival and
  made no failing direct request, a fetch of its own or one that it joined having told it the size
  (`SingleFlight.FinishedPastEnd`); unless something fails, exactly when its own widened request, or a fetch that it
  joined, starts inside the object (`PastEndReads.PastEndIff`; a run in which sharing makes the difference in
  `PastEndRuns.JoinerPanics`).
- The promotion limit bounds what is fetched with the footer of an index file, but not the 8 MiB tail of a data file
  (`BlockRanges.WidenBounded`, `BlockRanges.TailIgnoresPromotion`).
- The setting for tokens per chunk, header included, holds of every text under a header exactly when the header leaves room
  for 128 tokens more (`EmbeddedSizes.PromiseKeptIff`, for any counter `EmbeddedSizes.EmbeddedFits`).
- A rerun of an indexed object writes nothing if and only if records with one id have one hash
  (`RawIngest.RerunWritesNothingIff`), and only then does a crash between the last save and the registry's "indexed" do no
  harm (`IngestRuns.FinishedTwiceIff`). A crash after any group followed by a rerun leaves the store of an uninterrupted
  run if and only if records with one id have one hash and, where they are to be written, the same rows
  (`IngestRuns.CrashSafeIff`). A Pi log in which two messages have one id breaks all three
  (`RepeatedIds.RepeatedIdNeverSettles`).
- The row count at the end of a migration detects rows lost to a shared id only as far as the tables held no other rows
  (`Migration.CountPassesIff`, `Migration.CollisionGoesUnnoticed`). With distinct ids nothing is lost, whatever the
  tables held (`Migration.Migrator.Runs`).
- Parsing the raw logs again after a migration embeds nothing only if every migrated file hash is the hash of the unit
  as it is embedded now (`MigratedIds.NothingPendingIff`). Collision-free hashes of bare texts never are, and then every
  session unit is embedded again (`MigratedIds.TextHashesSettleNothing`); the comment at `lance.go:641-643` promises more.
- Migrated ids and kinds are those of the parser exactly when no part of the path holds a slash
  (`MigratedIds.MessageIdIsParsedIdIff`, `MigratedIds.StateIdIsParsedId`, `MigratedIds.PlainPathStaysIff`).
- The splitter panics on its capacity estimate if and only if the budget and the count are those that `TokenSplitter.PanicsIff`
  names; no headed unit gets there.
- A Pi or OMP message that the sync client posts is the row that parsing gives it, unless the line has a time that cannot
  be read and its message one that can (`PostedTurns.PostedTurnIsParsedRow`).
- Cursors do not save the keys a Codex log has shown; a turn is sent again exactly when a later line repeats a key, and
  none is lost (`LogTurns.CodexForgets`).
- A log that shrinks is parsed again with the old session and project; harmless exactly as `SyncCursor.RotationKeepsNames`
  says. A replaced log that has not shrunk goes unnoticed, exactly as `SyncCursor.CatchesUp` says.
- An absent value prints no condition but matches only empty fields, other values print but never match, and an empty list
  of parts hides a comparison from the matcher alone; a filter without parts prints its meaning exactly when none of these
  applies (`FilterSql.LeafMeansIff`), and what any other filter prints means the filter it shows
  (`FilterSql.PrintedMeansShown`). Filters built from strings are always plain (`FilterSql.EqFilters`).
- Without a limit the in-memory store answers a search with every row and Lance with ten; with one, and a plain filter,
  they answer alike (`Pagination.SearchesAgree`).
- A cursor without an id keeps one more row in SQL than in memory: a row of that very second without an id
  (`CursorSql.CursorAgreesIff`).
- A page cursor taken from a row resumes after it exactly when the row's timestamp is positive
  (`Pagination.CursorResumesIff`).

## Model

| member | source | states |
|---|---|---|
| BlockRanges.Widen | docker/lancedb-go-disk-cache.rs:629-644 | the widened span contains the missing span and grows towards the front alone |
| BlockRanges.WidenBounded | docker/lancedb-go-disk-cache.rs:629-644 | it grows only for a footer read, stays inside an object of known size, and spans at most the promotion limit for an index file or the 8 MiB tail for a data file, each rounded up to whole blocks |
| BlockRanges.TailIgnoresPromotion | docker/lancedb-go-disk-cache.rs:629-644 | with a promotion limit of one byte the footer read of a data file still fetches 8 MiB |
| BlockRanges.InnerPartIs | docker/lancedb-go-disk-cache.rs:635-639 | a path has the part inside it exactly when the joined path contains the part between slashes |
| BlockRanges.FillKeepsBlocks | docker/lancedb-go-disk-cache.rs:701-710 | filling slots from a fetched span keeps every slot a block of the object and fills every slot the span covers |
| BlockRanges.PiecesAreTheRange | docker/lancedb-go-disk-cache.rs:778-801 | the slices taken from full slots concatenate to the requested bytes, and every index and slice is in bounds |
| BlockRanges.AssembleIsExact | docker/lancedb-go-disk-cache.rs:778-801 | for a start inside the object assembly returns exactly the object's bytes from start to the lesser of end and size |
| BlockRanges.AssembleBeyondEnd | docker/lancedb-go-disk-cache.rs:778-801 | for a start at or past the end assembly is empty or fails its slice, and which of the two |
| ObjectMetadata.LittleEndianRoundTrip | docker/lancedb-go-disk-cache.rs:456-476 | fixed-width little-endian numbers decode to themselves |
| ObjectMetadata.MetaRoundTrip | docker/lancedb-go-disk-cache.rs:456-476 | cached metadata decodes to what was encoded, an empty tag reading as none |
| BlockCache.SumWithout | docker/lancedb-go-disk-cache.rs:441-445 | removing an entry lowers the sum of sizes by its size |
| BlockCache.TouchInv | docker/lancedb-go-disk-cache.rs:158-190 | recording a use keeps the byte total, the one-to-one match of entries and files, and the order by access time |
| BlockCache.ForgetInv | docker/lancedb-go-disk-cache.rs:441-445 | removing an entry and its file keeps them too |
| BlockCache.AdmitInv | docker/lancedb-go-disk-cache.rs:288-313 | publishing a file that fits keeps them too, under the cap |
| BlockCache.EvictsTheFront | docker/lancedb-go-disk-cache.rs:427-439 | under strict access times evictions take the front of the recency list in order and leave its tail: the map and clock refine an ordered list |
| BlockCache.EvictedAreOlder | docker/lancedb-go-disk-cache.rs:333-344 | every evicted entry was used no later than any entry that stays |
| BlockCache.TouchStrict | docker/lancedb-go-disk-cache.rs:158-190 | a use while the clock has not saturated makes its entry the strictly newest |
| BlockCache.AdmitStrict | docker/lancedb-go-disk-cache.rs:288-313 | so does a publication |
| BlockCache.WrittenFiles | docker/lancedb-go-disk-cache.rs:247-313 | besides the written file a write only removes files |
| BlockCache.WriteStores | docker/lancedb-go-disk-cache.rs:247-313 | a write that does not fail leaves the file there, accounted for, if it fits the cap at all |
| BlockCache.UsedAreSpared | docker/lancedb-go-disk-cache.rs:266-270 | eviction spares the files used since some time, when they and the new bytes fit together |
| BlockCache.TouchKeepsUsed | docker/lancedb-go-disk-cache.rs:158-190 | a read keeps what was used since, and its file joins it while the clock has not saturated |
| BlockCache.WriteKeepsUsed | docker/lancedb-go-disk-cache.rs:247-313 | so does a write, and one that does not fail leaves its file among those |
| BlockCache.LoadDone | docker/lancedb-go-disk-cache.rs:383-425 | the entries loaded at start satisfy the cache's invariant |
| BlockCache.DiskRangeCache.constructor | docker/lancedb-go-disk-cache.rs:105-120 | a restart restores the invariant and the cap, keeps everything that fits, and otherwise drops only files older than those kept |
| BlockCache.DiskRangeCache.LoadExistingEntries | docker/lancedb-go-disk-cache.rs:383-425 | every file left on disk becomes an entry aged by its modification time |
| BlockCache.DiskRangeCache.EvictOldest | docker/lancedb-go-disk-cache.rs:427-439 | removes an entry of least access time with its file, and nothing when there is none |
| BlockCache.DiskRangeCache.EvictUntilFits | docker/lancedb-go-disk-cache.rs:266-270 | ends with room or an empty cache, each victim being the oldest at its turn and needed |
| BlockCache.DiskRangeCache.EvictTo | docker/lancedb-go-disk-cache.rs:333-344 | ends at or under the target and changes nothing when already there |
| BlockCache.DiskRangeCache.ReadEntry | docker/lancedb-go-disk-cache.rs:158-190 | returns the file and marks it newest, removes it when its length is wrong, and else changes nothing; unless something fails a file that is there is read |
| BlockCache.DiskRangeCache.WriteEntry | docker/lancedb-go-disk-cache.rs:247-313 | leaves exactly the state of one of four outcomes, keeping the invariant and the cap; without a disk error it does not fail |
| BlockCache.DiskRangeCache.Invalidate | docker/lancedb-go-disk-cache.rs:315-331 | removes every entry and file of one object and nothing else |
| CacheStore.MissingBounds | docker/lancedb-go-disk-cache.rs:696-712 | the missing blocks lie within the first and last one reported |
| CacheStore.WriteKeepsCoherence | docker/lancedb-go-disk-cache.rs:247-313 | writing a block or metadata of an object's current content keeps the cache coherent |
| CacheStore.InvalidatedIsFree | docker/lancedb-go-disk-cache.rs:315-331 | an invalidated object has no file left, also among those a restart would load |
| CacheStore.FreeIsCoherent | docker/lancedb-go-disk-cache.rs:808-816 | changing objects that have no file keeps the cache coherent |
| CacheStore.ObjectSum | docker/lancedb-go-disk-cache.rs:655-668 | cached files of one object together are no larger than the object and its metadata record |
| CacheStore.PutUsesOnly | docker/lancedb-go-disk-cache.rs:247-313 | writing a file of an object that fits the cap loses no file of the object used since the read began, and without a fault the file is there |
| CacheStore.PastEndPanics | docker/lancedb-go-disk-cache.rs:677-802 | a read of bytes 2..3 of a one-byte object through an empty cache: the backing store refuses it, and unless something fails it ends in a panic |
| CacheStore.DiskCacheStore.FetchSpan | docker/lancedb-go-disk-cache.rs:647-670 | one request returns the object's metadata and its bytes of the widened span, clamped at its end; unless something fails, the metadata and all blocks of the span are cached afterwards, if the object fits |
| CacheStore.DiskCacheStore.FetchMissing | docker/lancedb-go-disk-cache.rs:711-776 | leaves every slot a block of the object and every block of the range filled, or reports an error; makes no request when no block is missing |
| CacheStore.DiskCacheStore.Finish | docker/lancedb-go-disk-cache.rs:778-801 | serves the exact bytes and range of filled slots |
| CacheStore.DiskCacheStore.GetBlocks | docker/lancedb-go-disk-cache.rs:677-802 | from any coherent cache a served range is the backing store's answer, and unless something fails every range inside the object is served; unless something fails a panic, or an empty answer, comes exactly for a range from beyond, or from, the end of an object whose metadata was not cached and whose widened request starts inside it; unless something fails, a range inside an object that fits the cap is wholly cached afterwards, while the clock has not saturated, and a range that is cached is read without a request |
| CacheStore.DiskCacheStore.GetOpts | docker/lancedb-go-disk-cache.rs:827-872 | the same for whole, bounded, offset and suffix reads, with both exact conditions restricted to cacheable objects and unconditional reads; others are passed through with one request and leave the cache as it is; the same caching for bounded ranges and small whole objects |
| CacheStore.DiskCacheStore.GetCachedRanges | docker/lancedb-go-disk-cache.rs:874-892 | many ranges are answered in order, each as if alone, and without faults they fail only for one that starts past the end |
| CacheStore.DiskCacheStore.Put | docker/lancedb-go-disk-cache.rs:808-816 | a put, failed or not, leaves no stale block behind |
| CacheStore.DiskCacheStore.Delete | docker/lancedb-go-disk-cache.rs:894-909 | so does a delete |
| CacheStore.DiskCacheStore.Copy | docker/lancedb-go-disk-cache.rs:930-938 | so does a copy, for its target |
| CacheStore.DiskCacheStore.Rename | docker/lancedb-go-disk-cache.rs:940-949 | so does a rename, for both ends, even one that stopped half-way |
| CacheStore.DiskCacheStore.Restart | docker/lancedb-go-disk-cache.rs:105-120 | a restart keeps the cache coherent under its new settings |
| CacheStore.DiskCacheStore.Run | docker/lancedb-go-disk-cache.rs:804-950 | in any sequential history of puts, deletes, copies, renames, restarts and reads every served read is what the backing store alone would return, every read it would serve is served unless something failed, and the others are refused but for the past-end family, and unless something failed every mutation is acknowledged |
| SingleFlight.FillingOk | docker/lancedb-go-disk-cache.rs:701-710 | a waiting reader's slots stay blocks of its object, whatever fetch it takes its answer from |
| SingleFlight.FinishingOutcome | docker/lancedb-go-disk-cache.rs:778-801 | a reader with no missing slot is served exactly, inside its object |
| SingleFlight.StepKeepsInv | docker/lancedb-go-disk-cache.rs:629-802 | every step of every reader, fetch, eviction and failure, also one after the size is cached, keeps the protocol's invariant |
| SingleFlight.RunKeepsInv | docker/lancedb-go-disk-cache.rs:629-802 | so it holds in every reachable state |
| SingleFlight.FinishedReadsAreExact | docker/lancedb-go-disk-cache.rs:677-802 | in every state of every run a finished read inside its object has exactly the object's bytes unless its own direct fetch failed, and then it is an error; a missing object is an error for that reason |
| SingleFlight.FinishedPastEnd | docker/lancedb-go-disk-cache.rs:677-802 | a finished read past the end is an error exactly when it was refused on arrival or its own direct fetch failed; otherwise a fetch of the object has answered and the read panics, or is empty from the very end |
| PastEndReads.StepTracks | docker/lancedb-go-disk-cache.rs:711-776 | every step keeps what a reader's awaited fetches tell: those looked at are finished and an answer told the size, they cover what is missing, and a direct fetch starts no earlier |
| PastEndReads.PastEndIff | docker/lancedb-go-disk-cache.rs:677-802 | when no fetch of the object is disturbed, a finished read past the end is an error if and only if it was refused on arrival or no fetch that it decided to wait for starts inside the object; its own starts where the widened range does |
| PastEndRuns.JoinerPanics | docker/lancedb-go-disk-cache.rs:711-802 | a run in which a reader panics because it joined a fetch, where its own would have started past the end and been refused |
| SingleFlight.PublishedFetchesCover | docker/lancedb-go-disk-cache.rs:711-753 | every published entry leads to a fetch of its object whose widened span covers its block, and the map is empty once all readers are done |
| SingleFlight.JoinersFetchNothing | docker/lancedb-go-disk-cache.rs:711-776 | a reader whose missing blocks were all in flight starts no fetch unless one it waited for failed or fell short |
| CachedReads.CachedReadsFetchNothing | docker/lancedb-go-disk-cache.rs:677-710 | a reader that finds the size and each of its blocks in the cache begins no fetch and waits for none, whatever the others do |
| CachedReads.DecidersPublish | docker/lancedb-go-disk-cache.rs:711-743 | a sharing reader that decides to fetch leaves every block it misses and its whole widened span in flight, keeping what others had published |
| CachedReads.InFlightIsJoined | docker/lancedb-go-disk-cache.rs:716-743 | a reader that decides while everything it misses is in flight begins no fetch and waits for exactly those that cover it |
| SingleFlight.OwnersRemoveTheirOwn | docker/lancedb-go-disk-cache.rs:744-753 | a finished owner removes exactly the entries that point to its own fetch |
| SingleFlight.NoDeadlock | docker/lancedb-go-disk-cache.rs:677-802 | while a reader is unfinished some reader or fetch can move |
| FetchProgress.StepLowers | docker/lancedb-go-disk-cache.rs:647-802 | every step of a reader or a fetch lowers the number of steps that are left |
| FetchProgress.AllFinish | docker/lancedb-go-disk-cache.rs:677-802 | without arrivals, once as many such steps have been taken as were left, every reader has finished, however they are scheduled |
| FetchProgress.CanFinish | docker/lancedb-go-disk-cache.rs:677-802 | every run can be continued by steps of readers and fetches alone until every reader has finished |
| TokenSplitter.CutsTile | raw_ingest.go:668-727 | for any token counter starts strictly increase, every cut is non-empty and no gap is left between neighbours |
| TokenSplitter.RebuildIsText | raw_ingest.go:668-727 | dropping the overlaps of such cuts rebuilds the text |
| TokenSplitter.SplitCovers | raw_ingest.go:668-727 | a split, when the counter does not fail, ends and covers the text in that way |
| TokenSplitter.PanicsIff | raw_ingest.go:677 | the capacity estimate panics exactly for the stated budgets and counts |
| TokenSplitter.FitEndIsLongest | raw_ingest.go:689-703 | under a monotone counter the first search finds the longest prefix that fits, or one rune |
| TokenSplitter.OverlapIsLongest | raw_ingest.go:706-723 | under a monotone counter the second search finds the longest suffix of at most 64 tokens |
| TokenSplitter.NextCutIsWell | raw_ingest.go:686-723 | each cut is made from the longest fitting prefix, or one rune, at its preferred boundary, and the next one starts at the longest overlap |
| TokenSplitter.CutsAreWell | raw_ingest.go:668-727 | every chunk of a split is the fitting rest of the text or is cut that way, and every next chunk repeats the longest overlap |
| TokenSplitter.SplitFits | raw_ingest.go:668-727 | under a counter that is monotone and zero on the empty text a split that does not panic succeeds, every chunk fits the budget unless it is a single rune, and all of that holds of its cuts |
| TokenSplitter.PreferTextBoundary | raw_ingest.go:729-737 | the boundary is the end of the last newline in the chunk's last quarter, or the chunk's end |
| TokenSplitter.SearchEnd | raw_ingest.go:689-703 | the loop computes the prefix search, probe by probe |
| TokenSplitter.SearchOverlap | raw_ingest.go:706-720 | the loop computes the overlap search, probe by probe |
| TokenSplitter.SplitTokenChunks | raw_ingest.go:668-727 | the method ends for every counter and computes the split about which the lemmas speak |
| RawRegistry.AttemptsCountStarts | raw_ingest.go:181-203 | over any history of calls attempts count the processing starts since the object version last changed |
| RawRegistry.ComputeRetryDelay | raw_ingest.go:171-177 | the doubling loop computes the lesser of thirty seconds doubled per attempt and one hour |
| RawRegistry.RetryAfterFailure | raw_ingest.go:171-178 | a failed version is due exactly when that delay, for its number of starts, has passed |
| RawRegistry.DueUnlessDone | raw_ingest.go:142-179 | a done object is never due, any other becomes due within the longer of an hour and the write interval, and being due lasts |
| RawRegistry.DueAfterInterruption | raw_ingest.go:168-170 | an interrupted start is due again at once |
| RawRegistry.ReplayOne | raw_ingest.go:181-203 | a call extends the history of its key and of no other |
| RawRegistry.Registry.Due | raw_ingest.go:149-179 | decides due, as the lemmas describe it |
| RawRegistry.Registry.Set | raw_ingest.go:181-203 | records a call, with its containers sorted and once each, and saves the registry or leaves the file as it was; without a fault it is saved |
| Ordering.UniqueStringsAre | raw_ingest.go:292-307 | the non-empty strings of a list, sorted and once each |
| Text.TrimSpaceIs | raw_parser.go:331-345 | trimming takes away leading and trailing spaces and nothing else |
| Text.FieldsOfJoin | context.go:149-152 | the words of words joined by spaces are those words |
| Text.LinesJoinApart | context.go:94 | joined lines can be told apart, the last of which may go on over several |
| Ordering.SortUnique | raw_ingest.go:292-307 | the loop computes them |
| ChunkIds.ItoaInjective | main.go:72-74 | decimal notation is injective |
| ChunkIds.ChunkIdInjective | main.go:72-74 | no two chunks share an id, whatever the message ids contain |
| RawIngest.HeadedUnitsSplit | raw_ingest.go:536-551 | a headed unit always gets a budget of at least 128 and its split cannot panic |
| EmbeddedSizes.BudgetIsRoom | raw_ingest.go:537-547 | a chunk fits its budget exactly when the embedded text, header included, fits the limit, where the header leaves room and a line break costs one token |
| EmbeddedSizes.EmbeddedFits | main.go:424 | every embedded text is within the limit, header included, or has one rune of its own, when the header leaves room for 128 tokens; otherwise within the header and 129 tokens |
| EmbeddedSizes.PromiseKeptIff | raw_ingest.go:537-547 | where a rune is a token, the limit holds of all texts under a header exactly when the header leaves that room |
| RawIngest.WriteChunks | lance.go:404-409 | writing chunks first keeps the store between its base and the finished run's |
| RawIngest.WriteMessages | lance.go:404-409 | writing messages after their chunks keeps it there |
| RawIngest.MessagesHaveChunks | lance.go:404-409 | in every intermediate store a message with chunk count c has chunks 0 to c-1 |
| RawIngest.MarkWritten | main.go:1005-1010 | marking units that are in place keeps marks truthful |
| RawIngest.AllMarkedIsFinished | raw_ingest.go:484-523 | a store that is partway with every unit marked is the finished store, whatever crashes happened |
| RawIngest.FilterIsPending | raw_ingest.go:499-501 | the dedup filter selects exactly the units whose hash is not marked |
| RawIngest.RerunWritesNothingIff | raw_ingest.go:495-501 | a rerun writes nothing if and only if records with one id have one hash |
| IngestRuns.AfterAppend | main.go:988-1013 | writing groups in two goes is writing them in one |
| IngestRuns.StoppedIsPartway | raw_ingest.go:484-523 | wherever a run over a consistent object stops or dies, the store is on its way from the base to the finished store, with truthful marks |
| IngestRuns.CompletesFromPartway | raw_ingest.go:484-523 | from there a run that completes leaves the store of an uninterrupted run |
| IngestRuns.FinishedTwiceIff | raw_ingest.go:495-523 | processing an object again on its finished store changes nothing if and only if records with one id have one hash |
| IngestRuns.WrittenRowsStay | raw_ingest.go:495-517 | once a unit is written, a rerun leaves the rows of its id alone |
| IngestRuns.CrashSafeIff | raw_ingest.go:484-523 | a crash after any number of groups and a rerun leave the store of an uninterrupted run if and only if records with one id have one hash and, where they are to be written, one set of rows |
| IngestRuns.StoppedIsEmbedded | raw_ingest.go:570-588 | wherever a run stops, every chunk in the store has the vector of its own text |
| IngestRuns.RawIngestor.UpsertRecords | lance.go:404-409 | with a failure or crash after any step the store is exactly that of the steps taken, and a message's chunks are always there |
| IngestRuns.RawIngestor.Flush | main.go:988-1013 | the same with marking and saving; a completed flush has marked and saved its groups; without a fault it completes |
| IngestRuns.RawIngestor.ContainerIds | raw_ingest.go:282-290 | the containers of the records, sorted and once each |
| IngestRuns.RawIngestor.IndexGroups | raw_ingest.go:534-594 | the same for splitting, embedding and writing a batch |
| IngestRuns.RawIngestor.TextsOf | raw_ingest.go:536-551 | the chunks of a unit are its split under the budget its header leaves |
| IngestRuns.RawIngestor.BuildChunks | raw_ingest.go:552-589 | the chunk rows carry the unit's id, their number and the count |
| IngestRuns.RawIngestor.IndexBatches | raw_ingest.go:502-517 | batch after batch up to the first that fails: some groups done, the next batch at some step; completed, all of them are done; without a fault it completes |
| IngestRuns.RawIngestor.Process | raw_ingest.go:484-523 | for every object, an attempt stops exactly somewhere on the way through the pending units; completed, all of them are written, marked and saved, and the registry, saved, holds the version as done with its record count and containers; unless something fails it completes if and only if the object is within the size limit, and one over the limit never completes and writes nothing |
| IngestRuns.RawIngestor.Attempt | raw_ingest.go:472-480 | an attempt and the record of its failure keep what holds between attempts |
| IngestRuns.RawIngestor.Ingest | raw_ingest.go:457-523 | after any number of failed and crashed attempts at a consistent object the one that completes leaves the store and dedup state of an uninterrupted run; for every object the version is then done in the saved registry; unless something fails an object within the limit is indexed at the first attempt, one over it never is, and every chunk keeps the vector of its own text |
| IngestRuns.RawIngestor.Scan | raw_ingest.go:457-482 | an object is processed exactly when its version is due, never when it is done, and a completed scan makes it done in the saved registry; unless something fails it completes exactly for an object within the limit, and a failed one is recorded as failed |
| IngestRuns.RawIngestor.IngestAgain | raw_ingest.go:484-523 | processing a version none of whose units is pending changes neither store nor dedup state |
| IngestRuns.RawIngestor.Crash | raw_ingest.go:484-523 | a crash falls back to the saved hashes and registry and loses nothing else |
| RepeatedIds.RepeatedIdNeverSettles | raw_parser.go:206-268 | the parse of a Pi log with two messages of one id: however it is ingested a rerun writes a unit again, and a crash before "indexed" changes the store |
| ContextUnits.ChunkGroups | context.go:44-105 | the loop over four maps computes, for each pending record, the unit that a declarative description gives it |
| ContextUnits.LeadIn | context.go:67-77 | the quoted lines are the recent ones of the chat's last two messages, and whether the replied-to line is among them |
| ContextUnits.ChatBody | context.go:67-85 | a chat record's body is its context and its own line |
| ContextUnits.Body | context.go:60-93 | a record's body is what the description says for its kind |
| ContextUnits.LeadStepAt | context.go:78-82 | the sliding window of a chat holds its last two messages |
| ContextUnits.EditIsLocal | context.go:44-105 | an edit of a Telegram message's text, author, reply, title or attributes changes at most its own unit, those of the next two messages of its chat and those of its later repliers |
| UnitLines.EditChangesHash | context.go:41-43 | an edit changes the hash of another record's unit if and only if that quotes the edited line and the line reads differently where it is cut |
| ContextUnits.SameContext | context.go:67-85 | a chat record that the edited one neither leads into nor is replied to by keeps its context |
| ContextUnits.LeadsFromLead | context.go:67-82 | an edited record is quoted only in the window of the next two messages of its chat |
| ContextUnits.ContextHeader | context.go:114-137 | every record has a non-empty header (`UnitTexts.HeaderNames` says which) |
| UnitTexts.HeaderNames | context.go:107-137 | a chat's header names its kind and title, a contact's its title or id, a session's its harness, title and project, each exactly where it is known |
| UnitTexts.HeadersDiffer | context.go:114-137 | with injective quoting two titles of one record give one header exactly when they are the same, a contact without one being named by its id |
| UnitTexts.TitleRoundTrip | context.go:139-147 | the title that a title row announces comes back from its text |
| UnitTexts.RenamingChangesHash | context.go:41-43 | while the quoted records stay, the hash of a unit whose record has no title of its own changes if and only if the last title of its container does |
| UnitTexts.RenamedIsPending | context.go:41-43 | so every such unit of a renamed session that was embedded is pending again |
| UnitTexts.NewTitle | context.go:45-50 | a further title row renames its session and leaves the other records as they are |
| UnitLines.ClipLineIs | context.go:149-156 | a quoted line is one line: all the words of a short text, or the given number of runes and an ellipsis |
| UnitLines.SessionBody | context.go:86-93 | an answer is told under the last prompt of its session before it, if that has any words; other session records and channel messages are told by themselves |
| UnitLines.LeadsAre | context.go:62-84 | the records quoted above a chat message are exactly the last two of its chat within ten minutes, in order |
| UnitLines.ChatBodyIs | context.go:62-85 | a chat message is told under the line it answers, unless that is quoted anyway, and the lines of those records, each with its author |
| TelegramParse.MergeNew | telegram.go:68-69 | appending the first version of an id keeps one item per id, its last version, in order of first appearance |
| TelegramParse.MergeKnown | telegram.go:64-67 | overwriting in place keeps it too |
| TelegramParse.MergeVersions | telegram.go:32-70 | the loop over the index map ends with exactly that |
| TelegramParse.KeepWithText | telegram.go:75-80 | filtering over the items' own array keeps exactly those with text, in order |
| TelegramParse.SortStable | telegram.go:81 | the items end sorted by time, equals in their old order |
| TelegramParse.SortOrdered | telegram.go:81 | sorting items that are in order of first appearance orders them by time and then by first appearance |
| TelegramParse.ParseIs | telegram.go:71-82 | filtering and sorting the merged items gives the parse described next |
| TelegramParse.ParseTelegram | telegram.go:31-82 | the result holds exactly the last version of each id whose text is not empty, by time and then first appearance |
| TelegramParse.OneParse | telegram.go:31-82 | there is only one such list |
| TelegramParse.RepliesNameTheirMessage | telegram.go:43-63 | a reply in the same chat and topic names the id that the message it answers gets |
| TelegramParse.EditReplaces | telegram.go:31-82 | parsing an export with one more version, with text, of a message gives the earlier parse with that version in the message's place |
| TelegramParse.ParsedEditIsLocal | context.go:44-105 | so one more line for an earlier message changes at most its own unit, the next two of its chat and its later repliers |
| TelegramParse.ParsedIdsDiffer | telegram.go:31-82 | parsed messages have distinct ids |
| TelegramParse.RowsAreLines | telegram.go:38-71 | every row comes from the last line of its message and has that line's text, sender, time, chat, answered message and attributes |
| SessionParse.FlushIsState | raw_parser.go:139-142 | writing waiting titles changes no message, session or project |
| SessionParse.PartsAreState | raw_parser.go:165-195 | the parts of a Claude message add only state rows |
| SessionParse.GrokAgrees | raw_parser.go:117-132 | a Grok line does the same with and without state rows |
| SessionParse.ClaudeAgrees | raw_parser.go:133-205 | a Claude line agrees but for state rows, waiting titles, seen titles and task calls |
| SessionParse.PiAgrees | raw_parser.go:206-268 | so does a Pi, OMP or Grok Bot line |
| SessionParse.CodexAgrees | raw_parser.go:270-302 | so does a Codex line |
| SessionParse.RunsAgree | raw_parser.go:90-308 | so do whole bodies of every harness |
| SessionParse.RowsAreWellMade | raw_parser.go:313-329 | every row of every parse has its host, harness and session in its id, the hash of its text, a non-zero time, and message rows an indexable text |
| SessionParse.FirstPromptOfMessages | raw_parser.go:54-69 | the first user message is the same among the messages as among all rows |
| SessionParse.SkippedSession | raw_parser.go:56-69 | skips exactly the sessions whose first user message opens with the skipped prompt |
| SessionParse.ParseSessionJsonl | raw_parser.go:90-308 | the loop computes the run the lemmas speak about |
| MessageContents.ContentReads | raw_parser.go:331-350 | the text of a content is the trimmed non-empty texts of its parts other than thinking and reasoning, in order, one a line, or the trimmed string |
| MessageContents.ThoughtsChangeNothing | raw_parser.go:331-350 | a parse is unchanged when thinking and reasoning parts are dropped, added or altered |
| RowOrigins.RowsAreSaid | raw_parser.go:90-308 | a parse without state rows has exactly one row for each line that says something, with the text, author, id and time of that line, in the session and project that the lines up to it name |
| RowOrigins.MessagesAreSaid | raw_parser.go:90-308 | so do the messages of a parse with state rows |
| StateRows.TitleIs | raw_parser.go:352-358 | a title is announced exactly when one of a record's five names for it is more than spaces, and it is the first such, trimmed |
| StateRows.BashIs | raw_parser.go:371-383 | a command is told exactly when it and its description are there, with both, cut after five hundred runes |
| StateRows.ResultIs | raw_parser.go:360-369 | a result is told as its content or, when that says nothing, as the first of its other values that is there |
| StateRows.TodoIs | raw_parser.go:385-408 | todos are told as the first list of them in the details, the data or the record, or else as the details or data, or else as the content |
| StateRows.RunRemembers | raw_parser.go:131-183 | after any lines of a Claude log the parser knows the time of the last line that has one and exactly the tasks that messages so far called |
| StateRows.StateRowsAreTold | raw_parser.go:90-308 | every title, todo, tool and task row of a parse tells what some line notes, under that line's id and time, and everything a line notes is told by a row or waits for a project that is never named |
| ObjectKeys.TimestampIs | raw_parser.go:447-470 | a number is a time in milliseconds or seconds by its size, with fractions cut off, a text what the library reads, and anything else no time |
| ObjectKeys.ProjectIs | raw_parser.go:436-445 | a project is the last part of the directory's path, or "unknown" when there is none |
| ObjectKeys.IdentityIs | raw_parser.go:71-77 | a key names a host and a source exactly when it is host, known source and a path that ends in .jsonl, with or without a leading slash |
| SessionParse.ParseRawObject | raw_parser.go:39-52 | dispatches on the key's source, with the errors of bad keys and failed scans |
| SessionParse.StateRowsChangeNothing | raw_parser.go:31-52 | keeping only messages of a parse with state rows gives exactly the rows, order, skip decision and errors of the parse without |
| SessionParse.MessagesAreTheParse | raw_parser.go:31-52 | the same for every object, Telegram exports included |
| LogTurns.CompleteLength | cmd/tireless/index/parse.go:240-244 | the consumed prefix ends a line and no newline is left after it |
| LogTurns.SplitAppend | cmd/tireless/index/parse.go:245 | splitting at newlines may be done on both sides of a line end |
| LogTurns.ParseLinesAppend | cmd/tireless/index/parse.go:235-255 | parsing lines may stop and go on with what it carries |
| LogTurns.OnePassAppend | cmd/tireless/index/parse.go:235-255 | parsing bytes may stop at any line end and go on: turns concatenate and the carried state is the same |
| LogTurns.CarriedStays | cmd/tireless/index/parse.go:159-232 | a container or project once known is never cleared, and only Codex lines add seen keys |
| LogTurns.CodexForgets | cmd/tireless/index/parse.go:219-231 | forgetting a Codex log's seen keys loses no turn and sends one again if and only if a later line repeats a key |
| LogTurns.TurnsFromAnotherStart | cmd/tireless/index/parse.go:159-172 | starting from another container or project changes the turns if and only if a turn precedes the line that names it |
| LogTurns.FileState.ParsePi | cmd/tireless/index/parse.go:159-191 | updates the state and returns the turn as the step function says |
| LogTurns.FileState.ParseCodex | cmd/tireless/index/parse.go:193-232 | the same for Codex |
| LogTurns.FileState.ParseLine | cmd/tireless/index/parse.go:139-148 | the same for a line of either, undecodable ones ignored |
| LogTurns.FileState.ReadTurns | cmd/tireless/index/parse.go:235-255 | consumes exactly the complete lines and returns their one-pass turns and state |
| TurnOrigins.CwdNamesProject | cmd/tireless/index/parse.go:38-48 | the project of a directory is the last part of its path |
| TurnOrigins.TurnsAreTold | cmd/tireless/index/parse.go:123-255 | the turns of a pass from any start are those of its sendable lines, of a Codex log the first of each key, each with the text, author, time and key of its own line, in the session and project last named before it or those of the start |
| TurnOrigins.OneTurn | cmd/tireless/index/parse.go:123-137 | that determines the turn of a line |
| SyncCursor.ScanKeepsFaithful | cmd/tireless/index/sync.go:54-113 | a successful scan leaves a cursor at a line end that stands for one pass over the bytes before it |
| SyncCursor.CatchesUp | cmd/tireless/index/sync.go:60-73 | the bytes consumed are the file's complete lines if and only if the file still begins with those consumed before or has shrunk |
| SyncCursor.IncrementalIsOnePass | cmd/tireless/index/sync.go:54-113 | over any appends, scans and failed posts the turns sent by cursor-advancing scans are the one-pass turns of the bytes before the offset |
| SyncCursor.RotationKeepsNames | cmd/tireless/index/sync.go:63-79 | when parsing a shrunken file with the old names is harmless |
| SyncCursor.Syncer.PostAll | cmd/tireless/index/sync.go:96-109 | batches are acknowledged in order up to the first that fails; without a fault all are |
| SyncCursor.Syncer.ScanFile | cmd/tireless/index/sync.go:54-113 | the cursor moves, to the described place, only when every turn was posted; an unchanged, unreadable or unposted file leaves it; without a fault a readable file's turns are all posted |
| SyncCursor.Syncer.Save | cmd/tireless/index/cursor.go:53-71 | the file becomes the cursors in memory or stays as it was; without a fault it is written |
| SyncCursor.Syncer.Once | cmd/tireless/index/sync.go:115-160 | every turn before every cursor stays acknowledged, and a poll that ends well leaves nothing unsaved; without a fault the cursors and the turns acknowledged are those of one look at each listed file in order |
| SyncCursor.Syncer.Watch | cmd/tireless/index/sync.go:162-176 | the same over any history of polls, failures and restarts; without a fault restarts make no difference, and what is acknowledged is the turns of all looks in order |
| SyncCursor.PolledAppend | cmd/tireless/index/sync.go:115-160 | looking at files in two goes is looking at them in one |
| SyncCursor.PolledAt | cmd/tireless/index/sync.go:115-160 | a file listed once ends with the cursor that its one look gives it |
| Sql.QuoteRoundTrip | lance_sql.go:13-15 | a printed literal scans back as its value, for every value |
| Sql.PlainQuoteIff | lance_sql.go:13-15 | in a dialect without backslash escapes it would if and only if the value has no backslash |
| Sql.ItoaDigits | lance_sql.go:47-50 | printed numbers read back |
| SqlReading.ClauseReads | lance_sql.go:36 | a printed comparison reads as that comparison, whatever follows it |
| SqlReading.AndReads | lance_sql.go:21-31 | a parenthesised conjunction reads as one condition |
| SqlReading.OrReads | lance_sql.go:49-51 | so does a parenthesised disjunction |
| SqlReading.JoinedKeeps | lance_sql.go:61-69 | a where clause of joined pieces keeps the rows that all pieces keep |
| FilterSql.FilterStands | lance_sql.go:17-37 | every filter with string values prints one readable condition with its meaning, or nothing when it matches everything |
| FilterSql.PrintedMeansFilter | lance_sql.go:17-37 | scanning and parsing the printed filter gives a predicate equal to the in-memory matcher on every row |
| FilterSql.LeafMeansIff | mem.go:142-160 | for a filter without non-empty parts that holds if and only if it is plain: its field is unknown, or it compares with a string or a value that prints as nothing, and no empty list of parts hides a comparison |
| FilterSql.PrintedMeansShown | lance_sql.go:17-37 | what any filter prints keeps what the matcher keeps of the filter it shows: values as the text they print as, blank comparisons and those beside parts left out |
| FilterSql.LanceFilterSql | lance_sql.go:17-37 | the recursive printer prints that text |
| FilterSql.SqlOf | lance_sql.go:21-36 | the loop over parts collects the non-empty ones |
| FilterSql.EqFilters | main.go:809-824 | the filter matches exactly the rows that have every non-empty value |
| FilterSql.ColumnsAre | lance_sql.go:8-12 | each field name that a filter may use stands for its own part of a row |
| FilterSql.AppendFilter | main.go:896-906 | the result matches exactly the rows both filters match |
| CursorSql.LanceCombineSql | lance_sql.go:61-69 | joins the non-empty parts |
| CursorSql.CursorStands | lance_sql.go:39-52 | the cursor prints nothing or one readable condition, with its meaning on every row |
| CursorSql.CursorAgreesIff | lance_sql.go:39-52 | the SQL keeps what the predicate keeps, except exactly for an id-less row at an id-less cursor's second |
| CursorSql.BeforeReads | lance_sql.go:54-59 | the upper bound prints as its meaning |
| CursorSql.WhereMeansSearch | lance.go:485 | the whole where clause of a plain filter, a cursor and a bound keeps a row with an id exactly when the in-memory search does |
| Pagination.CursorResumesIff | mem.go:35-46 | a row's own cursor selects exactly the later rows if and only if its timestamp is positive |
| Pagination.Sorted | mem.go:48-75 | collecting in any order and sorting gives all selected rows in order, each once |
| Pagination.FirstOfPage | mem.go:75-77 | cutting at the limit leaves the first rows |
| Pagination.WalkGoesOn | mem.go:48-78 | after each page what has been walked is what is not after its last row, and fewer rows are left |
| Pagination.MemStore.Upsert | mem.go:24-33 | replaces rows by id |
| Pagination.MemStore.ByContainer | mem.go:48-78 | returns the first rows, by time and id, among those selected after the cursor |
| Pagination.MemStore.Search | mem.go:80-140 | so does a search without vector or text, among the rows that the filter matches before the bound |
| Pagination.OnePage | mem.go:48-78 | a page is determined by its rows, query, cursor and limit |
| Pagination.MemStore.Walk | mem.go:48-78 | walking pages ends and returns every matching row exactly once, in order |
| Pagination.LancePage | lance.go:479-557 | a Lance search without vector or text returns, for any filter, cursor, bound and limit, the first rows of what the filter shows, ten without a limit |
| Pagination.SearchesAgree | lance.go:479-557 | with a plain filter and a limit both stores return the same page |
| RecordWalk.SortRowsSorts | raw_ingest.go:396-402 | sorting keeps the rows and leaves none before an earlier one |
| RecordWalk.SelectOfMessages | raw_ingest.go:374-391 | when only messages are wanted, selecting among the messages selects the same rows |
| RecordWalk.ParseChoice | raw_ingest.go:353-373 | so the choice of parsing with or without state rows changes neither the selected rows nor the errors |
| RecordWalk.SelectRows | raw_ingest.go:374-391 | selects the rows of the container, host, source and kinds after the cursor, in order |
| RecordWalk.WalkObjects | raw_ingest.go:352-407 | the answer is one that parsing every object in full, selecting, sorting by time and id and cutting allows, or a failure when one read or parse fails |
| RecordWalk.ContainerKeys | raw_ingest.go:309-337 | in order, the keys of the indexed objects that list the container or, when there is none, the listed keys that carry its id; an error when they cannot be listed |
| ObjectKeys.CarriesIs | raw_ingest.go:318-334 | a listed key is walked exactly when it names the host and the source asked for and has in it the container's id up to the first colon |
| RecordWalk.ContainerRecordWalk | raw_ingest.go:347-407 | a walk answers so for the objects at those keys |
| RecordWalk.IndexedIsFound | raw_ingest.go:253-280 | an indexed object is found through each container it lists |
| RecordWalk.OneWalk | raw_ingest.go:396-405 | there is only one such answer unless two different rows share time and id |
| CollapseHits.GreedySelects | main.go:908-944 | the kept hits do not conflict, and every skipped one conflicts with an earlier kept one |
| CollapseHits.OneSelection | main.go:908-944 | there is only one such selection |
| CollapseHits.GreedyGrows | main.go:908-944 | what is kept so far does not depend on later hits |
| CollapseHits.CollapsedApart | main.go:908-944 | shown hits have distinct ids, distinct non-empty bodies, and chat moments more than ten minutes apart |
| CollapseHits.RemembersConflict | main.go:922-934 | the remembered parents, bodies and moments decide exactly whether a hit conflicts with a kept one |
| CollapseHits.NearMoment | main.go:946-953 | finds whether a kept moment is within ten minutes |
| CollapseHits.CollapseChunkHits | main.go:908-944 | computes the greedy selection, and under a limit k its first k hits |
| CollapseHits.KeepFirstOfMessages | lance.go:569-590 | for each of the first so many messages, in rank order, its highest-ranked row stays |
| CollapseHits.SelectCollapsed | lance.go:561-620 | returns those rows in rank order with their scores, or the plain ranking when one is gone |
| V4Ids.PiecesInjective | lance_sql.go:80 | a path is determined by its pieces |
| V4Ids.V4IdsCollide | lance_sql.go:76-87 | two non-empty paths share an id if and only if one is the plain twin of the other |
| MigratedIds.PiecesAdd | lance_sql.go:80 | joining paths adds up their pieces |
| MigratedIds.StateIdIsParsedId | lance_sql.go:76-87 | the v4 path of a title, todo, tool or task row is the id the raw parser gives it, and its kind comes out if and only if no part holds a slash |
| MigratedIds.MessageIdIsParsedIdIff | lance_sql.go:76-87 | the /message/ path of a message maps to its parsed id if and only if no part holds a slash |
| MigratedIds.PlainPathStaysIff | lance_sql.go:76-87 | a message's plain path stays its id if and only if it does not itself read as a /message/ path |
| MigratedIds.MigratedRowIsParsedRowIff | lance.go:825-834 | a migrated message row is the parsed one but for its hash, its chunk count and a timestamp of zero, if and only if no part of its path holds a slash |
| MigratedIds.NothingPendingIff | lance.go:641-647 | when every unit's row was migrated with a hash, ingestion has nothing to do if and only if each of those hashes is the unit's own |
| MigratedIds.TextHashesSettleNothing | lance.go:641-647 | a session unit whose row was migrated with the hash of its bare text is pending again |
| PostedTurns.MadeAlike | cmd/tireless/index/parse.go:123-137 | a posted turn and a parsed row made from the same parts agree in id, text, session, project, author, time and origin |
| PostedTurns.PostedTurnIsParsedRow | cmd/tireless/index/parse.go:173-191 | from the same session and project a Pi or OMP message with an id is posted if and only if parsing gives it a row, and they agree in all of that unless its times differ |
| Migration.UpsertAt | lance.go:411-421 | a batch leaves at each id the image of its last row for that id |
| Migration.ImagesKeep | lance.go:820-845 | a migrated chunk keeps its vector and place and belongs to the message of its path; both kinds keep text, hash, origin, session, project, author and time |
| Migration.MarkAt | main.go:344-349 | and under each key the hash of that row |
| Migration.CoversMore | lance.go:717-733 | copying rows after an offset, again after a crash or for the first time, extends what is covered |
| Migration.CoversMoreMarks | lance.go:725-729 | so does marking them |
| Migration.StaysExplained | lance.go:717-724 | a table never holds anything but what it held before and images of unshadowed rows |
| Migration.KeysAreIds | lance.go:717-746 | a full copy leaves exactly the ids that were there and those of the unshadowed rows |
| Migration.AllWrittenIff | lance.go:717-746 | it holds the image of every unshadowed row if and only if rows of one id have one image |
| Migration.CountPassesIff | lance.go:736-744 | the final row count suffices if and only if no fewer unrelated rows were there than rows were lost to shared ids; always for distinct ids, and into an empty table only for them |
| Migration.CollisionGoesUnnoticed | lance.go:736-744 | into a table with any other row two rows of one path pass the count, though the first is lost |
| Migration.MessagesStayDistinct | lance_sql.go:76-87 | distinct non-empty paths keep message ids distinct |
| Migration.ChunksStayDistinct | lance.go:825-841 | chunks of migrated messages keep distinct ids |
| Migration.ShadowedPaths | lance.go:691-697 | collects the plain twins of all message paths |
| Migration.ExpectedRows | lance.go:698-703 | counts the unshadowed rows |
| Migration.V4Items | lance.go:820-845 | the images of the unshadowed rows of a batch, in order |
| Migration.Migrator.constructor | lance.go:635-648 | starts from whatever tables, hashes and checkpoint earlier runs left |
| Migration.Migrator.Fresh | lance.go:635-648 | without a checkpoint file starts on whatever the tables and hashes hold |
| Migration.Migrator.UpsertTable | lance.go:411-421 | a batch is written whole or not at all, and the checkpoint stays truthful; without a fault it is written |
| Migration.Migrator.MarkMessages | main.go:344-349 | marks a batch and saves the hashes, or leaves the saved ones as they were; without a fault they are saved |
| Migration.Migrator.CopyPart | lance.go:660-746 | whatever fails, the saved offset covers only rows written and, for messages, marked; when nothing does, the copy reaches the end and succeeds exactly when the count suffices |
| Migration.Migrator.MigrateFrom | lance.go:635-749 | one run from the checkpoint, ended by any failing step; without one it completes exactly when both counts suffice; a complete migration changes nothing |
| Migration.Migrator.Runs | lance.go:635-749 | however often it was crashed and resumed, a completed migration into any tables holds what was there and the last image of every id, each marked; all unshadowed rows if and only if rows of one id have one image, so always for distinct ids |

## Left out

- ObjectMetadata.MetaRoundTrip: does not model the UTF-8 check of a decoded tag; tags are byte strings.
- CacheStore.DiskCacheStore.GetCachedRanges: reads the ranges one after another; the source reads them concurrently, which `SingleFlight` covers for single ranges.
- Multipart puts, warm-up scheduling, metrics and other namespaces of the cache; temporary files, torn writes and failed removals: a rename is one step.
- Saturation of `total_bytes` and overflow of byte offsets; saturation of the clock is modelled.
- The meaning of conditional reads: they are passed to the backing store.
- HTTP pushes into the same dedup state, and deleting a host's rows: raw ingestion is the only writer.
- The `memory://` branch of `flush`, and how embedding requests are grouped: one result per text.
- IngestRuns.RawIngestor.Scan: one object; the listing, and the loop over it, are not modelled.
- Conversion of invalid UTF-8 to replacement runes.
- SyncCursor.Syncer.ScanFile: without `-limit`; the container that a file name suggests, timestamps and joined contents come from parameters.
- LogTurns.FileState.ParseCodex: the text hash is any function.
- A path listed under two roots with different sources.
- SessionParse.ParseSessionJsonl: the body arrives decoded line by line; the file stem and the working directory in a Grok key are parameters.
- StateRows.StateRowsAreTold: leaves open in which session and project a row is written; `RowOrigins.MessagesAreSaid` says it of messages, which are written the same way.
- EmbeddedSizes.EmbeddedFits: counts the embedded text without the document prefix, which the setting does not cover.
- TelegramParse.SortStable: is an insertion sort; the library's block merge is another stable sort with the same result.
- Pagination.Sorted: inserts into a sorted list; the library sorts in place, and with distinct ids the result is the same.
- RecordWalk.ContainerKeys: a listing names each key once.
- FilterSql.LeafMeansIff: values other than strings and nil are known only by how they print.
- Migration.Migrator.CopyPart: assumes the pinned snapshot is read in one order, that chunk indexes are not negative and that a merge insert is one step.
- A merge insert whose batch holds one id twice is taken to keep the last row; the source leaves that to the store. `Migration.AllWrittenIff`, `Migration.CollisionGoesUnnoticed` and the runs of `IngestRuns` rest on it where ids repeat.
- Vector distance, BM25 and rank fusion scores; `interleave`, `pick` and the query slots.
- HTTP handlers, S3 and Lance clients, flags, the exporter, the uploader and the deployment files.
