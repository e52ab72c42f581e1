# GoMigrate, modelled and verified in Dafny

GoMigrate copies tables between databases with a concurrent pipeline that checkpoints its
progress, and backs tables up to object storage as Parquet chunks under a manifest. This
project models the algorithms that make those two operations safe and proves what they
guarantee. `dafny verify dfyconfig.toml` checks everything.

## The parts

- **Migration pipeline** (`Pipeline*.dfy`, `Orchestrator.dfy`, `Ranges.dfy`). One run of
  `Migrate` is a state machine whose actions are the atomic steps of its goroutines: a channel
  operation (a hand-over on an empty channel included), a return, one call to the target, the
  dead-letter file or the checkpoint store. Any number of readers, transformers and writers,
  any channel capacity (0 included), any interleaving, cancellation at any point, write errors
  that applied any part of a batch. A run is a sequence of states; what survives a crash is its
  last `disk`. Proved for every run: channel safety, conservation of records, termination, when a
  batch leaves and which are checkpointed. Three
  promises hold under conditions, each given exactly. `HangsIff`: some run hangs if and only if
  there are more records than one channel holds. `LowWaterMarkIff`: checkpoints are low-water
  marks, among configurations that can write, for exactly those with one transformer, one writer
  and a dead-letter queue that does not fail. `NeverBackwardsIff`: for these, stored offsets never
  move backwards if and only if the attempt could list the checkpoints or nothing lies below one.
  After any history of crashed attempts of such configurations one run that returns nil leaves
  nothing behind. The loops of `Migrate` and `saveCheckpoints` are methods over the checkpoint
  store, proved against what the state machine does.
- **Checkpoint store** (`ByteOrder.dfy`, `Bucket.dfy`, `CheckpointStore.dfy`,
  `NestedStore.dfy`, `GarbageCollector.dfy`). A map keyed by operation and partition, kept in
  one bucket ordered by byte string. Its cursor loops are proved to visit one contiguous
  interval. `RefinesIff`: over all sequences of calls about a set of operations it answers as the
  nested map would if and only if no id of the set followed by a colon begins another, as is so
  for ids without a colon (`ColonFreeIdsAreApart`), the only ones the command line makes.
- **Backup and restore** (`BackupValues.dfy`, `ParquetSerializer.dfy`, `BackupEngine.dfy`,
  `RestoreEngine.dfy`, `BackupRoundTrip.dfy`, `CodecWitness.dfy`). Row groups, chunks and restore batches regroup
  the same rows three times; the round trip, the manifest as root of trust at every byte
  written to storage, and what a damaged storage can give are proved over all of it.
- **Partition arithmetic** (`PostgresReader.dfy`, `CassandraReader.dfy`, `MongoReader.dfy`).
  Exact-cover theorems, for PostgreSQL in wrapping 64-bit arithmetic.
- **Circuit breaker** (`CircuitBreaker.dfy`), **retry** (`Retry.dfy`), **masking**
  (`SchemaMapper.dfy`), **flattening** (`Flattening.dfy`), **Cassandra writes**
  (`CassandraWriter.dfy`).

Objects whose methods update them are classes (`Store`, `Serializer`, `ChunkManager`,
`Storage`, `Target`, `Breaker`, `Session`, `Document`, `Output`); loops are loops with
invariants. The clock, random numbers, the outcomes of calls to databases and storage, the
compressor's byte counts and the order in which Go visits a map are parameters or
nondeterministic choices. Lemmas for which Dafny would try induction by itself carry
`{:induction false}`: every induction here is written out.

## Assumptions

- Offsets and partitioning keys are integers. A string stands for Go's: a sequence of bytes, one
  `char` each, so lengths, order and slices are those of bytes.
- A nil error of `WriteBatch` means the whole batch was applied; an error means any part was.
- Sources close their channel. The resume theorems ask that each partition is delivered in
  weakly ascending offset order, which Cassandra's token scan and MongoDB's sort provide and
  the PostgreSQL query, which has no ORDER BY, does not promise.
- `BackupEngine.Lawful` has three parts, and each theorem asks only for those it uses: a manifest
  reads back and does not parse when cut short (`ManifestLaws`), what Zstandard and Parquet write
  they read back (`FileLaws`), and record batches are as wide as their file (`WellFormedFiles`).
  `CodecWitness.LawfulCodecExists` exhibits a codec that meets them all. The theorem about damage
  asks that no replaced object has the digest of the genuine one (`NoForgery`).

## Where the code differs from its documentation

The model follows the code.

- PLAN.md (section 9.2) resumes with the keys above `LastCommitted`; the code includes the key
  itself, and `CrashResumeLosesNothing` needs that when rows share an offset.
- docs/database-migration.md speaks of the highest offset of a batch; the code stores the last.
- The comment on `StateHalfOpen` promises a single trial request. A late completion of an earlier
  call, failure or success, makes room for a second one, and nothing else does (`OneTrialIff`,
  `TwoTrialsInFlight`).
- `Migrate` ignores an error of `ListPartitions` and starts over, which moves stored offsets back
  (`NeverBackwardsIff`).
- The comment on the Murmur3 split includes the token 2^63-1, which no range reads (`TokenCover`).
- The comment on chunk sizes speaks of a limit; the check follows the write, so a chunk ends at
  the first record that reaches it (`RotatesAtTheLimit`).

## Model

| member | source | states |
|---|---|---|
| PipelineSafety.StepInv | internal/pipeline/orchestrator.go:124-285 | every step of every goroutine keeps the invariant: channels closed only after all their senders have returned, capacities respected, stopped stages empty unless the run has failed |
| PipelineSafety.RunInv | internal/pipeline/orchestrator.go:105-121 | the invariant holds at every point of every run, for any number of goroutines |
| PipelineSafety.ChannelSafety | internal/pipeline/orchestrator.go:124-238 | no reachable state, cancelled or not, enables a send on a closed channel or a second close |
| PipelineBatches.RunBatched | internal/pipeline/orchestrator.go:198-238 | at every point of every run a transformer that collects has less than batchSize records, and every batch being sent, queued, written or retried has at least one and at most batchSize; with batchSize 0, exactly one |
| PipelineBatches.BatchLeavesIff | internal/pipeline/orchestrator.go:207-235 | at every step of every run a collected batch begins to leave if and only if the record that fills it has come, or on a tick, or at the end of recordCh |
| PipelineBatches.CheckpointsEveryNth | internal/pipeline/orchestrator.go:251-280 | in every run a writer begins to store checkpoints exactly after each N-th batch written at the first attempt, N being FlushEveryNBatches or ten, and those of that batch |
| PipelineBatches.ChannelsBounded | internal/pipeline/orchestrator.go:107-108 | at no point does recordCh hold more than NumReaders times BatchSize records, or batchCh more than twice NumWriters batches |
| PipelineErrors.NilMeansNoSourceFailed | internal/pipeline/orchestrator.go:159-179 | a nil return means that no ReadPartition has returned an error, not even after its last record |
| PipelineErrors.FailureHasCause | internal/pipeline/orchestrator.go:116-121 | a run fails only when a source has failed or the caller has cancelled; no failing write, dead letter or checkpoint does it |
| PipelineErrors.SourceMayFail | internal/pipeline/orchestrator.go:159-161 | a run can go on with the failure of any source that has not closed its channel |
| PipelineConservation.StepConserves | internal/pipeline/orchestrator.go:143-303 | every step keeps the multiset of unread, queued, held, batched, written, dead-lettered and dropped records, mapped |
| PipelineOutcome.Conservation | internal/pipeline/orchestrator.go:124-303 | at every point of every run that multiset is exactly the source of the selected partitions |
| PipelineOutcome.OneDispositionEach | internal/pipeline/orchestrator.go:116-121 | a nil return with at least one transformer has given every selected record exactly one disposition |
| PipelineOutcome.NilReturnMeansDone | internal/pipeline/orchestrator.go:182-195 | a nil return means every record has its disposition if and only if there is a transformer or nothing to read |
| PipelineOutcome.NoTransformerLosesARow | internal/pipeline/orchestrator.go:182-195 | a run without transformers that returns nil with its one row nowhere |
| PipelineOutcome.CompleteRunSettles | internal/pipeline/orchestrator.go:250-303 | after a nil return every selected record is in the target or the dead-letter queue |
| PipelineOutcome.ScheduleIndependent | internal/pipeline/orchestrator.go:198-303 | target keys and dead-lettered ids are together the source ids, and every key holds its row mapped exactly once, under every schedule and every pattern of partial writes |
| PipelineOutcome.SameTarget | internal/adapter/mongo/writer.go:18-54 | two complete runs without dead letters leave the same upsert target, whatever their concurrency settings |
| PipelineProgress.StepDecreases | internal/pipeline/orchestrator.go:143-285 | every step, of a failing or cancelled run too, uses up some of a measure over records by stage and live goroutines |
| PipelineProgress.Termination | internal/pipeline/orchestrator.go:105-121 | a run has no more steps than its first state has weight |
| PipelineProgress.HungInFlush | internal/pipeline/orchestrator.go:207-212 | with transformers, a state that is not finished and has no step of its own has a full batchCh and a transformer in a send that does not watch the context; with writers too, it has been cancelled |
| PipelineProgress.HungInSend | internal/pipeline/orchestrator.go:124-179 | without transformers it has a full recordCh and a reader blocked before it |
| PipelineHang.HangsIff | internal/pipeline/orchestrator.go:105-121 | for every configuration, table and disk, some run hangs if and only if there are more selected records than twice NumWriters, or than NumReaders times BatchSize when there is no transformer |
| PipelineHang.UndisturbedCompletesIff | internal/pipeline/orchestrator.go:105-121 | without a source error, a cancellation or a failed write every run that has come to rest has returned nil if and only if there are transformers and writers or the records fit into that channel; such a run always exists |
| PipelineOrder.StepKeepsOrder | internal/pipeline/orchestrator.go:198-238 | with one transformer and one writer a step removes the next records of the stream and nothing else, so every partition keeps a suffix of what it had |
| PipelineResume.MarkIsLast | internal/pipeline/orchestrator.go:306-315 | a batch's mark for a partition is the offset of its last record there and the number of its records |
| PipelineResume.MarkSettles | internal/pipeline/orchestrator.go:306-334 | when nothing left in a partition lies below a mark, everything below it is in the target or the dead-letter queue |
| PipelineResume.StepQueued | internal/pipeline/orchestrator.go:198-334 | every step keeps the low-water-mark invariant, half-done checkpoint writes included |
| PipelineResume.SettledOrReread | internal/pipeline/orchestrator.go:73-95 | a record is settled or belongs to what the next attempt reads, because the restart includes the stored offset |
| PipelineResume.CrashSafe | internal/pipeline/orchestrator.go:53-121 | after any sequence of crashed attempts every stored offset is a low-water mark and the target holds mapped source rows only |
| PipelineResume.CrashResumeLosesNothing | internal/pipeline/orchestrator.go:73-95 | any sequence of crashed attempts followed by one run that returns nil leaves every record of every partition in the target or the dead-letter queue |
| PipelineMonotone.NeverBackwards | internal/pipeline/orchestrator.go:306-334 | within an attempt that could list the checkpoints, or where no record lies below one, no stored offset ever decreases or disappears |
| PipelineMonotone.NeverBackwardsAcrossCrashes | internal/pipeline/orchestrator.go:73-95 | nor does it across any sequence of crashed attempts of that kind |
| PipelineMonotone.StartsOver | internal/pipeline/orchestrator.go:75 | otherwise, for every such record, an attempt that could not list the checkpoints and moves the stored offset back |
| PipelineMonotone.NeverBackwardsIff | internal/pipeline/orchestrator.go:75-95 | for every table, partitioning and disk of low-water marks, attempts never move an offset back if and only if they list the checkpoints or no record lies below one |
| PipelineMark.LowWaterMarkIff | internal/pipeline/orchestrator.go:250-334 | checkpoints are low-water marks in all runs if and only if there is one transformer, one writer and a dead-letter queue that does not fail, or nothing can be written at all |
| PipelineMark.Overtaken | internal/pipeline/orchestrator.go:277-280 | for every other configuration, a run that checkpoints past a record that is nowhere |
| Ranges.ResumeKeepsDisjoint | internal/pipeline/orchestrator.go:83-95 | moving starts to offsets read from their own ranges never makes two ranges hold one key |
| Ranges.EachRowOnce | internal/pipeline/orchestrator.go:124-179 | over partitions that cover a table's keys exactly the source is each row once |
| Ranges.CoveredTableIsMigrated | internal/pipeline/orchestrator.go:53-121 | a first run over such partitions that returns nil has given each row of the table exactly one disposition |
| Orchestrator.SelectPartitions | internal/pipeline/orchestrator.go:73-95 | the loops of the resume filter compute, from the listing of the store, the selection the state machine starts from |
| Orchestrator.CollectMarks | internal/pipeline/orchestrator.go:308-315 | the two maps filled in one loop are the marks of the batch |
| Orchestrator.SaveCheckpoints | internal/pipeline/orchestrator.go:306-334 | in any map order, with any reads and writes failing, exactly the marked partitions of this operation whose save succeeds move, and no other operation changes |
| Orchestrator.SavedCheckpoint | internal/pipeline/orchestrator.go:308-329 | for one partition: the offset of the last of the batch's records of it, and their number added to the rows read, with the status read or in_progress; nothing if the batch has none or the save fails |
| Orchestrator.MarkingIsOrderIndependent | internal/pipeline/orchestrator.go:317-333 | the steps a writer of the state machine takes for its marks have that same effect, in any order |
| CassandraWriter.Session.WriteBatch | internal/adapter/cassandra/writer.go:32-71 | what reaches the target, and the count returned, when some sub-batch of 100 fails after applying any of its rows |
| CassandraWriter.WrittenIsFirstFailure | internal/adapter/cassandra/writer.go:40-68 | the count is where the first failing sub-batch starts, or the whole batch |
| CassandraWriter.WriteBatchIsWriterStep | internal/adapter/cassandra/writer.go:32-71 | so WriteBatch is a target as the pipeline assumes one: all of the batch, or an error and some of it |
| SchemaMapper.MapRecord | internal/migration/schema_mapper.go:41-56 | the loop keeps the columns; one without a rule keeps its value, and one with a rule holds what its last rule leaves: the digest of the printed value before, "[REDACTED]", "****" and the last four of more than four bytes, or for any other strategy that value |
| SchemaMapper.LastRuleDecides | internal/migration/schema_mapper.go:181-199 | the same of the mapping the pipeline applies, the value before being what the earlier rules leave |
| SchemaMapper.MaskedAlikeIff | internal/migration/schema_mapper.go:181-199 | two records end up alike in a column if and only if its last rule cannot tell them: equal digests, redaction, the same last four bytes or at most four each, or equal values |
| SchemaMapper.MaskByColumn | internal/migration/schema_mapper.go:41-56 | masking adds and removes no column and decides each from its own value and its own rules |
| SchemaMapper.RedactionHidesValue | internal/migration/schema_mapper.go:181-199 | records that differ only in redacted columns become the same record, whatever other rules there are |
| SchemaMapper.UnmaskedColumn | internal/migration/schema_mapper.go:49-53 | a column without a rule keeps its value |
| CheckpointStore.ScanIsInterval | internal/checkpoint/store.go:123-146 | from Seek to the first key without the prefix lie exactly the keys with it |
| ByteOrder.BelowIff | internal/checkpoint/store.go:130-143 | the key order the scans rely on: a proper prefix first, else the lesser byte at the first difference |
| CheckpointStore.Store.ListPartitions | internal/checkpoint/store.go:123-146 | the cursor loop returns every entry with the operation's prefix, in key order, and no other |
| CheckpointStore.Store.SaveMeta | internal/checkpoint/store.go:63-72 | the meta bucket changes at that id only, the partitions not at all |
| CheckpointStore.Store.GetMeta | internal/checkpoint/store.go:75-89 | looks the id up in the bucket seen as a map, absent included |
| CheckpointStore.Store.SavePartition | internal/checkpoint/store.go:92-101 | the partition bucket changes at that key only, the metas not at all |
| CheckpointStore.Store.GetPartition | internal/checkpoint/store.go:104-120 | looks the key up in the bucket seen as a map, absent included |
| CheckpointStore.Store.DeleteOperation | internal/checkpoint/store.go:175-197 | collecting keys with a cursor and deleting them one by one removes the meta and every key with the prefix |
| CheckpointStore.RemoveKeyed | internal/checkpoint/store.go:175-197 | seen as maps, that is one key of one and the keys with the prefix of the other |
| NestedStore.KeyInjective | internal/checkpoint/store.go:199-201 | among ids of which none followed by a colon begins another, a key belongs to one operation and one partition |
| NestedStore.ScanMeets | internal/checkpoint/store.go:203-205 | for any ids, exactly when a scan for one operation meets a key of another |
| NestedStore.StepRefines | internal/checkpoint/store.go:63-197 | each call about such ids answers as the nested map would and keeps the two related |
| NestedStore.StoreRefinesNestedMap | internal/checkpoint/store.go:63-197 | so does every sequence of calls |
| NestedStore.RefinesIff | internal/checkpoint/store.go:63-205 | for every set of ids, the store answers every sequence of calls about them as the nested map would if and only if none of them followed by a colon begins another |
| NestedStore.ListsForeign | internal/checkpoint/store.go:203-205 | if one does, listing the shorter id's partitions gives one of the longer's |
| GarbageCollector.GC | internal/checkpoint/gc.go:15-46 | the loop over a listing taken before it removes the stale operations one after another |
| GarbageCollector.GcKeepsFreshMetas | internal/checkpoint/gc.go:15-46 | exactly the metas with a start not before the cutoff remain |
| GarbageCollector.GcRemovesOnlyCollected | internal/checkpoint/gc.go:29-43 | among such ids, a partition remains if and only if its operation was not collected |
| GarbageCollector.GcIdempotent | internal/checkpoint/gc.go:15-46 | collecting twice with one cutoff is collecting once |
| CheckpointStore.Store.ListAllMetaIDs | internal/checkpoint/gc.go:50-64 | all ids of the meta bucket, in key order |
| BackupValues.ComesBackIff | internal/backup/parquet_types.go:31-100 | what is read back from a column of each declared type: an integer of any Go width keeps its number, a float64 in an integer column is truncated, a float32 or int64 in a float column becomes its float64, an instant is cut down to the microsecond in UTC, an int64 in a timestamp column counts microseconds, anything in a text column is its printed form; and exactly which values fail |
| BackupValues.LosslessIff | internal/backup/parquet_types.go:48-100 | a value comes back as it was if and only if it is native to its column's type, which for a time means whole microseconds in UTC |
| BackupValues.NormalisedIsNative | internal/backup/parquet_types.go:48-100 | whatever encodes comes back native, so normalising twice is normalising once |
| ParquetSerializer.BuildBatch | internal/backup/parquet_serializer.go:98-129 | the column-major record batch fails exactly when some field of some row does, and otherwise reads back row by row as the encoded rows |
| ParquetSerializer.Serializer.Open | internal/backup/parquet_serializer.go:53-67 | fails exactly when already open, and starts a stream that holds no rows |
| ParquetSerializer.Serializer.Serialize | internal/backup/parquet_serializer.go:70-79 | the stream holds one more row, in full row groups and a buffer; it fails exactly when closed, unchanged, or when the buffer is full and does not encode, and then the row stays in the buffer |
| ParquetSerializer.Serializer.Flush | internal/backup/parquet_serializer.go:98-129 | the buffered rows become one row group, or stay as they were |
| ParquetSerializer.Serializer.Close | internal/backup/parquet_serializer.go:82-94 | afterwards the stream's row groups are all rows since Open, in order |
| BackupEngine.ChunkNamesDistinct | internal/backup/engine.go:163-164 | chunk names are injective in the index, beyond four digits too, and none is the manifest's |
| BackupEngine.ChunkNameIs | internal/backup/engine.go:163-164 | "chunk-", the index in at least four decimal digits and no more than needed, ".parquet.zst" |
| BackupEngine.RotateKeepsRows | internal/backup/engine.go:180-197 | chunks and open chunk together are all records added, in order, and no chunk is empty |
| BackupEngine.RotatesAtTheLimit | internal/backup/engine.go:187-195 | each chunk ends at the first of its records after which the bytes written reach the limit, and the open one has not reached it |
| BackupEngine.ChunkManager.OpenChunk | internal/backup/engine.go:163-177 | the new chunk has the next name and an empty stream |
| BackupEngine.ChunkManager.AddRecord | internal/backup/engine.go:180-197 | keeps the invariant: uploaded chunks with their index, name, count and digest, and the open chunk in the serializer, are the rotation of all records added |
| BackupEngine.ChunkManager.FlushChunk | internal/backup/engine.go:210-243 | uploads and records the open chunk, fails exactly when a row does not encode or the upload fails, and never stores a manifest |
| BackupEngine.ChunkManager.FlushFinalChunk | internal/backup/engine.go:200-207 | the last chunk is uploaded if it has rows and discarded if not |
| BackupEngine.Backup | internal/backup/engine.go:50-103 | a manifest is returned for a complete backup only, with the operation, table, schema and chunk size asked for, and always when nothing fails; started without a manifest, at every byte written the stored manifest, if it parses, vouches for chunks that are there |
| BackupEngine.ManifestPutSafe | internal/backup/engine.go:130-139 | writing the manifest last keeps the root of trust at each of its bytes |
| BackupEngine.StaleManifestIff | internal/backup/engine.go:221-223 | overwriting a chunk under an earlier manifest keeps the trust if and only if that manifest does not list the file or lists the new digest |
| RestoreEngine.RestoreParquetChunk | internal/backup/restore.go:172-228 | the rows of all record batches go to the target in order, in batches of 1000 and a last smaller one, or on an error a first part of them |
| RestoreEngine.RestoreJSONChunk | internal/backup/restore.go:135-170 | the same for newline-delimited JSON, where a row that does not decode also drops the partial batch before it |
| RestoreEngine.RestoreChunk | internal/backup/restore.go:93-133 | nothing is written for a chunk that is missing, does not decompress or has another digest |
| RestoreEngine.FormatOfChunk | internal/backup/restore.go:93-133 | an object with the listed digest is Parquet if its name contains ".parquet" or its content begins with PAR1, and lines of JSON otherwise |
| RestoreEngine.Restore | internal/backup/restore.go:48-88 | the target gets the manifest's schema; a nil error means all rows of all chunks were written, an error that a first part was, and with a readable backup and a willing target there is no error |
| BackupRoundTrip.BackupReadsBack | internal/backup/restore.go:190-256 | a complete backup reads back whole: every source row in order, normalised, as many as the manifest says, for every row-group size and chunk threshold |
| BackupRoundTrip.BackupThenRestore | internal/backup/engine.go:50-103 | backing up and restoring hands the target the schema and, in batches of 1 to 1000, exactly the source rows by the meaning of their values; the stored manifest parses to the one returned, with the operation and table asked for |
| BackupRoundTrip.DamagedBackup | internal/backup/restore.go:112-119 | from a storage damaged in any way, short of a forged digest, the genuine chunk list gives a first part of the rows, and all of them if no chunk is reported bad |
| BackupRoundTrip.OnlyParquetRestores | internal/backup/restore.go:127-132 | a chunk under an engine's file name restores only if the Parquet reader takes it, so an NDJSON backup never does |
| BackupRoundTrip.RowComesBackIff | internal/backup/restore.go:190-256 | a restored row has exactly the schema's columns, each holding what its value means there, a missing one nil, and no other row does |
| BackupRoundTrip.EncodesIff | internal/backup/parquet_serializer.go:106-117 | a row encodes if and only if each column takes its value |
| BackupRoundTrip.NormalisedTwice | internal/backup/parquet_types.go:48-100 | backing up what was restored changes nothing any more |
| BackupRoundTrip.RowLosslessIff | internal/backup/restore.go:231-256 | a row comes back as it was if and only if it has exactly the schema's columns with native values |
| PostgresReader.Partitions | internal/adapter/postgres/reader.go:32-74 | the loop, with its wrapping arithmetic, its empty and one-key tables and its default of one range, computes the ranges |
| PostgresReader.ExactCover | internal/adapter/postgres/reader.go:46-73 | for all least and greatest keys and all n, overflowing or not, each key is in exactly one range if and only if the greatest key is below 2^63-1 and, in a table of more than one key, min+n-1 is an int64 |
| PostgresReader.DownwardsDisjoint | internal/adapter/postgres/reader.go:54-62 | when max-min overflows the ranges step downwards and wrap, and still none overlap |
| PostgresReader.ResumedDisjoint | internal/adapter/postgres/reader.go:86-88 | resumed ranges are pairwise disjoint for every key |
| PostgresReader.TableIsMigrated | internal/adapter/postgres/reader.go:82-144 | a first migration over these ranges that returns nil has given every row exactly one disposition |
| PostgresReader.IdsDistinct | internal/adapter/postgres/reader.go:66-71 | partition ids are p0, p1, ..., all distinct |
| CassandraReader.Partitions | internal/adapter/cassandra/reader.go:32-66 | the loop computes the cuts, the last one set to the greatest token |
| CassandraReader.RangesTile | internal/adapter/cassandra/reader.go:32-66 | contiguous from -2^63 to 2^63-1, bounds int64, every range but the last of width step, the last below step+n |
| CassandraReader.TokenCover | internal/adapter/cassandra/reader.go:91 | a token is read by exactly one range if and only if it is below 2^63-1 |
| CassandraReader.IdsDistinct | internal/adapter/cassandra/reader.go:57 | partition ids are the table's name, a hyphen and the index, all distinct |
| MongoReader.Partitions | internal/adapter/mongo/reader.go:22-143 | the split keys if the server gives any list of them, else the sample, else one partition, which a collection that is empty or asked for in one also gets |
| MongoReader.FiltersCoverExactly | internal/adapter/mongo/reader.go:64-84 | every key passes exactly one filter if and only if the boundaries ascend weakly |
| MongoReader.FilterOf | internal/adapter/mongo/reader.go:153-160 | the filter accepts exactly the keys of the partition, absent bounds being open |
| MongoReader.IdsDistinct | internal/adapter/mongo/reader.go:67-82 | partition ids are p0, p1, ..., all distinct |
| CircuitBreaker.Breaker.Allow | internal/errs/circuit_breaker.go:75-100 | refuses exactly after a success-free stretch of at least `threshold` failures (one if it is less) when a call has been admitted since the last completion or that was a failure no longer than `timeout` ago; keeps all four fields functions of the history; the branch that would admit a second call in HalfOpen is never taken |
| CircuitBreaker.Breaker.RecordFailure | internal/errs/circuit_breaker.go:103-114 | in whatever state it arrives, the breaker is then Open if the history ends in that many failures without a success, and Closed if not |
| CircuitBreaker.Breaker.RecordSuccess | internal/errs/circuit_breaker.go:117-124 | in whatever state it arrives, the breaker is then Closed, and the fields functions of the history |
| CircuitBreaker.Breaker.CurrentState | internal/errs/circuit_breaker.go:68-72 | Closed iff no success-free final stretch holds `threshold` failures (one if it is less), HalfOpen iff one does and a call has been admitted since the last completion |
| CircuitBreaker.Breaker.Execute | internal/errs/circuit_breaker.go:52-65 | with any calls of others beginning and ending while its function runs, it is refused exactly as Allow says, and otherwise adds its admission and its completion around theirs |
| CircuitBreaker.ModeMeans | internal/errs/circuit_breaker.go:75-124 | the state, by `threshold` and the history alone |
| CircuitBreaker.RefusedMeans | internal/errs/circuit_breaker.go:75-100 | when a call is refused, by `threshold`, `timeout` and the history alone |
| CircuitBreaker.TrailingMeans | internal/errs/circuit_breaker.go:103-124 | for every n, the failure count is at least n exactly when a final stretch of the history has no success and at least n failures |
| CircuitBreaker.TrialsAreSpaced | internal/errs/circuit_breaker.go:82-88 | while tripped, an admission comes more than the timeout after the last completion, a failure, and is the first since it |
| CircuitBreaker.OneTrialIff | internal/errs/circuit_breaker.go:90-124 | after a completion in HalfOpen there is one trial at a time, in every continuation without another late completion, if and only if the completion, failure or success, is that of the call admitted last |
| CircuitBreaker.SecondTrialIff | internal/errs/circuit_breaker.go:103-114 | a failure in HalfOpen is followed by a second trial beside the first if and only if it is another call's |
| CircuitBreaker.TwoTrialsInFlight | internal/errs/circuit_breaker.go:52-65 | a history with two trials in flight |
| Retry.NextInterval | internal/errs/retry.go:67-88 | leaving the loop at the cap loses nothing: the wait is the clamped interval, jittered |
| Retry.BaseClosedForm | internal/errs/retry.go:72-79 | before jitter it is min(Initial * Multiplier^(k-1), Max) |
| Retry.BaseMonotone | internal/errs/retry.go:72-79 | and it never decreases with the attempt |
| Retry.CapBeforeJitter | internal/errs/retry.go:72-79 | for any policy it exceeds the cap only at a first attempt whose interval does |
| Retry.JitterBounds | internal/errs/retry.go:81-85 | jitter moves it by at most half its fraction |
| Retry.CapUnderJitter | internal/errs/retry.go:81-85 | MaxInterval bounds the jittered wait for every random number if and only if it leaves room for half the jitter |
| Retry.Do | internal/errs/retry.go:37-63 | which call ends it, with which result, and what waiting was requested; MaxAttempts+1 calls when each fails for another try, and never more |
| Retry.WaitIs | internal/errs/retry.go:41-88 | the wait before attempt k is min(Initial * Multiplier^(k-1), Max) times 1 - Jitter/2 + rand * Jitter |
| Retry.TotalWaitBounded | internal/errs/retry.go:37-63 | the waiting requested is at most MaxAttempts * Max * (1 + Jitter/2) |
| Flattening.FlattenMap | internal/migration/schema_mapper.go:166-178 | what the loops leave in the output is what visiting the keys of each document in some order produces |
| Flattening.ProducesFlattens | internal/migration/schema_mapper.go:166-178 | for any order and any names, a key some leaf path spells holds such a leaf's value and every other key is as before |
| Flattening.PossibleValues | internal/migration/schema_mapper.go:166-178 | some order gives a key a value if and only if a leaf that spells the key has it |
| Flattening.OneEntryPerLeaf | internal/migration/schema_mapper.go:166-178 | with non-empty dot-free names there is exactly one entry per leaf, under its path |
| Flattening.OrderIndependent | internal/migration/schema_mapper.go:166-178 | and the iteration order does not matter |
| Flattening.DeterminedIff | internal/migration/schema_mapper.go:168-176 | for any names all orders produce the same output if and only if no two different leaf values compete for a key |
| Flattening.DottedNameClashes | internal/migration/schema_mapper.go:169-171 | a document with a dotted name, and the two outputs that two orders produce for it |
| Flattening.UnflattenRestoresIff | internal/migration/schema_mapper.go:156-178 | from the entries in any order un-flattening rebuilds a document with good names if and only if no nested document is empty |
| Flattening.EmptyNestedIsLost | internal/migration/schema_mapper.go:172-174 | with or without an empty nested document the outputs are the same |

## Left out

- Drivers and services (pgx, mongo-driver, gocql, Iceberg, S3, GCS, Vault, HTTP), the command line, configuration, logging, metrics, tracing and the audit log.
- The internals of Zstandard, Parquet, JSON and SHA-256; see Assumptions.
- The fault-injecting and Iceberg readers, which do not close their channel as the contract of ReadPartition asks.
- `Migrate` returns at once when nothing is selected; the model lets goroutines with nothing to do run instead.
- A ticker that fires on an empty batch changes nothing and is not an action.
- Offsets that are not integers, among them MongoDB ObjectIDs, which come back from a checkpoint as text; and the BSON order of keys of different types.
- `SaveStatus`, which nothing in the pipeline calls and which decodes offsets as floating point; the pipeline itself never writes the status Done.
- Timestamps of checkpoints, and JSON encoding of stored values: a bucket stores the values themselves, and GC is modelled without failing calls.
- Failing calls of bbolt, among them saving a meta under an empty id, which it refuses as a key.
- The empty operation id as a wildcard for ListPartitions: it lists the keys that start with a colon, as any other id does.
- Nulls in columns declared not nullable, failures of the in-memory Parquet and Zstandard writers, and int64 overflow of microsecond timestamps.
- The reuse of one batch slice between WriteBatch calls of a restore: each batch is a value.
- How readers turn a database row into a record (printing the id, falling back to the first column for the offset, UUIDs as text): id, offset and data are given.
- The reading goroutine of `backupPartition`: what it sends is a sequence, and nobody drains it after an error.
- The version, source type and creation time in a manifest.
- Memory: the capacity PostgreSQL's Partitions allocates for a very large n.
- The remaining cases of ApplyTransform and the type-name tables: one-branch lookups.
- Retry.NextInterval: durations are reals, so float64 rounding and the truncation to nanoseconds are not modelled.
- PipelineResume.CrashResumeLosesNothing: the crashed attempts have one transformer and one writer, as LowWaterMarkIff shows they must; the last run may have more.
