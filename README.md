# In-memory key-value database: WAL, recovery reader and initialisation, in Dafny

This project models the sequential core of a Go in-memory key-value database and proves properties of that model. It covers seven parts:

- **Write-ahead log coordinator** (`Wal`).
  - Records are appended to a pending batch.
  - A batch that reaches `maxBatchSize` is handed to the flush loop through a channel of capacity one.
  - The flush loop writes handed-off batches and flushes the pending batch on every timer tick and on shutdown.
  - The state is the value `WalState`, with transition functions `AfterPush`, `AfterFlush`, `AfterHandoff` and `AfterStep`.
  - The class `WAL` updates its fields in place. Each of its methods is tied to one transition through `Model()`.
  - A push whose send finds the slot full blocks while it holds the lock. That state is modelled on values, by `AfterBlockedPush` and by the loop iterations `AfterBlockedStep` and `AfterBlockedStepDraining`.
- **Segment recovery reader** (`WalReader`).
  - Every segment is decoded record by record; the first decode error fails the whole read.
  - The records are concatenated in segment order and sorted in place by LSN.
  - The record decoder is a function parameter. Whenever it succeeds on a non-empty buffer, it is assumed to consume at least one byte and no more bytes than the buffer holds.
- **Promise** (`Concurrency`): a one-shot cell over a one-slot channel, where the first `Set` wins.
- **Command table** (`Compute`): command names to identifiers, and identifiers to argument counts.
- **Partition option of the in-memory engine** (`InMemory`): `WithPartitions(n)` installs `n` fresh, empty hash tables.
- **Initialisation** (`EngineInit`, `WalInit`).
  - The engine configuration is validated and turned into engine options.
  - Each WAL setting falls back to its default; the WAL is then built from the resolved settings.
- **Database front** (`Database`): constructor checks and the dispatch of a parsed query on its command identifier.

The order invariant "written, then queued, then pending records equal the pushed records, in push order" (`Wal.InOrder`) does not hold for the loop as written. Only the weaker balance `Wal.Conserved` is part of `WAL.Valid()`. `Wal.StepDraining` is the corrected loop step that keeps the order (see Findings).

## Model

| member | source | states |
|---|---|---|
| Compute.CommandNameToCommandID | internal/database/compute/command.go:23-29 | "SET", "GET", "DEL" map to 1, 2, 3 (each an if-and-only-if); every other name maps to Unknown = 0 |
| Compute.CommandArgumentsNumber | internal/database/compute/command.go:31-45 | SET takes 2 arguments, GET and DEL take 1; every other identifier gets the zero value 0 |
| Compute.CommandName | internal/database/compute/command.go:17-21 | every known identifier has a name in the lookup table that maps back to it |
| Compute.NameRoundTrip | internal/database/compute/command.go:17-29 | looking up the name of a known command gives that command back |
| Compute.NameToIdInjective | internal/database/compute/command.go:17-21 | two names that map to the same known identifier are the same name |
| Compute.UnrecognisedNames | internal/database/compute/command.go:23-45 | "UNKNOWN" and the lower-case names map to Unknown; Unknown takes 0 arguments |
| Concurrency.Channel.constructor | internal/concurrency/promise.go:12 | a new channel has the given capacity, is empty and is open |
| Concurrency.Channel.Send | internal/concurrency/promise.go:21 | a send appends the value to the buffer; it requires an open channel with room |
| Concurrency.Channel.Close | internal/concurrency/promise.go:22 | closing marks the channel closed and keeps its buffer |
| Concurrency.Future.Get | internal/concurrency/promise.go:25-27 | a future observes the first buffered value of the channel it shares, if there is one |
| Concurrency.Promise.constructor | internal/concurrency/promise.go:10-14 | a new promise is unresolved, with an empty channel of capacity 1 |
| Concurrency.Promise.Set | internal/concurrency/promise.go:16-23 | the first Set makes the value the only buffered one and resolves the promise; a later Set leaves the buffer unchanged; the buffer never exceeds the one slot |
| Concurrency.Promise.GetFuture | internal/concurrency/promise.go:25-27 | the future reads the promise's own result channel |
| Concurrency.FirstSetWins | internal/concurrency/promise.go:16-27 | a future observes nothing before Set, and observes the first value after a second Set |
| WalReader.NewLogsReader | internal/database/storage/wal/logs_reader.go:18-26 | fails exactly when the directory is missing, with "segments directory is invalid"; otherwise stores the directory |
| WalReader.Concat | internal/database/storage/wal/logs_reader.go:31-35 | joining the records gathered so far with a later step's: success only when both succeed, the earlier records first, and the earlier error wins |
| WalReader.DecodeAll | internal/database/storage/wal/logs_reader.go:28-38 | the read of all segments succeeds exactly when every segment decodes; a failure carries the error of a failing segment before which every segment decodes |
| WalReader.DecodeSegment | internal/database/storage/wal/logs_reader.go:46-56 | an empty buffer decodes to no records; a successful decode yields at most one record per byte |
| WalReader.LogsReader.ReadSegment | internal/database/storage/wal/logs_reader.go:46-56 | the incoming logs are kept as a prefix and the segment's records follow in decode order; any decode error returns only the "failed to parse logs data: " error |
| WalReader.LogsReader.Read | internal/database/storage/wal/logs_reader.go:28-44 | succeeds exactly when every segment decodes; the error is the first one, with both prefixes; a result is sorted by LSN and is a permutation of all segments' records in enumeration order |
| WalReader.LogsReader.ReadSegments | internal/database/storage/wal/logs_reader.go:29-38 | the records of every segment in enumeration order, or the first segment's decode error behind both prefixes, with no partial list |
| WalReader.SortByLsn | internal/database/storage/wal/logs_reader.go:40-42 | the array ends sorted by ascending LSN and is a permutation of its old contents |
| WalReader.SwapAdjacent | internal/database/storage/wal/logs_reader.go:40-42 | two neighbouring records are exchanged, nothing else moves, and the contents are kept as a multiset |
| WalReader.ConcatAssociative | internal/database/storage/wal/logs_reader.go:31-35 | accumulating segment results is associative, with the first error winning |
| WalReader.FailurePersists | internal/database/storage/wal/logs_reader.go:31-38 | once a segment fails, the later segments do not change the outcome: the first error is the result |
| WalReader.ConcatCongruent | internal/database/storage/wal/logs_reader.go:31-35 | accumulating results that agree on success and on the records they hold gives results that agree again |
| WalReader.ConcatCommutes | internal/database/storage/wal/logs_reader.go:31-35 | two segment results accumulated in either order hold the same records when both succeed, and fail together |
| WalReader.DecodeAllAppend | internal/database/storage/wal/logs_reader.go:31-35 | decoding two runs of segments is decoding each run and accumulating the two results |
| WalReader.DecodeAllPermutation | internal/database/storage/wal/logs_reader.go:31-35 | enumerating the same segments in another order gives the same records as a multiset, or fails likewise |
| WalReader.SortedPermutationsEqual | internal/database/storage/wal/logs_reader.go:40-42 | two LSN-sorted permutations of records with distinct LSNs are equal |
| WalReader.ReadIsOrderIndependent | internal/database/storage/wal/logs_reader.go:40-42 | with distinct LSNs, Read's result does not depend on the order in which segments are enumerated |
| Wal.Initial | internal/database/storage/wal/wal.go:41-47 | a new WAL has nothing pending, queued, written or pushed; it is well shaped under every limit, balanced and in order |
| Wal.AfterPush | internal/database/storage/wal/wal.go:94-100 | a push puts the new record behind every record not yet written and writes nothing |
| Wal.AfterFlush | internal/database/storage/wal/wal.go:104-115 | a flush adds exactly one new batch, the pending records, when there are any, and leaves the written batches unchanged when there are none; the pending batch is emptied and the slot stays as it is |
| Wal.AfterHandoff | internal/database/storage/wal/wal.go:67-68 | the handoff case appends the queued records to what was written, empties the slot and leaves the pending batch |
| Wal.AfterStep | internal/database/storage/wal/wal.go:57-70 | an iteration as written keeps everything already written; a tick or shutdown flushes only the pending batch and leaves a queued batch in the slot; the order of unwritten records is kept when the iteration is a handoff or nothing is queued |
| Wal.AfterStepDraining | internal/database/storage/wal/wal.go:57-70 | the corrected iteration keeps everything already written, writes the unwritten records in the order they had, and leaves nothing pending or queued after a tick or shutdown |
| Wal.AfterPushes | internal/database/storage/wal/wal.go:94-100 | a run of pushes writes nothing; every record of the run is pushed, in order, unless a push blocks on the full slot, in which case the run stops with that record pushed and the pusher blocked; the shape (or the blocked state), the balance and the order are kept |
| Wal.PushOrBlock | internal/database/storage/wal/wal.go:94-100 | one push either goes through or blocks on the full slot; either way its record is pushed last, nothing is written, and the balance and the order are kept |
| Wal.AfterBlockedPush | internal/database/storage/wal/wal.go:94-97 | a push whose send finds the slot full appends its record to the now-full pending batch and blocks while it holds the lock; no record is lost |
| Wal.Resumed | internal/database/storage/wal/wal.go:96-99 | after the loop has received and written the queued batch, the blocked send completes: the state is well shaped again and the unwritten records keep their order |
| Wal.AfterBlockedStep | internal/database/storage/wal/wal.go:63-70 | as written, an iteration with a blocked pusher ends in a well-shaped state whenever it can go on at all |
| Wal.AfterBlockedStepDraining | internal/database/storage/wal/wal.go:57-70 | the corrected iteration with a blocked pusher always goes on, ends well shaped and keeps the unwritten records in order |
| Wal.BlockedPushDeadlocks | internal/database/storage/wal/wal.go:63-110 | as written, after a blocked push only a handoff lets the loop go on; a tick or shutdown waits for the lock the pusher holds, which is a deadlock; no record is lost on the way |
| Wal.LimitOneDeadlock | internal/database/storage/wal/wal.go:63-110 | with limit 1, a second push blocks on the first record's slot, and a tick then deadlocks |
| Wal.BlockedPushDrains | internal/database/storage/wal/wal.go:57-70 | with the queued batch received first, every event after a blocked push keeps shape, balance and order; after shutdown every pushed record, the blocked one included, is written in push order |
| Wal.SetRequest | internal/database/storage/wal/wal.go:76-79 | as written, the record Set builds is the DEL record of the key |
| Wal.DelRequest | internal/database/storage/wal/wal.go:81-83 | Del logs a DEL record of the key, with the argument count a DEL takes |
| Wal.IntendedSetRequest | internal/database/storage/wal/wal.go:76-79 | the intended Set record is a SET of the key and value, well-formed and different from the DEL record |
| Wal.SetIsLoggedAsDelete | internal/database/storage/wal/wal.go:76-83 | as written, Set logs exactly the record Del logs, which is not a SET |
| Wal.PushPreserves | internal/database/storage/wal/wal.go:94-100 | a push records the new record last behind all unwritten ones and writes nothing; it hands the batch off exactly when the new length equals the limit, and never when the limit is not positive; it keeps a queued batch full and the pending batch below a positive limit |
| Wal.PushConserves | internal/database/storage/wal/wal.go:95-99 | a push from a balanced state loses and duplicates no record |
| Wal.PushKeepsOrder | internal/database/storage/wal/wal.go:95-99 | a push keeps written, queued and pending records in push order |
| Wal.FlushPreserves | internal/database/storage/wal/wal.go:104-115 | a flush empties the pending batch and writes it exactly when it was non-empty; it keeps the balance, and keeps the order when nothing is queued |
| Wal.HandoffPreserves | internal/database/storage/wal/wal.go:67-68 | writing the queued batch empties the slot and leaves the pending batch untouched |
| Wal.HandoffConserves | internal/database/storage/wal/wal.go:67-68 | writing the queued batch keeps both the balance and the order |
| Wal.StepPreserves | internal/database/storage/wal/wal.go:57-70 | every loop iteration as written keeps the state well shaped and loses no record from the state |
| Wal.ShutdownLosesQueuedBatch | internal/database/storage/wal/wal.go:57-59 | as written, shutdown with a queued batch stops with fewer records written than pushed |
| Wal.StepDrainingPreserves | internal/database/storage/wal/wal.go:57-70 | the corrected iteration keeps shape, balance and order; after shutdown every pushed record is written, in push order |
| Wal.SizeTriggeredHandoff | internal/database/storage/wal/wal.go:94-100 | pushing k < n records into an empty WAL with limit n leaves them pending; the n-th push queues all n in order and writes none |
| Wal.SizeTriggeredFlush | internal/database/storage/wal/wal.go:67-99 | after n pushes with limit n, the next handoff writes exactly one batch holding the n records |
| Wal.TimeTriggeredFlush | internal/database/storage/wal/wal.go:69-70 | a single record below the limit is written, alone, on the next tick |
| Wal.ThreePushes | internal/database/storage/wal/wal.go:94-100 | with limit 2, three pushes queue the first two and leave the third pending |
| Wal.OnePush | internal/database/storage/wal/wal.go:94-100 | with limit 1, a push hands the record off at once |
| Wal.TickOvertakesHandoff | internal/database/storage/wal/wal.go:63-70 | as written, a tick that wins the select over a queued batch writes the newer record first, breaking push order |
| Wal.TickThenHandoff | internal/database/storage/wal/wal.go:63-70 | from two queued records and one pending record, a tick writes the pending one and the handoff then writes the queued two |
| Wal.TickKeepsOrder | internal/database/storage/wal/wal.go:63-70 | the corrected iteration writes the same records in push order |
| Wal.ShutdownDropsHandedOffBatch | internal/database/storage/wal/wal.go:57-66 | as written, shutdown right after a handoff writes nothing and leaves the record in the slot |
| Wal.ShutdownDrainsHandedOffBatch | internal/database/storage/wal/wal.go:57-66 | the corrected iteration writes the handed-off record on shutdown |
| Wal.WAL.Init | internal/database/storage/wal/wal.go:41-47 | a fresh WAL has empty pending, slot and written batches, and stores the writer, the reader, the flush period and the limit unchanged |
| Wal.WAL.NewWAL | internal/database/storage/wal/wal.go:33-48 | a missing writer is "writer is invalid", checked before the reader; a missing reader is "reader is invalid"; otherwise a fresh, valid, empty WAL |
| Wal.WAL.Push | internal/database/storage/wal/wal.go:89-101 | the new state is AfterPush of the old one, and the returned record is the one built from the arguments |
| Wal.WAL.Set | internal/database/storage/wal/wal.go:76-79 | as written, pushes the DEL record of the key |
| Wal.WAL.SetIntended | internal/database/storage/wal/wal.go:76-79 | pushes the SET record of the key and value |
| Wal.WAL.Del | internal/database/storage/wal/wal.go:81-83 | pushes the DEL record of the key |
| Wal.WAL.FlushBatch | internal/database/storage/wal/wal.go:104-115 | the new state is AfterFlush of the old one |
| Wal.WAL.WriteHandedOff | internal/database/storage/wal/wal.go:67-68 | the new state is AfterHandoff of the old one |
| Wal.WAL.Step | internal/database/storage/wal/wal.go:57-70 | Done flushes and stops, Handoff writes the queued batch, Tick flushes; the new state is AfterStep of the old one |
| Wal.WAL.StepDraining | internal/database/storage/wal/wal.go:57-70 | the corrected iteration; the new state is AfterStepDraining of the old one |
| InMemory.HashTable.constructor | internal/storage/engine/in_memory/engine_options.go:9 | a new hash table is empty |
| InMemory.Apply | internal/storage/engine/in_memory/engine_options.go:5-12 | WithPartitions(n) installs a fresh list of exactly n partitions, each non-nil, fresh, empty and distinct from the others; no other engine field changes |
| EngineInit.CreateEngine | internal/initialization/engine_init.go:11-32 | a missing logger is an error checked first; no configuration builds the default engine; a non-empty unsupported type is "engine type is incorrect"; a non-zero partition count gives exactly one WithPartitions option of that count, zero gives none |
| EngineInit.AcceptedTypes | internal/initialization/engine_init.go:18-25 | an empty type and "in_memory" are accepted alike; any other non-empty type is rejected |
| WalInit.ResolveSettings | internal/initialization/wal_initialization.go:28-54 | each setting is the configured value unless that is zero or empty, else its default; a segment size that fails to parse is "max segment size is incorrect" |
| WalInit.ZeroConfigurationUsesDefaults | internal/initialization/wal_initialization.go:14-31 | an all-zero configuration gives batch size 100, a 10 ms period, 10 << 20 bytes and "./data/spider/wal" |
| WalInit.CreateWAL | internal/initialization/wal_initialization.go:21-68 | a missing logger is an error checked first; no configuration gives no WAL and no error; otherwise the WAL gets the resolved batch size and period, a reader over the resolved directory and the writer built for it, or the writer's error |
| Database.NewDatabase | internal/database/database.go:28-43 | the compute layer, the storage layer and the logger are checked in that order, each with its own error; success stores all three |
| Database.HandleQuery | internal/database/database.go:45-65 | a parse error answers "[error] " followed by it; SET, GET and DEL go to their own handlers; any other identifier answers "[error] internal error" |
| Database.InternalErrorExactlyForUnknownIds | internal/database/database.go:47-64 | when neither handlers nor parse errors produce the internal-error text, it is answered exactly for a parsed identifier other than SET, GET and DEL; for a parser that yields only known identifiers or Unknown, exactly for Unknown |

## Left out

- The goroutine, ticker and two-stage `select` of `WAL.Start`. One loop iteration is a step over an event that says which case fired. The source's nondeterministic choice is the caller's choice of that event.
- The mutex of the WAL. Each locked block is one atomic method, except the send that blocks inside the lock, which is the state `Wal.Blocked`.
- `WAL.Recover` and the three `handle*Query` methods only panic. The handlers are function parameters of `HandleQuery`.
- The record encoding and `Log.Decode`, `NewWriteRequest`, `FutureResponse` and `NewFuture`. These are not part of this model. The decoder is a parameter. `WriteRequest` carries no promise, so the WAL's methods return the record instead of a future.
- LSN assignment, the partition function and the `HashTable` and `Engine` internals are not part of this model.
- The transaction identifier from the request context is an explicit `txId` parameter.
- The I/O collaborators are parameters or empty classes:
  - `logsWriter.Write` is recorded in `written`;
  - `filesystem.NewSegmentsDirectory` is the function `segmentsDirectory`;
  - `NewLogsWriter` over `filesystem.NewSegment` is the function `newLogsWriter`;
  - `common.ParseSize` is the function `parseSize`.
- `internal/initialization/initializer.go` (wiring, servers, replication) is not part of this model, nor is any logging call.
- `time.Duration` is an integer count of nanoseconds. Go's `int` and `uint` widths are not modelled, because no arithmetic on them happens in the core.
- Concurrency.Future.Get: it reads the buffered value without consuming it. A Go receive consumes it, but the closed channel's later receives give the zero value; that is not modelled.
- Concurrency.Promise: the Go promise is a value that callers copy. Here it is one object.
- WalReader.LogsReader.Read: the directory's own I/O errors during `ForEach` are not modelled. The segments are a sequence of byte strings.
- EngineInit.CreateEngine: it returns the options handed to `in_memory.NewEngine`, not the engine. That constructor and its error are not part of this model.
- Wal.WAL.Push: it requires `CanPush`, so the class does not model a push whose send finds the slot full. In the source that pusher blocks while it holds the mutex. If the loop's `select` then takes the tick or shutdown case, `flushBatch` waits for that mutex forever, and the whole WAL deadlocks (see Findings). This state is modelled on values only, by `Wal.AfterBlockedPush`, `Wal.AfterBlockedStep` and `Wal.AfterBlockedStepDraining`.
- InMemory.Engine.constructor: it stands for the engine that `in_memory.NewEngine` allocates before it applies its options, which is the receiver of `Apply`. `NewEngine` itself is not part of this model.
- Wal.AfterPushes: a run stops at the first push that blocks. The records after it wait on the lock, so they are not in `pushed`. Whether a tick or shutdown then deadlocks is the business of `Wal.AfterBlockedStep`.
- Wal.WAL.Valid: it keeps the balance (`Conserved`) but not the push order (`InOrder`), because the loop as written breaks the order (see Findings).

## Findings

| source | as written | input that shows it | evidently intended | confidence | as-written member | corrected member |
|---|---|---|---|---|---|---|
| internal/database/storage/wal/wal.go:76-79 | `Set` pushes `DelCommandID` with only the key, so the logged record is a delete and the value is lost | any `Set(k, v)`: the record equals the one `Del(k)` logs | push `SetCommandID` with `[key, value]` | high, not executed | Wal.SetIsLoggedAsDelete | Wal.WAL.SetIntended |
| internal/database/storage/wal/wal.go:57-66 | on shutdown only the pending batch is flushed; a full batch already waiting in the channel is never written | `maxBatchSize = 1`, one push, then shutdown: nothing is written and the record stays in the channel | drain the channel before the final flush | medium, not executed | Wal.ShutdownLosesQueuedBatch | Wal.StepDrainingPreserves |
| internal/database/storage/wal/wal.go:63-70 | a tick can win the `select` while a full batch is queued, so the newer pending records are written before the older queued batch | `maxBatchSize = 2`, pushes r1, r2, r3, then Tick, then Handoff: the writes are `[r3]` then `[r1, r2]` | write the queued batch before the pending one | low (recovery sorts by LSN), not executed | Wal.TickOvertakesHandoff | Wal.TickKeepsOrder |
| internal/database/storage/wal/wal.go:94-110 | the size-triggered send sits inside the locked block, so a pusher that finds the slot full blocks while it holds the mutex; if the loop's `select` then takes the tick or shutdown case, `flushBatch` waits for that mutex, and nothing ever receives from the channel again | `maxBatchSize = 1`: push r1, push r2 (it blocks), then Tick | receive the queued batch before taking the lock, or send outside the lock | medium, not executed | Wal.BlockedPushDeadlocks | Wal.BlockedPushDrains |
