# s3stream in Dafny

s3stream is a log engine over object storage. This project models its three cores and proves
what they promise.

- **Log and upload pipeline.** The object write-ahead log is a state machine at lock granularity
  (`WalProtocol`): batches are sealed, uploaded concurrently, completed in order behind a lease
  check, and trimmed, while another node may take over at any time. `WalInvariant`, `WalSafety`,
  `WalReplay`, `WalTakeover` and `WalIterator` prove what acknowledgements, failover, trimming and
  replay guarantee, `WalTrace` ties them to what was submitted, and `WalProgress` shows that the
  writer can always finish; `WalWriter` and `Reservation` are the writer's queues and the lease
  object in imperative form. Above it, `Pipeline` and `PipeTrace` carry confirmed records to
  committed blocks, `RecoveryFilter` filters a replay, and `CrashRecovery` with `CrashSafety` put
  the node together with crashes at any point and repeated recoveries; `CrashLoss` says exactly what
  a crash can lose, `CrashProgress` that the node can always go on, and `RecoverySteps` ties the
  recovery loop's blocks to its steps. `WalBridge` shows that the log delivers the replay that
  recovery assumes, and `WalEpochs` when the epochs reported with it are right. `Backpressure` and
  `AppendTrace` cover the append path.
- **LogCache.** `CacheBlocks` defines the plain per-stream list that reads are specified against;
  `CacheReads`, `CacheSteps` and `LogCache` refine it with blocks, hints, merging and freeing, and
  `CacheLaws` says what stays cached, when a read finds something and what the size counts.
- **Compaction and object format.** `Builders`, `Exclusion`, `Staging` and `Compaction` are the
  planner and the commit request, `Sanity` is the check before the commit, `BlockReader` and
  `Rewrite` copy blocks, `RewriteServes` reads the result back, `RoundServes` joins planner and
  rewrite over a whole round, `StreamMerge` merges stream objects, and `Codec`, `ObjectFormat`,
  `ObjectWriter` and `ObjectIndex` are the byte formats with their writer, reader and lookup.

Preconditions state what the engine relies on. Records have a positive 32-bit count and fit one 64
MiB window. A writer that finds older objects resets the log before it accepts appends, and a trim
point lies below the confirm point. A log listing is sorted by epoch and start, and records lie at
or behind their object's start. The node model of `CrashRecovery` assumes that preparing an upload
succeeds; what a failed preparation does is in `Pipeline`. In it a record is acknowledged while its
stream is open, continues the stream's session without a gap (`Backpressure.HoleIffHardError` says
when the append path keeps that), and is acknowledged once; what another owner commits are records
of its own. A cache block is marked free only after it was sealed. Data blocks have a positive size,
at most the compaction cache, and each is filed under its own object. A write to an object presents
one stream's records in offset order within the 32-bit fields of the format. An object is read back
when its data fits 64-bit positions and its index a 32-bit size.

Six promises do not hold unconditionally, and the condition is proved exactly. `FailingRuns`
holds runs that end in the failing state.

- A trimmed record is committed if and only if no block whose preparation failed was overtaken by
  a later trim (`Pipeline.TrimmedIsCommittedIff`, with `Pipeline.OvertakenLost` naming the lost record).
- A forced upload that returns Ok has committed the stream's records if and only if no block that
  holds one had failed or been skipped when the call began to wait (`Pipeline.ForceUploadIff`).
- A stream closed after a forced upload that returned Ok leaves no acknowledged record uncommitted
  if and only if no block whose commit had failed without taking effect held a record of the stream
  when the call collected what it waits for (`CrashLoss.CloseLeavesIff`). Recovery skips closed
  streams, so what a close leaves behind is lost at the next log reset (`CrashLoss.ClosedIsLost`,
  with `FailingRuns.ClosedLossReached` as the run); reopened before a crash, the stream can lose a
  later record instead (`FailingRuns.ReopenedLossReached`), and `CrashLoss.CrashKeepsIff` is the exact
  condition there. Nothing else loses a record (`CrashLoss.LossNeedsFailure`).
- A stream reaches the log without a hole if and only if no record below its end met a hard error
  (`Backpressure.HoleIffHardError`).
- A recovery after a takeover reads every confirmed object if and only if the objects of earlier
  epochs past the trim abut (`WalTakeover.TakeoverReplayIff`, with
  `WalTakeover.LateObjectHidesConfirmed` as the failing listing).
- A recovery reports every record with the epoch of its object if and only if no delivered record
  is shadowed by another epoch's first object (`WalEpochs.EpochsRightIff`, with
  `WalEpochs.LateObjectWrongEpoch` as the failing listing).

## Model

| member | source | states |
|---|---|---|
| WalLayout.CeilAlignIsNextBoundary | s3stream-wal/src/object/keys.rs:152-158 | rounding up gives the first 64 MiB boundary at or after an offset, rounding down the last one at or before it |
| WalLayout.SortKeeps | s3stream-wal/src/object/writer.rs:562-568 | sorting a batch by stream and base offset permutes its records and keeps its framed size |
| WalLayout.SortOrdered | s3stream-wal/src/object/writer.rs:562-568 | the sorted batch is ordered by stream, then base offset |
| WalLayout.SortKeepsStreamOrder | s3stream-wal/src/object/writer.rs:562-568 | the sort leaves a stream whose records were appended in offset order untouched |
| WalLayout.BulkEntries | s3stream-wal/src/object/writer.rs:570-597 | one entry per record of the batch, at strictly ascending offsets inside the batch's window, none past its last-record offset |
| WalLayout.BulkFillsOneWindow | s3stream-wal/src/object/writer.rs:521-529 | a sealed batch always advances the next offset by exactly one 64 MiB window |
| WalInvariant.StepKeepsInv | s3stream-wal/src/object/writer.rs:238-734 | every step keeps the protocol invariant: the status check before the lock, submit, seal, launch, header build, upload, failure, completion, lease check, ack, trim, deletion and foreign acquire, with a fence possible between a call's status check and its lock |
| WalInvariant.RunInv | s3stream-wal/src/object/writer.rs:238-734 | the invariant holds in every reachable state of every interleaving |
| WalSafety.AckedInOrder | s3stream-wal/src/object/writer.rs:642-734 | a batch is acknowledged Ok only if its own and every earlier batch's object reached the store with exactly its records and is still stored or covered by a confirmed trim |
| WalSafety.SealedBatchesTile | s3stream-wal/src/object/writer.rs:479-529 | in every reachable state sealed batches are non-empty, start on a 64 MiB boundary, fit one window and tile the address space |
| WalSafety.ConfirmNeverDecreases | s3stream-wal/src/object/writer.rs:642-689 | over any run the confirm point never moves back and confirmed batches stay the same |
| WalSafety.NoAckAfterLostLease | s3stream-wal/src/object/writer.rs:655-689 | once a lease check has failed, no later completion is acknowledged Ok |
| WalSafety.FailoverListsAcked | s3stream-wal/src/object/writer.rs:601-689 | whatever a displaced writer ever acknowledges Ok is, with its own records, in the listing a new owner takes after acquiring, or covered by a confirmed trim |
| WalSafety.TrimIsPersisted | s3stream-wal/src/object/writer.rs:348-444 | after a trim returns, the newest stored object and every later one carry a header trim of at least its offset, and every header trim was requested |
| WalSafety.NewerSurvives | s3stream-wal/src/object/writer.rs:380-403 | for every object ever uploaded, it or a newer one is in the store, so deletion never empties it |
| WalSafety.DeletedBelowTrim | s3stream-wal/src/object/writer.rs:380-403 | no deleted object of this writer held a record above the trim point persisted in the newest object |
| WalTrace.SubmittedIsWritten | s3stream-wal/src/object/writer.rs:238-291 | over any run the records of the batches, one after the other, are exactly the submitted records and trim sentinels, in step order |
| WalTrace.PlaceBatches | s3stream-wal/src/object/writer.rs:255-277 | a record joins the accumulating batch exactly when it fits the window, otherwise it begins the next batch |
| WalTrace.SubmittedIsStored | s3stream-wal/src/object/writer.rs:238-291 | in every later state a submitted record is at its place in the batch it was given to, and once that batch is acknowledged Ok it is an entry of the batch's stored object, there still unless trimmed |
| WalTrace.TrimWaitsForOwn | s3stream-wal/src/object/writer.rs:366-375 | a trim call waits for the batch that holds its own sentinel record |
| WalTrace.FencedIff | s3stream-wal/src/object/writer.rs:630-689 | the writer is fenced exactly after an upload failed, the lease could not be read, or another owner was found in it |
| WalTrace.AckedIff | s3stream-wal/src/object/writer.rs:642-689 | a completed batch is acknowledged Ok if and only if none of these was seen before its completion pass read the fence |
| WalTrace.AllAckedOk | s3stream-wal/src/object/writer.rs:642-689 | as long as none is seen every completed batch is acknowledged Ok, and between passes the confirm point is the end of the completed batches |
| WalTrace.DoomedIff | s3stream-wal/src/object/writer.rs:375-403 | an object is handed to deletion if and only if a confirmed trim was collected that covers all its records while a newer object had been uploaded |
| WalProgress.BatchesComplete | s3stream-wal/src/object/writer.rs:479-689 | from every reachable state, fenced or not, the writer's steps can complete every batch |
| WalProgress.WriterFinishes | s3stream-wal/src/object/writer.rs:238-689 | from every reachable state of a writer that is not fenced and holds the lease, its steps can acknowledge every submitted record Ok, return from every trim and finish every deletion |
| WalReplay.GetContinuousFromTrimOffset | s3stream-wal/src/object/recover.rs:57-90 | the two index scans return the gap-free run that starts at the first object ending past the trim point |
| WalReplay.SkipOverlapObjects | s3stream-wal/src/object/keys.rs:126-149 | the overlap scan drops the first object exactly when a later object of another epoch starts before its end, and nothing else |
| WalReplay.AckedRunStored | s3stream-wal/src/object/writer.rs:348-444 | from the first window past the persisted trim up to the confirm point no object is missing from the store |
| WalReplay.ReplayExact | s3stream-wal/src/object/recover.rs:57-275 | over any reachable state, replay yields exactly the confirmed user records above the persisted trim, in log order, followed by those of a stored run of submitted unconfirmed batches, at strictly ascending log offsets |
| WalReplay.ReplayAscends | s3stream-wal/src/object/recover.rs:57-275 | whatever the listing, gaps and older epochs included, replay delivers strictly ascending log offsets |
| WalReplay.PersistedTrimBelowConfirm | s3stream-wal/src/object/writer.rs:348-394 | the trim in any uploaded header is at least the reset point and below the confirm point |
| WalTakeover.SkipOverlapKeepsNew | s3stream-wal/src/object/keys.rs:126-149 | the overlap scan drops no object of the newest epoch |
| WalTakeover.AckedContinuous | s3stream-wal/src/object/recover.rs:57-90 | every confirmed object past the persisted trim is stored and lies in the run a recovery reads |
| WalTakeover.TakeoverReplayIff | s3stream-wal/src/object/keys.rs:126-149 | with objects of earlier epochs in the listing, every confirmed object past the trim is read if and only if each older object ending past the trim is directly followed by one starting at its end |
| WalTakeover.OldsAddNothing | s3stream-core/src/storage/s3_storage.rs:446-459 | after the reset at startup, older objects that abut add nothing to replay |
| WalTakeover.LateObjectHidesConfirmed | s3stream-wal/src/object/keys.rs:126-149 | a concrete listing of stored objects in which a late object of a displaced writer hides a confirmed record of its successor |
| WalTakeover.CollectPrevious | s3stream-wal/src/object/writer.rs:405-422 | a trim deletes a prefix of the objects of earlier epochs that end at or before its offset, and the last one only if it deletes something else too |
| WalTakeover.PreviousDeletionKeepsReplay | s3stream-wal/src/object/writer.rs:405-422 | deleting them changes no later replay |
| WalEpochs.BuildEpochs | s3stream-wal/src/object/recover.rs:114-122 | the loop builds the index of where epochs start, a later epoch replacing one that starts at the same offset |
| WalEpochs.LookupRightIff | s3stream-wal/src/object/recover.rs:258-265 | looking up an offset finds the epoch of an object that starts at or before it, if and only if no other epoch's first object starts behind that epoch's first object and at or before the offset, or at the same place but later in the listing |
| WalEpochs.EpochsRightIff | s3stream-wal/src/object/recover.rs:106-275 | a pass reports every record with the epoch of the object that holds it, if and only if no delivered record is shadowed that way |
| WalEpochs.ByStartRight | s3stream-wal/src/object/recover.rs:258-265 | on a listing whose objects ascend in the address space every epoch is right |
| WalEpochs.OwnEpochRight | s3stream-wal/src/object/recover.rs:258-265 | over the objects of one writer, in every reachable state, every epoch is right |
| WalEpochs.LateObjectWrongEpoch | s3stream-wal/src/object/recover.rs:114-122 | a concrete listing in which the record of a late object is replayed with the epoch of another owner |
| WalWriter.WriterState.constructor | s3stream-wal/src/object/writer.rs:106-145 | a new writer has empty queues and starts at the end of the objects it found |
| WalWriter.WriterState.Seal | s3stream-wal/src/object/writer.rs:521-529 | sealing moves the accumulating batch to the waiting queue and rounds the next offset up, as the protocol step does |
| WalWriter.WriterState.Submit | s3stream-wal/src/object/writer.rs:238-291 | a record is rejected exactly when fenced or larger than a window; otherwise it is placed as the protocol step places it, sealing a batch that is full |
| WalWriter.WriterState.TryUploadWaiting | s3stream-wal/src/object/writer.rs:531-554 | waiting batches are handed over oldest first until the inflight limit is reached or none waits |
| WalWriter.WriterState.PopCompleted | s3stream-wal/src/object/writer.rs:642-653 | the finished prefix of the upload queue is taken, and it stops at the first unfinished batch |
| WalWriter.CollectCovered | s3stream-wal/src/object/writer.rs:380-403 | deletion by last-record offset, sparing the greatest key, removes exactly the covered objects that are not the newest |
| Reservation.TargetBytesInjective | s3stream-wal/src/object/reservation.rs:44-52 | two lease owners with the same bytes are the same owner |
| Reservation.ReservationObject.constructor | s3stream-wal/src/object/reservation.rs:29-35 | no owner is recorded before the first acquire |
| Reservation.ReservationObject.Acquire | s3stream-wal/src/object/reservation.rs:56-71 | the last acquire is the recorded owner, whoever held the lease before |
| Reservation.ReservationObject.Verify | s3stream-wal/src/object/reservation.rs:73-99 | the check succeeds exactly when the read succeeds and the caller was the last to acquire |
| WalIterator.FrameRoundTrip | s3stream-codec/src/wal_record.rs:65-175 | a framed record parses back to its offset and record, through both checksums, and leaves what follows |
| WalIterator.BodyRoundTrip | s3stream-wal/src/object/header.rs:63-121 | the header reads back with its start, epoch and signed trim point, and the framed entries follow it |
| WalIterator.GetTrimOffset | s3stream-wal/src/object/recover.rs:38-55 | the trim point parsed from the newest object's bytes is the one it was stored with, none for an empty listing |
| WalIterator.RecoverIterator.constructor | s3stream-wal/src/object/recover.rs:106-138 | the trim point is read from the newest header, the cursor starts before the first entry of the continuous run, and the epoch index is that of the whole listing |
| WalIterator.RecoverIterator.TryReadAhead | s3stream-wal/src/object/recover.rs:185-205 | prefetching skips nothing and leaves a buffer at hand unless no object is left |
| WalIterator.RecoverIterator.LoadNextBuffer | s3stream-wal/src/object/recover.rs:171-183 | the next prefetched object becomes the current data without losing an entry |
| WalIterator.RecoverIterator.Refill | s3stream-wal/src/object/recover.rs:207-211 | a buffer with a record is at hand whenever an entry is left |
| WalIterator.RecoverIterator.Next0 | s3stream-wal/src/object/recover.rs:207-275 | each call delivers the next entry of the run with the epoch the listing's index has for it, and there always is one |
| WalIterator.RecoverIterator.Next | s3stream-wal/src/object/recover.rs:146-165 | trimmed entries and sentinels are skipped, the epoch is delivered with the entry, and the end is reported only when nothing is left |
| WalIterator.RecoverIterator.Drain | s3stream-wal/src/object/recover.rs:146-165 | draining delivers the run's entries above the trim without sentinels, each once and in order, with their looked-up epochs, for every positive budget |
| WalIterator.RecoverAll | s3stream-wal/src/object/recover.rs:106-275 | a whole pass over any listing sorted by epoch and start delivers exactly the replay, and epoch by epoch what the objects hold if and only if no delivered record is shadowed |
| WalBridge.RunClean | s3stream-wal/src/object/writer.rs:363-370 | the log only ever holds submitted user records and trim sentinels |
| WalBridge.ReplayServesRecovery | s3stream-core/src/storage/s3_storage.rs:682-713 | for any prefix of confirmed records the layer above has seen, with or without anything in the store and with abutting objects of earlier epochs in the listing, the log replays those above a trim requested behind the reset, in order, followed only by user records, with ascending log offsets |
| WalBridge.OrderedAbut | s3stream-wal/src/object/writer.rs:147-207 | older objects that ascend and end where the writer started abut as soon as something is confirmed |
| Pipeline.ArchiveConfirmed | s3stream-core/src/cache/log_cache.rs:504-515 | sealing a block changes neither the order nor the number of confirmed records |
| Pipeline.StepKeepsInv | s3stream-core/src/storage/s3_storage.rs:682-1041 | confirm, archive, prepare, upload, commit, trim request and forced upload steps keep the pipeline invariant |
| Pipeline.RunInv | s3stream-core/src/storage/s3_storage.rs:682-1041 | blocks partition the confirmed records in order, commits are first in first out and stop at the first failure, in every reachable state |
| Pipeline.TrimmedIsCommittedIff | s3stream-core/src/storage/s3_storage.rs:960-1041 | every record at or below a requested trim is in a committed block, if and only if no block whose preparation failed was overtaken by a later trim |
| Pipeline.BlockOrder | s3stream-core/src/cache/log_cache.rs:504-515 | every record of an earlier block has a lower log offset than every record of a later one |
| Pipeline.OvertakenLost | s3stream-core/src/storage/s3_storage.rs:970-976 | a skipped block below a later trim holds a record that is trimmed and not committed |
| Pipeline.ForceUploadIff | s3stream-core/src/storage/s3_storage.rs:534-550 | a forced upload that returned Ok has committed every record of the stream confirmed before the call, if and only if no block holding such a record had already failed or been skipped when the call collected what it waits for |
| Pipeline.ForceUploadCommits | s3stream-core/src/storage/s3_storage.rs:534-550 | with no failed commit and no skipped block at that point, Ok means that all of them are committed |
| Pipeline.StepLater | s3stream-core/src/storage/s3_storage.rs:960-1041 | no step changes a block's records or a finished block's status, or takes back a confirmed record |
| Pipeline.ForceAnswerIff | s3stream-core/src/storage/s3_storage.rs:534-550 | a forced upload answers Ok if and only if every block it waited for is committed, and an error if and only if one of them failed or was skipped |
| PipeTrace.BlocksHoldConfirmed | s3stream-core/src/storage/s3_storage.rs:682-713 | the blocks and the block being filled hold exactly the confirmed records, in confirm order |
| PipeTrace.SealedOnly | s3stream-core/src/storage/s3_storage.rs:806-817 | a block is sealed when full, on a timer or limit, or by a forced upload of a stream it holds, and takes over the latest confirmed offset |
| PipeTrace.SkippedIff | s3stream-core/src/storage/s3_storage.rs:965-976 | a block is skipped if and only if its preparation failed |
| PipeTrace.UploadFailedOnly | s3stream-core/src/storage/s3_storage.rs:978-991 | a block's upload counts as failed only if it did |
| PipeTrace.PoisonedIff | s3stream-core/src/storage/s3_storage.rs:999-1041 | commits stop exactly after the worker met a failed upload or a commit answered with an error |
| PipeTrace.CommittedIff | s3stream-core/src/storage/s3_storage.rs:999-1041 | a block the commit worker has passed was skipped, or is committed if and only if no commit up to and including its own has failed |
| PipeTrace.RunWaits | s3stream-core/src/storage/s3_storage.rs:537-545 | a forced upload waits only for blocks that hold a record of its stream |
| PipeTrace.PipelineFinishes | s3stream-core/src/storage/s3_storage.rs:534-1041 | from every reachable state steps exist that finish every block, trim behind each committed one and answer every forced upload; with nothing failed they commit all confirmed records but those of blocks already skipped |
| FailingRuns.OvertakenReached | s3stream-core/src/storage/s3_storage.rs:970-976 | a concrete run that ends with a record trimmed and not committed |
| FailingRuns.ForcedLossReached | s3stream-core/src/storage/s3_storage.rs:534-550 | concrete runs in which a forced upload returns Ok with a record of its stream not committed, after a failed preparation and after a failed commit |
| RecoveryFilter.FoldPerStream | s3stream-core/src/storage/recovery.rs:103-133 | streams do not influence one another: each keeps its own greedy run, and the final map holds the runs' ends |
| RecoveryFilter.GreedyContiguous | s3stream-core/src/storage/recovery.rs:103-133 | the kept records of a stream are gap-free from its committed end |
| RecoveryFilter.BlankAccepts | s3stream-core/src/storage/recovery.rs:56-61 | a fresh block takes any user record, so a carried record whose put is not looked at is never lost |
| RecoveryFilter.Recover | s3stream-core/src/storage/recovery.rs:26-101 | for every replay, map and block limits the blocks hold exactly the fold's records, each once and in order, every block but the last is full, after each block a strictly longer part of the replay is covered, and the map ends as the fold's |
| CrashSafety.StepKeepsInv | s3stream-core/src/storage/s3_storage.rs:339-391 | confirm, commit (also one that took effect but reported an error), trim, stream open, close after any forced upload that returned Ok, foreign commits, crash, replay, recovery commits, reset and restart keep the node invariant |
| CrashSafety.RunInv | s3stream-core/src/storage/s3_storage.rs:339-391 | the node invariant holds in every reachable state, across any number of crashes and recoveries |
| CrashSafety.CommitStored | s3stream-core/src/memory.rs:222-248 | a commit whose ranges continue every stream keeps each stream's committed records one run ending at the metadata's end offset |
| CrashSafety.NextBlockAtFrontier | s3stream-core/src/storage/s3_storage.rs:995-1041 | while nothing has failed, the next block to commit is the log right behind the committed frontier |
| CrashSafety.KeptShape | s3stream-core/src/storage/s3_storage.rs:339-372 | of a stream not closed over uncommitted records, what recovery commits begins with its uncommitted log, and goes beyond it only after all of it |
| CrashLoss.CrashKeepsIff | s3stream-core/src/storage/recovery.rs:103-133 | if the node crashed now, recovery would keep all uncommitted records of a stream, whatever unconfirmed records the log replays, if and only if there are none or the stream is open and they continue its committed end |
| CrashLoss.CrashLosesNothing | s3stream-core/src/storage/s3_storage.rs:339-391 | after a crash at any point, also during a recovery, every record ever acknowledged is committed, or kept by recovery, or its stream was closed with uncommitted records |
| CrashLoss.RecoveredAll | s3stream-core/src/storage/s3_storage.rs:374-390 | when streams are closed and the log is reset, also after recoveries that crashed and were rerun, every record ever acknowledged is in a committed object, or its stream was closed with uncommitted records |
| CrashLoss.CloseLeavesIff | s3stream-core/src/stream.rs:330-335 | a close after a forced upload that returned Ok leaves no uncommitted record if and only if, when that call collected what it waits for, no block whose commit had failed unapplied held a record of the stream |
| CrashLoss.CloseLeavesNothing | s3stream-core/src/stream.rs:330-335 | with no failed commit when its forced upload collected, a close leaves no uncommitted record |
| CrashLoss.ExposedByClose | s3stream-core/src/stream.rs:330-335 | only a close over uncommitted records ever exposes a record |
| CrashLoss.LostIff | s3stream-core/src/storage/s3_storage.rs:374-390 | when recovery has finished, a logged record is missing from the committed objects if and only if some close of its stream left it behind uncommitted, for every stream not reopened over such records |
| CrashLoss.LossNeedsFailure | s3stream-core/src/storage/s3_storage.rs:1020-1040 | a record missing after recovery is traced to the close of its stream and to the block whose commit had failed when that close collected |
| CrashLoss.NothingFailed | s3stream-core/src/storage/s3_storage.rs:995-1041 | over a run in which no commit fails no close leaves anything behind |
| CrashLoss.ClosedIsLost | s3stream-core/src/storage/recovery.rs:103-114 | what a close leaves behind stays uncommitted as long as the stream stays closed, up to and including the reset of the log, and no replay in between brings it back |
| FailingRuns.ClosedLossReached | s3stream-core/src/stream.rs:330-335 | a concrete run: a commit fails, the stream is closed after a forced upload that returned Ok, and crash, recovery and log reset lose the acknowledged record |
| FailingRuns.ReopenedLossReached | s3stream-core/src/storage/recovery.rs:103-133 | a concrete run: the stream is reopened instead and acknowledges another record at the same offset; recovery commits the old record and drops the new one |
| CrashSafety.CommittedOnce | s3stream-core/src/storage/s3_storage.rs:339-391 | in every reachable state a stream's committed records are one gap-free run from zero, none twice |
| CrashProgress.NodeCommits | s3stream-core/src/storage/s3_storage.rs:682-1041 | from every reachable state of a running node in which nothing has failed, steps without a crash commit all it has acknowledged |
| CrashProgress.NodeRestarts | s3stream-core/src/storage/s3_storage.rs:339-391 | from every reachable state, also inside a recovery, the node can crash, recover, close its streams, reset the log and run again, with everything acknowledged committed but what a close exposed |
| CrashProgress.TrimPointIs | s3stream-core/src/storage/s3_storage.rs:905-939 | the trim point of a running node is the greatest end of a committed block whose trim was requested |
| RecoverySteps.StepsCompose | s3stream-core/src/storage/recovery.rs:26-101 | recovering some replayed records and then more is recovering them all at once, in the node's whole state |
| RecoverySteps.BlocksAreSteps | s3stream-core/src/storage/recovery.rs:26-101 | each block the recovery loop hands over is one recovery step of the node, which commits exactly the block's records to each stream |
| Backpressure.StepKeepsInv | s3stream-core/src/storage/s3_storage.rs:554-645 | every step of concurrent appends, rejections, the drain task and completions keeps the admission invariant |
| Backpressure.RunInv | s3stream-core/src/storage/s3_storage.rs:554-645 | the admission invariant holds in every reachable state |
| Backpressure.StreamOrderKept | s3stream-core/src/storage/s3_storage.rs:560-645 | a stream's records reach the log in offset order, and every admitted record without a hard error is in the log, queued or in its append's hands |
| Backpressure.HoleIffHardError | s3stream-core/src/storage/s3_storage.rs:601-604 | the log's part of a stream is gap-free if and only if no record below its end met a hard error |
| Backpressure.PrefixHoleIff | s3stream-core/src/storage/s3_storage.rs:601-604 | the same for every prefix of the log |
| FailingRuns.HoleReached | s3stream-core/src/storage/s3_storage.rs:601-604 | a concrete run that leaves a hole in the log after a hard error |
| Backpressure.ConfirmWithinDurable | s3stream-core/src/stream.rs:172-254 | the confirm offset, raised by completions in any order, never passes the durable part, which is gap-free if and only if no hard error lies below its end |
| AppendTrace.ConfirmNeverDecreases | s3stream-core/src/stream.rs:172-174 | the confirm offset never moves back |
| AppendTrace.ConfirmIsGreatest | s3stream-core/src/stream.rs:172-237 | the confirm offset is the greatest of the offset at which the stream was opened and the ends of its completed records |
| AppendTrace.PathTaken | s3stream-core/src/storage/s3_storage.rs:560-606 | an append goes straight to the log only after an empty queue and a granted permit, and is queued only because the queue was not empty, the permit was refused or the log was full |
| AppendTrace.DrainStep | s3stream-core/src/storage/s3_storage.rs:614-645 | the drain task asks the log only with a permit and removes the head only when the log has answered with something other than full |
| AppendTrace.DroppedIff | s3stream-core/src/storage/s3_storage.rs:601-604 | a record is dropped if and only if the log answered it with a hard error |
| AppendTrace.AppendsFinish | s3stream-core/src/storage/s3_storage.rs:560-645 | from every reachable state steps exist that bring every admitted record without a hard error into the log, in order, and raise each confirm offset to the end of its stream |
| CacheBlocks.PutBlockOk | s3stream-core/src/cache/log_cache.rs:204-226 | a put appends to one stream's records exactly when accepted and keeps every stream of the block gap-free with valid hints |
| CacheBlocks.ReadShape | s3stream-core/src/cache/log_cache.rs:447-496 | a nonempty read is gap-free, meets the end offset or the budget with its last record and not before, and begins with the record covering the start or is cut from the longest gap-free tail when that begins inside the range |
| CacheLaws.ReadFindsIff | s3stream-core/src/cache/log_cache.rs:447-496 | a read finds something if and only if the run from the covering record, or the longest gap-free tail when it begins inside the range, meets the end offset or the budget |
| CacheBlocks.TailIsLongest | s3stream-core/src/cache/log_cache.rs:475-490 | the tail index starts a gap-free tail that one more record would break |
| CacheBlocks.CoveredReadIsServed | s3stream-core/src/cache/log_cache.rs:447-496 | any cached gap-free range is served: the read is the run from the covering record up to the end offset or the budget |
| CacheBlocks.FulfilledIff | s3stream-core/src/cache/log_cache.rs:447-477 | the run from a record is long enough exactly when a record is reached without a gap at which the end offset or the budget is met |
| CacheBlocks.RecordIsServed | s3stream-core/src/cache/log_cache.rs:447-496 | asking for exactly one cached record returns that record |
| CacheReads.SearchStartIndex | s3stream-core/src/cache/log_cache.rs:105-133 | a hint is used and consumed when present; otherwise the binary search finds the covering record or shows there is none |
| CacheReads.HintCovers | s3stream-core/src/cache/log_cache.rs:94-116 | inside the cached range a hint left by an earlier read names the covering record |
| CacheReads.TakeFrom | s3stream-core/src/cache/log_cache.rs:83-93 | the loop stops after the record that reaches the end offset or uses up the budget, or at the last one |
| CacheReads.StreamGet | s3stream-core/src/cache/log_cache.rs:68-103 | the result is the run from the covering record whatever hints earlier reads left, and only hints change |
| CacheReads.BlockGet | s3stream-core/src/cache/log_cache.rs:228-240 | a block serves the run of the stream it holds and changes nothing but hints |
| CacheSteps.FreePrefixSplits | s3stream-core/src/cache/log_cache.rs:535-569 | physical freeing removes a prefix of freed blocks, each only while what is left exceeds a limit, and stops at the first block in use or when the limits are met |
| CacheLaws.ListsGrow | s3stream-core/src/cache/log_cache.rs:417-641 | while the cache stays within its limits every stream's list only grows at its end |
| CacheLaws.ServedWhileWithin | s3stream-core/src/cache/log_cache.rs:417-641 | marked free or not, a cached record is served as long as the cache stays within its limits |
| CacheLaws.RunMarkedFree | s3stream-core/src/cache/log_cache.rs:529-533 | in every run a block that was marked is free |
| CacheLaws.FreeMakesRoom | s3stream-core/src/cache/log_cache.rs:535-569 | after freeing, the cache is within its limits or its oldest block was never marked free |
| CacheLaws.MergePassFinishes | s3stream-core/src/cache/log_cache.rs:571-600 | a merge pass leaves no two mergeable neighbours in front of the first block in use, unless it got down to the threshold, and never goes below it |
| CacheLaws.SizeIsRecords | s3stream-core/src/cache/log_cache.rs:417-641 | in every run the size counter is the total size of the records the cache holds |
| CacheLaws.LastIs | s3stream-core/src/cache/log_cache.rs:504-515 | the latest log offset is the one reported last |
| CacheLaws.SealedCarriesLast | s3stream-core/src/cache/log_cache.rs:504-515 | a sealed block carries the log offset confirmed last before it was sealed, until it is marked free |
| CacheSteps.MergeList | s3stream-core/src/cache/log_cache.rs:571-641 | merging two freed neighbours changes no stream's list of cached records |
| CacheSteps.MergePass | s3stream-core/src/cache/log_cache.rs:571-600 | a whole merge pass changes no list, keeps the invariant and the active block |
| CacheSteps.PutList | s3stream-core/src/cache/log_cache.rs:417-428 | a put appends the record to its stream's list and touches no other |
| LogCache.StepKeepsInv | s3stream-core/src/cache/log_cache.rs:417-641 | every operation keeps the cache invariant |
| LogCache.RunInv | s3stream-core/src/cache/log_cache.rs:417-641 | in every run the cache size is the sum of its block sizes and the active block is in use |
| LogCache.ReadableUntilFreed | s3stream-core/src/cache/log_cache.rs:417-641 | over any run of puts, reads, seals, merges and frees a record is served until the block that received it is marked free |
| LogCache.LogCache.constructor | s3stream-core/src/cache/log_cache.rs:394-415 | a new cache has one empty active block |
| LogCache.LogCache.TryRealFree | s3stream-core/src/cache/log_cache.rs:535-569 | the loop frees exactly the specified prefix and keeps the size equal to the sum of block sizes |
| LogCache.LogCache.Put | s3stream-core/src/cache/log_cache.rs:417-428 | freed blocks are released first, then the record goes to the active block if it accepts it |
| LogCache.LogCache.Get | s3stream-core/src/cache/log_cache.rs:430-496 | the result is the plain-list read for every query, independent of block boundaries and hints, and the recursion ends |
| LogCache.ScanBlocks | s3stream-core/src/cache/log_cache.rs:447-477 | the first pass returns the covering run exactly when it is fulfilled |
| LogCache.LogCache.TailStart | s3stream-core/src/cache/log_cache.rs:478-491 | the backward scan finds the start of the longest gap-free tail |
| LogCache.LogCache.ArchiveCurrentBlock | s3stream-core/src/cache/log_cache.rs:504-515 | the active block is sealed with the latest log offset and a fresh one takes its place |
| LogCache.LogCache.MarkFree | s3stream-core/src/cache/log_cache.rs:529-533 | marking is followed by freeing and a merge pass, and every stream's remaining list is a suffix of what it was |
| LogCache.LogCache.TryMerge | s3stream-core/src/cache/log_cache.rs:571-600 | the loop performs exactly the specified merges |
| LogCache.IsDiscontinuous | s3stream-core/src/cache/log_cache.rs:602-614 | true exactly when some shared stream's parts do not meet |
| LogCache.MergeBlock | s3stream-core/src/cache/log_cache.rs:616-641 | every stream of the source is appended once |
| Builders.CompactedObjectBuilder.constructor | s3stream-core/src/compact/plan.rs:127-134 | a new builder is empty |
| Builders.CompactedObjectBuilder.AddBlock | s3stream-core/src/compact/plan.rs:174-180 | the block is appended and the window still marks the last stream |
| Builders.CompactedObjectBuilder.ResetCurrStreamPosition | s3stream-core/src/compact/plan.rs:153-164 | the scan recomputes the window of the last stream |
| Builders.CompactedObjectBuilder.SplitOff | s3stream-core/src/compact/plan.rs:140-151 | the chosen blocks move to a new builder of the same kind, the rest stay, and out-of-window requests move nothing |
| Builders.CompactedObjectBuilder.Merge | s3stream-core/src/compact/plan.rs:208-214 | another builder's blocks are appended unless it is a stream object |
| Builders.SplitObject | s3stream-core/src/compact/plan.rs:620-631 | the window becomes a stream object and a non-empty rest an object of its own |
| Builders.SplitAndAddBlock | s3stream-core/src/compact/plan.rs:607-618 | a run larger than the split size leaves before the next stream's block is added |
| Builders.CompactObjects | s3stream-core/src/compact/plan.rs:568-605 | grouping fails exactly when two blocks of a stream overlap; otherwise the objects hold the sorted blocks in order, stream objects are single runs that had to leave, the other blocks have one run per stream, none above the split size, and no gap-free run is cut in two |
| Builders.FinishBuilder | s3stream-core/src/compact/plan.rs:599-604 | the last builder is split off or pushed, and no block is lost |
| Exclusion.FilterBlocksToCompact | s3stream-core/src/compact/plan.rs:283-304 | an object is kept exactly when it shares a stream with another object |
| Exclusion.SharedAfterRemoval | s3stream-core/src/compact/plan.rs:494-500 | filtering again after removals is the same as removing first and filtering once |
| Exclusion.SortStreamRangePositions | s3stream-core/src/compact/plan.rs:265-280 | the result is sorted by stream and start offset and holds each block exactly as often as the map |
| Exclusion.Stats | s3stream-core/src/compact/plan.rs:231-250 | counts the stream objects and the streams of the stream set objects |
| Exclusion.SmallestSplit | s3stream-core/src/compact/plan.rs:528-538 | picks a stream object with the fewest blocks, ties broken by the fewest uses of its sources |
| Exclusion.SmallestStream | s3stream-core/src/compact/plan.rs:553-564 | picks the stream whose objects hold the fewest streams, ties broken by id |
| Exclusion.AddObjectsToRemove | s3stream-core/src/compact/plan.rs:513-566 | the excluded objects are all sources of the cheapest stream object or stream |
| Exclusion.ExclusionOccurs | s3stream-core/src/compact/plan.rs:476-479 | whatever is excluded still occurs among the blocks, so the branch for nothing to exclude cannot be taken |
| Exclusion.GroupObjectWithLimits | s3stream-core/src/compact/plan.rs:449-511 | the exclusion loop ends; its result uses exactly the blocks of the objects not excluded and is within both limits; it gives up only when nothing shares a stream or blocks overlap; every exclusion was chosen from a grouping of the blocks left that exceeded a limit, so with no such grouping and no overlap whatever shares a stream is grouped |
| Exclusion.NothingExcluded | s3stream-core/src/compact/plan.rs:504-509 | when every grouping of the blocks is within the limits nothing is excluded |
| Exclusion.FirstRound | s3stream-core/src/compact/plan.rs:504-509 | an exclusion means that the grouping of all blocks exceeded a limit |
| Staging.BuildReads | s3stream-core/src/compact/plan.rs:710-721 | a stage's read map holds exactly the blocks of its outputs, by object and in position order |
| Staging.CutPoint | s3stream-core/src/compact/plan.rs:648-656 | the longest prefix of blocks that fits the rest of the cache |
| Staging.GeneratePlan | s3stream-core/src/compact/plan.rs:702-727 | a stage lists its stream objects, then at most one stream set object |
| Staging.GeneratePlanWithCacheLimit | s3stream-core/src/compact/plan.rs:633-685 | the staging loop ends, every stage fits the cache and ends only at a block that does not fit any more, stream objects stay single runs, and over all stages the blocks of each kind are the planned ones, each once and in order |
| Compaction.Analyze | s3stream-core/src/compact/plan.rs:431-447 | planned blocks over all stages are exactly those of the sharing objects that were not excluded, stream set blocks have one run per stream, and nothing is planned only if nothing shares a stream or blocks overlap; with a shared stream, no overlap and no limit exceeded there is a plan and nothing is excluded |
| Compaction.CollectOutputs | s3stream-core/src/compact/mod.rs:457-471 | stream set blocks are collected in order over all stages, one range per stream object |
| Compaction.CollectSources | s3stream-core/src/compact/mod.rs:480-495 | the compacted objects are those read by a stage or without blocks |
| Compaction.PlannedCovered | s3stream-core/src/compact/mod.rs:473-475 | every offset of a planned block is served by an output range |
| Compaction.AssembleRequest | s3stream-core/src/compact/mod.rs:455-505 | the request lists the runs of the stream set blocks, the stream objects' ranges, and the objects read or without blocks |
| Compaction.PlannedLosesNothing | s3stream-core/src/compact/mod.rs:473-505 | the request of a planned round loses no offset of any compacted object |
| Compaction.CompactRound | s3stream-core/src/compact/mod.rs:381-510 | planning, assembling and checking: the blocks planned are those of the sharing objects that were not excluded, each once, exclusions come from exceeded limits only, and the check passes for every input |
| Compaction.FilterInvalidStreamDataBlocks | s3stream-core/src/compact/mod.rs:521-536 | exactly the blocks of existing streams that reach past the stream start are kept |
| Compaction.FilteringHidesNoLoss | s3stream-core/src/compact/mod.rs:521-605 | dropping dead blocks first changes no answer of the sanity check |
| Grouping.GroupByOffsetPredicate.constructor | s3stream-core/src/compact/plan.rs:382-387 | no block has been seen |
| Grouping.GroupByOffsetPredicate.Test | s3stream-core/src/compact/plan.rs:389-406 | a block continues the group exactly when it is the first or meets the previous one in the same stream |
| Grouping.GroupByOffset | s3stream-core/src/compact/plan.rs:307-325 | groups are the maximal gap-free runs and concatenate to the input |
| Sanity.SortRanges | s3stream-core/src/compact/mod.rs:565 | sorting by start changes no covered offset |
| Sanity.MergeRanges | s3stream-core/src/compact/mod.rs:566-572 | merged ranges never touch and cover exactly the same offsets |
| Sanity.CoveredIffInOne | s3stream-core/src/compact/mod.rs:588-592 | a block lies in the union of ranges exactly when one merged range contains it |
| Sanity.MergeOutputs | s3stream-core/src/compact/mod.rs:549-575 | each stream's merged ranges cover exactly its output ranges |
| Sanity.IsSanityCheckFailed | s3stream-core/src/compact/mod.rs:539-605 | the check fails exactly when an offset of a compacted object's block that is not wholly trimmed is served by no output |
| Codec.PutGet | s3stream-codec/src/record.rs:33-41 | a big-endian field reads back what was written if it fits |
| Codec.RecordRoundTrip | s3stream-codec/src/record.rs:44-93 | parsing undoes encoding and leaves exactly what follows |
| Codec.BlockRoundTrip | s3stream-object/src/writer.rs:307-321 | a data block in front of a region decodes to its records, then the region's |
| Codec.DecodeConcat | s3stream-object/src/reader.rs:180-221 | regions decode independently: a concatenation yields the concatenated records |
| Codec.DecodeDataBlock | s3stream-object/src/reader.rs:180-221 | the nested loops compute the decoding, including every error case |
| Codec.TakeRecords | s3stream-object/src/reader.rs:211-218 | exactly the announced number of records is parsed and bytes left over are an error |
| Codec.IndexRoundTrip | s3stream-object/src/index.rs:42-70 | an index entry decodes to itself |
| Codec.ParseIndexBlock | s3stream-object/src/index.rs:95-113 | parsing fails exactly on a length that is no multiple of 36, otherwise every entry is read from its place |
| Codec.EntryRoundTrip | s3stream-object/src/index.rs:116-122 | entry i of an encoded index is found at its place |
| ObjectFormat.BasicObjectInfo | s3stream-object/src/reader.rs:57-111 | the footer is accepted exactly when size, magic and geometry fit, and the result is the stored data size and index |
| ObjectFormat.ReadBack | s3stream-object/src/reader.rs:57-111 | an index whose entries fit their widths reads back from behind any data section |
| ObjectFormat.ObjectRoundTrip | s3stream-object/src/reader.rs:57-111 | reading a written object yields the written data size and index |
| ObjectFormat.EntryDecodesToBlock | s3stream-object/src/reader.rs:180-221 | the bytes at an index entry decode to the records of its block |
| ObjectFormat.WrittenIndexSorted | s3stream-object/src/writer.rs:219-234 | blocks in order give a sorted index without overlaps |
| ObjectWriter.GroupByBlock | s3stream-object/src/writer.rs:168-183 | blocks are cut where the accumulator, carried over between writes, reaches the threshold |
| ObjectWriter.GroupCuts | s3stream-object/src/writer.rs:168-183 | a block ends with the first record at which its payload, with what was carried over into the first block, reaches the threshold |
| ObjectWriter.GroupKeeps | s3stream-object/src/writer.rs:168-183 | grouping keeps every record in order and makes no empty block |
| ObjectWriter.ObjectWriter.constructor | s3stream-object/src/writer.rs:93-113 | a new writer is empty and its part threshold is at least 5 MiB |
| ObjectWriter.ObjectWriter.Check | s3stream-object/src/writer.rs:134-166 | a write is accepted exactly when neither stream nor offset goes back |
| ObjectWriter.ObjectWriter.Write | s3stream-object/src/writer.rs:117-132 | an accepted write appends its records in blocks; a rejected one changes nothing |
| ObjectWriter.ObjectWriter.Enqueue | s3stream-object/src/writer.rs:123-131 | new blocks are queued behind the waiting ones and full parts leave at once |
| ObjectWriter.TakeForPart | s3stream-object/src/writer.rs:187-198 | the shortest prefix of waiting blocks that fills a part |
| ObjectWriter.ObjectWriter.TryUploadPart | s3stream-object/src/writer.rs:185-207 | uploaded parts are the completed blocks' bytes, each at least the part threshold |
| ObjectWriter.ObjectWriter.Close | s3stream-object/src/writer.rs:211-246 | the parts concatenate to data, index and footer, and every part but the last has at least 5 MiB |
| ObjectWriter.BuildIndex | s3stream-object/src/writer.rs:219-234 | entries carry running positions |
| ObjectIndex.Search | s3stream-object/src/index.rs:133-155 | a hit contains the target; a miss gives the place where it belongs |
| ObjectIndex.Scan | s3stream-object/src/index.rs:159-220 | from an entry that contains the start of a sorted index, the scan loop takes exactly the gap-free run |
| ObjectIndex.Find | s3stream-object/src/index.rs:159-220 | on a sorted index search plus scan equals the linear lookup of the gap-free run |
| ObjectIndex.RunShape | s3stream-object/src/index.rs:159-220 | found entries are consecutive, meet exactly, start with the one containing the offset, and stop at the end offset, the budget or the first break |
| ObjectIndex.RunIsShortest | s3stream-object/src/index.rs:159-220 | the lookup stops at the first entry that meets the end offset or the budget, is fulfilled exactly then, and leaves the budget minus the charge of every entry read from its start |
| ObjectIndex.ServedRecords | s3stream-object/src/index.rs:159-220 | a lookup finds something exactly when a written block reaches over the offset; the region of the found entries decodes to exactly the records written into those blocks, in order, and the index is the one read back from the bytes |
| ObjectIndex.WrittenFound | s3stream-object/src/index.rs:159-220 | every written record is found at its base offset |
| BlockReader.ReadRun | s3stream-core/src/compact/executor.rs:150-168 | one read cut at the block sizes gives each block its own bytes |
| BlockReader.ReadChunked | s3stream-core/src/compact/executor.rs:118-133 | a block larger than a batch, read in chunks, is its own bytes |
| BlockReader.ReadContinuous | s3stream-core/src/compact/executor.rs:103-147 | batched and chunked reads return each block's own bytes in order for every batch size |
| BlockReader.ReadBlocks | s3stream-core/src/compact/executor.rs:78-101 | coalescing by position returns each block's own bytes in input order for every batch size |
| Rewrite.GroupByLimitPredicate.constructor | s3stream-core/src/compact/plan.rs:339-348 | no block has been seen |
| Rewrite.GroupByLimitPredicate.Test | s3stream-core/src/compact/plan.rs:350-372 | a block joins the group exactly when stream, offset, size, count and span allow it |
| Rewrite.GroupByLimit | s3stream-core/src/compact/plan.rs:307-372 | groups are runs within all limits, as long as possible, and concatenate to the input |
| Rewrite.CutIffOver | s3stream-core/src/compact/plan.rs:350-372 | a group is cut exactly where one more block would exceed a limit or break its run |
| Rewrite.BuildDataBlockIndices | s3stream-core/src/compact/executor.rs:272-294 | one entry per group with the running position |
| Rewrite.GroupEncodes | s3stream-core/src/compact/executor.rs:281-289 | the size, count and span limits keep a group's entry within its 32-bit fields |
| Rewrite.RegroupedEncodes | s3stream-core/src/compact/executor.rs:281-289 | no cast of the regrouped index loses anything |
| Rewrite.IndexTiles | s3stream-core/src/compact/executor.rs:272-294 | entries follow one another without a hole and end with the data section |
| Rewrite.CopiedRecords | s3stream-core/src/compact/executor.rs:229-240 | copied blocks decode to the concatenation of their source records |
| Rewrite.RewritePreserves | s3stream-core/src/compact/executor.rs:229-294 | the region of each new entry decodes to exactly the records of the source blocks it covers, in order |
| Rewrite.RegroupedSorted | s3stream-core/src/compact/executor.rs:272-294 | blocks with one run per stream give a sorted index |
| Rewrite.SourceStillFound | s3stream-core/src/compact/executor.rs:272-294 | every offset a source block served is found in the new index, in the entry of its group |
| Rewrite.RewriteReadsBack | s3stream-core/src/compact/executor.rs:245-265 | a reader gets exactly the regrouped index back from the rewritten object's bytes |
| RewriteServes.RewriteServesSources | s3stream-core/src/compact/executor.rs:229-294 | a lookup on the index read back from the rewritten object finds something exactly when a copied block serves the offset, and the found region decodes to the records of consecutive source blocks of the stream, in order |
| RoundServes.RoundServesBlock | s3stream-core/src/compact/mod.rs:408-475 | every offset served by a block of a replaced object is found in the round's stream set object or a stream object, in a region of that stream that decodes to the block's records between those of its neighbours |
| RoundServes.RoundServesSources | s3stream-core/src/compact/mod.rs:408-510 | where the stored index of a replaced object leads to a block for an untrimmed offset, an object written by the round leads to the same records |
| RoundServes.RoundServesOnlySources | s3stream-core/src/compact/mod.rs:408-475 | whatever a lookup finds in an object written by the round was served by a block of an object that was not excluded |
| Rewrite.DataBlockWriter.constructor | s3stream-core/src/compact/executor.rs:203-223 | a new writer has written nothing |
| Rewrite.DataBlockWriter.Write | s3stream-core/src/compact/executor.rs:229-240 | a block's bytes are copied verbatim and full parts are uploaded |
| Rewrite.DataBlockWriter.Close | s3stream-core/src/compact/executor.rs:245-265 | the parts are the copied bytes, the regrouped index and the footer, and the index reads back from them |
| StreamMerge.Group0 | s3stream-core/src/compact/stream_compactor.rs:469-517 | groups concatenate to the mergeable objects; a group of several is contiguous and within the size, count, part and span limits, and ends only when the next object would break one |
| StreamMerge.CopyIsLive | s3stream-core/src/compact/stream_compactor.rs:236-287 | the bytes copied from a source are exactly those of its blocks past the stream start |
| StreamMerge.DroppedPrefix | s3stream-core/src/compact/stream_compactor.rs:233-238 | up to a block that ends at or before the stream start nothing is live |
| StreamMerge.MergeSource | s3stream-core/src/compact/stream_compactor.rs:232-290 | one source: trimmed blocks are skipped, live ones regrouped, and the start offset follows the last skipped block |
| StreamMerge.PhysicalMerge | s3stream-core/src/compact/stream_compactor.rs:200-324 | the merged object holds exactly the live blocks, its index is their regrouping within the limits and reads back from its bytes, and the reported range and size are right |
| StreamMerge.AllLiveRun | s3stream-core/src/compact/stream_compactor.rs:232-290 | over all sources the live blocks are one gap-free run of the stream |
| StreamMerge.MergedObject | s3stream-core/src/compact/stream_compactor.rs:200-324 | entries are sorted, tile the copied bytes, meet over the committed range and decode to the live blocks' records |
| StreamMerge.FinishMerge | s3stream-core/src/compact/stream_compactor.rs:288-324 | the open group, the index and the footer follow the copied data |
| StreamMerge.MergedServes | s3stream-core/src/compact/stream_compactor.rs:200-324 | a lookup on the index read back from the merged object finds something exactly when a live source block serves the offset, and the found region decodes to the records of consecutive live blocks, in order |
| StreamMerge.MergedServesSource | s3stream-core/src/compact/stream_compactor.rs:232-290 | every offset from the stream start on that an entry of a source contained is found in the merged object |
| StreamMerge.GeometryHolds | s3stream-object/src/reader.rs:87-95 | any data section with index and footer passes the reader's geometry check |

## Left out

- Object-store adapters, retries, timers, metrics, configuration and failure handlers: timers are nondeterministic seal steps and storage answers are nondeterministic outcomes.
- Widths of log offsets, epochs and counters: they are unbounded integers; 64-bit wrap-around is not modelled outside the byte formats.
- The checksum itself: it is an arbitrary function masked to 31 bits; that a flipped bit is detected is not claimed.
- Version 0 log objects and record bodies that span two objects.
- `buffered_data_bytes` and the over-capacity rejection of `submit` in the log model; `Backpressure` treats that rejection as a possible outcome.
- WalSafety.DeletedBelowTrim: follows one writer's own objects; objects of earlier epochs are an arbitrary listing, and their deletion is `WalTakeover.CollectPrevious`, outside the state machine.
- WalWriter.WriterState.Submit: the acknowledgement channel and the timer that seals a batch later are not part of it; the protocol has a seal step for the timer.
- WalIterator.RecoverIterator.Next0: corrupt buffers are excluded by its precondition, since the objects of the run are those the writer stored.
- RecoveryFilter.Recover: errors of the replay iterator and of the block handler are not modelled here; in `CrashRecovery` they are crashes between recovered blocks.
- CrashSafety.StepKeepsInv: a record confirmed after its stream was closed is not modelled; `close_with(force = true)` does not wait for appends in flight, so it can acknowledge such a record.
- Link records and their decoding, snapshot reads, the block cache, and stitching of cache and object reads.
- `clear_stream_records`, per-block free listeners and `replace_record` of the cache; blocks are values identified by id, so two handles to one block are not modelled.
- LogCache.LogCache.Put: the source logs and accepts a record that does not continue its stream inside the active block; the model asks callers for records in order.
- Locking inside one cache operation: each operation is atomic, and the window between releasing blocks and lowering the size counter is not modelled.
- The cap on objects per compaction round and their order by age: a round starts from any map of objects to blocks.
- `delay_trim`: postponing a trim request; the pipeline model requests trims at any point after the commit.
- Builders of the staging loop are values; only the grouping loop uses the builder object.
- `force_split_all`, `cleanup_expired`, `cleanup_v1_groups`, composite objects, and the upload task's choice between stream objects and the stream set object.
- The limit on stream objects after staging: a stage boundary may cut one stream object in two, so `Exclusion.GroupObjectWithLimits` states the limit before staging only.
- Key prefixes, MD5 paths and object names: objects are identified by position or id.
