# gh-ost: a verified model

gh-ost changes the schema of a live MySQL table. It copies the original table's
rows into a ghost table in key-range chunks (`insert ignore ... select`), at the
same time replays the row changes it reads from the binary log, and finally swaps
the two tables under a lock. Whether the ghost ends up equal to the original is a
property of whole runs of several concurrent parties. This project models that
core and proves it, with `dafny verify dfyconfig.toml`.

## How it is organised

**The migration as a whole** (`Protocol`, `ProtocolProof`, `ProtocolTheorems`,
`ReplayAlone`, `ReplayProgress`, over `Replay`, `Batching`, `Flow`). A state machine whose steps belong to the
server, the binlog reader, the dispatcher, the worker, the row copy, the
checkpoint writer and the process, which may crash and resume. A run is any
interleaving. The inductive invariant says of every key that the row copy has not
reached it and the ghost lacks it, or the ghost holds what the original held at
some log position that the replay has not passed. Beside what no run does, the theorems
say what every state can still get to: a quiet ghost, an answered challenge, a stored
checkpoint.

**The parts, in the form the program gives them.** Objects that the program
updates in place are classes whose methods are proved against the functions the
theorems are about:

- `ApplyWorker.Migrator`: the worker that drains the apply queue in batches.
- `RowCopy.MigrationContext`: the walk over the key range, chunk by chunk, with
  retries, chunk-size changes and a table that changes between any two queries.
- `RowEvents.DMLEvent` and the builders around it: events turned into statements
  in place, including the tag that is rewritten on the way.
- `Reader.GoMySQLReader`, `Streamer.EventsStreamer`, `Sentinel.Migrator`,
  `MasterSearch.InstanceKeyMap`.

**The query builder** (`RangePredicate`, `RangeQuery`, `RangeEnd`, `Ordering`,
`Chunks`). Predicates are syntax with positional placeholders and an evaluator;
queries are judged by the rows they select from every table.

**The cut-over** (`CutOver`, `CutOverProof`, `CutOverSuccess`, `CutOverReplay`,
`CutOverReplaySuccess`). Migrator, locking session, renaming session and server as
interleaved steps, with session death, any failure, and further attempts while sessions
of earlier ones are still at work; and the same machine run together with the replay.
What a success means, and exactly when one is still possible.

**Values and names** (`Columns`, `Projection`, `Dml`, `RowEvents`, `RowReplay`,
`ReaderReplay`, `Coordinates`, `Decimal`). What the binlog logs of a value, how an argument restores
it, and what a built statement does to the ghost.

The parts meet: `ReaderReplay` shows that what the reader sends for a logged rows event is
what was logged of its changes; `RowReplay` and `GhostRows` show that the built statements perform
`Replay.Apply`, the step of the protocol's replay; `RowCopy` shows that a copied
chunk performs `Protocol.CopyRows`, the step of the protocol's copy; `GhostRows`
shows that the copy writes the rows that the replay would write; `ApplyWorker`
performs runs of `Batching.Batch`, the protocol's way of taking tasks; and
`CutOverReplay` derives from the protocol what the cut-over relies on.

## Hypotheses

The theorems need these, and each is written out where it is used:

- The migration key is not null and is the only unique index of the ghost; its
  columns are stored, shared and keep their names.
- A chunk copy reads the latest committed state of the original atomically.
- A queued `RENAME` is granted before blocked writes to the original.
- For a key of two columns, values of its first column print alike exactly when
  they are equal, and a range does not start beyond its end.
- While a cut-over runs the process does not crash, its stream does not fall back to
  its initial coordinates, and no retried batch does something else to the ghost than
  at first (`ProtocolTheorems.Careful`, the steps that `CutOverReplay.Process` allows).
- Database calls return.

## What turned out not to hold

- A batch that fails and is retried builds its statements again. An update that
  changes the key was tagged as an insert by the first build, so the second build
  lacks the delete (`RowEvents.SecondBuild`, `ProtocolTheorems.RetriedMoveDiverges`). The
  ghost comes out the same if and only if no key changes or the ghost lacks the old key
  (`Replay.RebuiltSameExactlyWhen`).
- `doc/resume.md` says that resuming preserves the ghost's integrity. A change that
  is read after a resume and before the listener is registered is not decoded, and
  never replayed (`ProtocolTheorems.UnheardChangeDiverges`). Reading it leaves no gap
  if and only if the listener is there (`ProtocolTheorems.UnheardExactlyWhen`).
- Two stream failures without a completed transaction in between send the reader
  back to its initial coordinates. A checkpoint stored then, and a resume from it,
  skip changes (`ProtocolTheorems.FallBackDiverges`). There is no fourth hazard: every
  other step of every party keeps the invariant (`ProtocolProof.InvKept`), from which
  convergence follows.
- `doc/cut-over.md` says that a failed cut-over leaves the original in place. The
  `RENAME` of an attempt that has returned an error still swaps the tables, now or
  later, if and only if it is on its way and the magic table is gone, or can still be
  dropped by a locking session or by the next attempt (`CutOverReplay.SwapsExactlyWhen`).
  Ways there: the migrator gives up waiting for the `RENAME` before it is issued
  (`CutOverProof.GivingUpIsReachable`); the `RENAME` is queued and found but the check of
  the lock errs (`CutOverProof.FailsYetSwaps`); the magic table is left over until the
  next attempt drops it (`CutOverProof.LeftoverMagicIsReachable`).
- Such a late swap can lose a write if and only if the `RENAME` is still to be issued,
  or is queued while the tables differ or something on its way to the ghost will make
  them differ (`CutOverReplay.LosesExactlyWhen`). It cannot if nothing was written since
  the last answered challenge, or if everything logged is replayed.
- A renaming session that cannot begin its transaction leaves the migrator waiting
  for its session id for ever; the table lock is released all the same
  (`CutOverProof.HangsExactlyWithoutBegin`, `CutOverProof.TokenIsComing`).
- The two-column range queries select too much when the first values are equal in
  the column's collation but spelled differently, or when the start lies beyond
  the end (`RangeQuery.TwoColumnExactlyWhen`). A resume may start there: the range
  is read anew and may end before the checkpoint's chunk. The resumed walk is sound
  if and only if the chunk's first value is not beyond the range's
  (`RowCopy.MigrationContext.Resume`).
- Of two GTID sets that do not include each other, each counts as smaller than the
  other (`Coordinates.GtidOrderExactlyWhen`).
- The end recorded for the checkpoint need not be that of a copied chunk. When no key
  is left it is the end of what was copied if and only if no failed attempt had found
  a further end, nor a checkpoint recorded one before anything was copied
  (`RowCopy.MigrationContext.CopyChunk`; an input is `RowCopy.RecordsUncopiedEnd`).
  Nothing is lost by it: the protocol's copy may finish at any such end
  (`ProtocolProof.InvKept`).

## Model

| member | source | states |
|---|---|---|
| `Replay.KeyOkApply` | go/logic/applier.go:1730-1759 | Replaying the next logged change keeps a key's invariant one position further on, whether the ghost was level, ahead or did not have the key yet. |
| `Replay.KeyOkCopied` | go/logic/applier.go:1154-1247 | Copying a row with insert-ignore from the current original establishes the invariant for a covered key, also over a ghost row that is ahead. |
| `Replay.CatchUp` | go/logic/applier.go:1863-1970 | Replaying all remaining changes over a wholly copied ghost ends in exactly the original. |
| `Replay.RewindReachesSameGhost` | go/logic/streamer.go:284-321 | Rewinding to any earlier position and replaying from there reaches the same ghost as not rewinding. |
| `Replay.KeyOkAhead` | go/logic/applier.go:1863-1970 | Replaying a change that is ahead of the position, as a retried batch does that took effect unseen, loses nothing of a key's invariant. |
| `Replay.RebuiltSameExactlyWhen` | go/logic/applier.go:1744-1751 | A second build of an event does to the ghost what the first would do if and only if the event moves no key or the ghost lacks the key it moves from. |
| `Batching.BatchBounds` | go/logic/migrator.go:1796-1813 | A batch of rows holds at least one and at most batch-size rows, and a function only in last place. |
| `Batching.BatchesPartitionRows` | go/logic/migrator.go:1768-1838 | For any queue and any batching, the committed batches concatenate to the queue's rows: none lost, repeated or reordered. |
| `Batching.BatchSizes` | go/logic/migrator.go:1796-1798 | Every committed batch of a run holds between one row and the largest batch size in force. |
| `Batching.EffectsInQueueOrder` | go/logic/migrator.go:1798-1836 | In every run a function runs when exactly the rows ahead of it are committed, and a transaction is acknowledged only when its marker and all rows ahead of it have been handled. |
| `Batching.FunctionsAllRun` | go/logic/migrator.go:1774-1836 | However the batches fall, every function in the queue runs exactly once, in order, and the coordinate acknowledged last is that of the queue's last marker. |
| `ApplyWorker.Migrator.SetDMLBatchSize` | go/base/context.go:702-710 | The batch size is clamped to 1..1000 and otherwise taken as given. |
| `ApplyWorker.Migrator.RetryOperation` | go/logic/migrator.go:168-199 | Succeeds exactly when some attempt succeeds and every one before it failed in a way that may be retried, or when there is no attempt. |
| `ApplyWorker.Migrator.HandleNonDML` | go/logic/migrator.go:1774-1786 | A marker is acknowledged; a function has its effect exactly when one of its attempts succeeds. |
| `ApplyWorker.Migrator.Collect` | go/logic/migrator.go:1790-1813 | While other tasks keep arriving, the draining loop never receives from an empty queue, and takes exactly the batch, its last marker and its function. |
| `ApplyWorker.Migrator.ApplyBatch` | go/logic/migrator.go:1790-1836 | A batch whose rows are not committed has no effect and moves neither coordinate; one that commits acknowledges its last marker and then runs its function, whose failure leaves the commit and the acknowledgement. |
| `ApplyWorker.Migrator.OnApplyEventStruct` | go/logic/migrator.go:1768-1838 | After an abort nothing happens; otherwise the batch at the head of the queue is taken, and all its effects happen in order if and only if its writes succeed. |
| `ApplyWorker.Migrator.Enqueue` | go/logic/migrator.go:1577-1593 | A listener appends its task to the queue and keeps the worker's history intact. |
| `ApplyWorker.Migrator.TakeTurn` | go/logic/migrator.go:1986-1993 | Handling the head of the queue takes one batch and keeps the invariant that what was done is a run of the tasks handled, and these with the queue are all tasks that came; the acknowledged coordinate is the last marker handled. When it fails, the tasks handled, the failed batch and the queue are the tasks that came, and of the batch either nothing happened or its commit and its acknowledgement. |
| `ApplyWorker.Migrator.ExecuteWriteFuncs` | go/logic/migrator.go:1970-2027 | Whatever arrives or is resized, each round with a task takes a batch; what the worker did is a run of the tasks in queue order, whose commits concatenate to the rows handled. It stops only on an abort, with nothing more done, or at a batch that failed: with nothing of it done, and the acknowledged coordinate left alone, exactly if its commit failed, and otherwise with its commit and acknowledgement. |
| `ProtocolProof.InvKept` | go/logic/migrator.go:1668-1838 | Every step of every party keeps the invariant of the whole migration, also reading rows that are not decoded, finishing the copy at an end that was never copied, and commits and chunk inserts that take effect although their call fails. |
| `ProtocolProof.RetryIsHarmless` | go/logic/applier.go:1746-1748 | A batch without key-changing updates does the same on the ghost on every attempt. |
| `ProtocolTheorems.Convergence` | go/logic/migrator.go:1668-1838 | In every interleaving that met no hazard, once the copy is over and every captured change is applied, the ghost equals the original. |
| `ProtocolTheorems.AcknowledgedIsCommitted` | go/logic/migrator.go:1814-1828 | AppliedTransactionCoordinates names a transaction only when every captured change up to its end is committed on the ghost. |
| `ProtocolTheorems.NoAcknowledgementPastLostRow` | go/logic/streamer.go:111-157 | In every run that follows a failed delivery of a change, up to a resume, nothing is acknowledged but what the worker had received before; if the stream never fell back, nothing that ends behind that change. |
| `ProtocolTheorems.StoredIsApplied` | go/logic/migrator.go:1843-1897 | Without a reconnect behind a transaction already read, the replay is at or past whatever is acknowledged or stored in a checkpoint. |
| `ProtocolTheorems.SentinelMeansApplied` | go/logic/migrator.go:298-334 | A sentinel runs only when every change logged before its challenge is applied; with the original locked and the copy over, the ghost then equals the original. |
| `ProtocolTheorems.GhostStaysEqual` | go/logic/migrator.go:970-1008 | Once the sentinel of a challenge written after the last change has run and the copy is over, the ghost equals the original, and stays equal through every careful run in which nothing is committed and the process does not crash. |
| `ReplayAlone.DiffersExactlyWhen` | go/logic/migrator.go:1768-1838 | While nothing is written to the original, careful steps can bring the ghost to where it differs from it if and only if it differs now, or the batch in hand or a change that may still come to the worker would change the original as it is now. |
| `ReplayAlone.ReplayedCannotDiffer` | go/logic/migrator.go:1768-1838 | They cannot when everything logged is read to the end of a transaction and replayed. |
| `ProtocolTheorems.HeldBatchCanCommit` | go/logic/migrator.go:1814-1820 | In every reachable state the batch that the worker holds can be committed. |
| `ProtocolTheorems.FailuresAreAllOrNothing` | go/logic/applier.go:1863-1970 | A batch or a chunk insert whose call fails has done to the ghost what it would have done, or nothing, and leaves batch, acknowledgement and copied range alone; after a failed delivery nothing more is delivered. |
| `ReplayProgress.NoSentinelDropped` | go/logic/migrator.go:298-334 | In every run without a crash and without a failed delivery, a sentinel that was read and is neither waiting nor in flight any more has run. |
| `ReplayProgress.AnsweredExactlyWhen` | go/logic/migrator.go:970-1008 | From every reachable state that met no hazard, a challenge in the log can be answered by careful steps, without a write or a crash, if and only if it was, or the batch in hand can be committed and the dispatcher runs or has passed the sentinel on. |
| `ReplayProgress.QuietExactlyWhen` | go/logic/migrator.go:1668-1838 | From every such state the migration can become quiet, and so level with the original, if and only if the dispatcher runs and the batch in hand can be committed. |
| `ReplayProgress.CatchesUp` | go/logic/migrator.go:1668-1897 | It then catches up with the original, acknowledges the last transaction of which a row is still to be read or the marker to be handled, and stores a checkpoint of it. |
| `ReplayProgress.BatchingDoesNotMatter` | go/logic/migrator.go:1768-1838 | However the queue falls into batches, the protocol's worker can take it so, and ends with the same ghost, the same acknowledged coordinate and the same sentinels run. |
| `ReplayProgress.CheckpointIsRecent` | go/logic/migrator.go:1843-1897 | Whatever happens between taking a chunk's end and storing the checkpoint, that end is stored with a coordinate not behind what had been read when it was taken, up to which every captured change is on the ghost. |
| `ProtocolTheorems.CarefulRunsAreUnharmed` | go/logic/migrator.go:581-613 | A run each of whose reconnects, reads and retries is careful meets none of the hazards. |
| `ProtocolTheorems.CarefulStepIsUnharmed` | go/logic/streamer.go:307-321 | From every unharmed state a step meets a hazard if and only if it is a reconnect without a complete transaction away from the start, a read after a resume without a listener, or a retried commit that does something else to the ghost than at first. |
| `ProtocolTheorems.ResumeConverges` | go/logic/migrator.go:581-598 | After a crash at any step of a careful run, a resume from the stored coordinate and chunk end, over the ghost as the crash left it, equals the original whenever a careful run after it is quiet. |
| `ProtocolTheorems.ReconnectStaysAhead` | go/logic/streamer.go:307-321 | A reconnect keeps the stream from going behind a completed transaction if and only if the reader has read one completely, or none was completed since the stream started. |
| `ProtocolTheorems.RetriedMoveDiverges` | go/logic/applier.go:1744-1751 | A run in which a retried key-changing update leaves the row under its old key. |
| `ProtocolTheorems.UnheardChangeDiverges` | go/logic/migrator.go:595-613 | A run in which a change read after a resume, before the listener is registered, is never replayed. |
| `ProtocolTheorems.UnheardExactlyWhen` | go/logic/streamer.go:95-109 | After a resume, reading the next change leaves no gap in what will be replayed if and only if the listener is registered. |
| `ProtocolTheorems.FallBackDiverges` | go/logic/streamer.go:310-312 | A run in which falling back to the initial coordinates and then storing a checkpoint makes a resume diverge. |
| `ProtocolTheorems.UncopiedEndIsRecorded` | go/logic/migrator.go:1746-1751 | A run in which the rows of the range are gone before a chunk is copied, and the end recorded was never copied. |
| `CutOverProof.InvKept` | go/logic/migrator.go:1056-1164 | Every step of migrator, locking session, renaming session, server and of the sessions of earlier attempts keeps the cut-over invariant. |
| `CutOverProof.SuccessIsSafe` | go/logic/migrator.go:1056-1164 | A cut-over that returns without error swapped the tables under the lock, no write took effect between lock and swap, and the two tables held the same rows, also when RENAMEs and locking sessions of earlier attempts are outstanding; that the ghost equals the original once the sentinel is heard is derived in `CutOverReplay`. |
| `CutOverSuccess.ReturnsWhetherSwapped` | go/logic/migrator.go:1153-1163 | Once the renaming session has answered, the migrator returns without error if and only if its RENAME swapped the tables. |
| `CutOverSuccess.SucceedsExactlyWhen` | go/logic/migrator.go:1056-1164 | From every reachable state some continuation of the current attempt returns without error if and only if nothing has failed so far: nothing was swapped by an earlier RENAME, the lock is held or can be had, the RENAME is on its way or queued, and after the unlock the magic table is gone or can still be dropped. |
| `CutOverSuccess.SuccessIsReachable` | go/logic/migrator.go:1056-1164 | Whatever the tables hold, a first attempt can return without error. |
| `CutOverSuccess.LeavesPollExactlyWhen` | go/logic/migrator.go:1115-1129 | The migrator goes on from waiting for the RENAME exactly if it found it or knows that it failed, and gives up exactly if it is cancelled or has missed it for the last time. |
| `CutOverSuccess.PollsToTheEnd` | go/logic/migrator.go:1115-1129 | Whatever the sessions do meanwhile, a migrator that never finds the RENAME nor learns of its failure looks for it exactly as often as it may. |
| `CutOverProof.FailuresAreReported` | go/logic/applier.go:1539-1702 | Every operation of both sessions may fail; a failure on the way to the lock or at the unlock sends the migrator an error, and a RENAME that fails sends one and swaps nothing. |
| `CutOverReplay.CutOverRefined` | go/logic/migrator.go:970-1164 | Whatever is committed, read, reconnected, retried and replayed by careful steps meanwhile, over any number of attempts, every run of cut-over and replay together is a run of the cut-over machine over the same two tables. |
| `CutOverReplay.CutOverIsSafe` | go/logic/migrator.go:970-1164 | End to end: after a cut-over that returns without error, at whichever attempt, every write to the original up to the swap is in the ghost, which equals the original. |
| `CutOverReplaySuccess.SucceedsExactlyWhen` | go/logic/migrator.go:970-1164 | From every state of cut-over and replay together, some continuation of the current attempt returns without error if and only if the cut-over's state allows it and the replay can still answer the attempt's challenge. |
| `CutOverReplaySuccess.SuccessIsReachable` | go/logic/migrator.go:1056-1164 | A cut-over that begins after a row copy that met no hazard, with the dispatcher running and the batch in hand fit to be committed, can succeed, with the same rows in both tables. |
| `CutOverReplaySuccess.MigrationCanComplete` | go/logic/migrator.go:1056-1164 | Every table can be migrated from the start: rows copied, challenge answered, tables swapped with the same rows in both. |
| `CutOverProof.SwapUnderLockIsSafe` | go/logic/applier.go:1662-1702 | Also a cut-over that fails cannot lose a write by a RENAME queued under the lock. |
| `CutOverProof.SendsNeverBlock` | go/logic/migrator.go:1060-1104 | No channel ever holds more than its capacity: two messages on each session channel, three tokens on the channel of four. |
| `CutOverProof.MovesBounded` | go/logic/migrator.go:1056-1164 | From any state the migrator and the renaming session move, and new attempts begin, only a bounded number of times. |
| `CutOverProof.TokenIsComing` | go/logic/applier.go:1539-1614 | While the locking session waits without a token, the migrator or the renaming session can move whatever the database answers; so the table lock is always released. |
| `CutOverReplay.LateRenameLosesWrite` | go/logic/migrator.go:1115-1129 | Whenever the RENAME of an attempt is still to be issued and may be granted, any change can be committed to the original before it and is swapped away, unless the ghost happens to have it. |
| `CutOverProof.SwapsExactlyWhen` | go/logic/migrator.go:812-823 | From every reachable state and for every attempt that is over or whose renaming session was started, some continuation swaps the tables by its RENAME if and only if that has happened, or nothing is swapped, the RENAME is not finished, and the magic table is gone, or a locking session is not done, or another attempt may begin. |
| `CutOverReplay.SwapsExactlyWhen` | go/logic/migrator.go:812-823 | The same for both machines together: the replay has no say in whether a RENAME swaps the tables. |
| `CutOverReplay.LosesExactlyWhen` | go/logic/migrator.go:1115-1163 | From the same states of both machines together, some continuation swaps differing tables by that RENAME if and only if that has happened, or the RENAME may be granted and is still to be issued, or is queued while the tables differ or something on its way to the ghost will make them differ. |
| `CutOverReplay.SyncedCannotLose` | go/logic/migrator.go:970-1008 | A queued RENAME loses no write in any continuation if nothing was written since the last answered challenge. |
| `CutOverReplay.ReplayedCannotLose` | go/logic/migrator.go:1768-1838 | Nor if everything logged is replayed. |
| `CutOverProof.LeftoverMagicIsReachable` | go/logic/applier.go:1489-1513 | A run after which the error is returned, the RENAME is still to be issued, and the magic table is left over with every session that could drop it done: only the next attempt can let the RENAME through. |
| `CutOverProof.FailsYetSwaps` | go/logic/migrator.go:1133-1137 | A run in which the RENAME is queued and found under the lock, the check of the lock errs, and the tables are swapped after the error is returned. |
| `CutOverProof.GivingUpIsReachable` | go/logic/migrator.go:1115-1129 | A run in which the migrator returns an error, the lock and the magic table are gone, and the RENAME is still to be issued. |
| `CutOverProof.HangsExactlyWithoutBegin` | go/logic/applier.go:1662-1680 | The migrator waits for a session id that never comes if and only if the renaming session failed to begin. |
| `CutOverProof.WaitingIsForever` | go/logic/migrator.go:1105-1112 | That wait never ends, whatever happens next. |
| `CutOverProof.HangIsReachable` | go/logic/applier.go:1662-1666 | A run that reaches that wait. |
| `RangePredicate.BuildValueComparison` | go/sql/builder.go:83-92 | Fails exactly for an empty column or value. |
| `RangePredicate.BuildEqualsComparison` | go/sql/builder.go:94-113 | Fails exactly for no columns, differing lengths or an empty name; otherwise the conjunction of the equalities in order. |
| `RangePredicate.BuildRangeComparison` | go/sql/builder.go:203-256 | Fails exactly for no columns, differing lengths or an empty name; otherwise the or-of-ands with its exploded arguments. |
| `RangePredicate.RangeComparisonIsLexicographic` | go/sql/builder.go:203-256 | For any number of columns the predicate with its positional arguments holds of a row exactly when the row's key is <, <=, >= or > the bound lexicographically. |
| `RangePredicate.RangeArgsCount` | go/sql/builder.go:224-252 | There are n(n+1)/2 arguments, and n more when equality is included. |
| `RangeQuery.BuildRangeInsertQuery` | go/sql/builder.go:263-335 | Fails exactly on the listed mismatches; inserts the shared columns under their mapped names; the query built selects every row of the key interval once and no other row if and only if the bounds satisfy the condition (always, unless the key has two columns). |
| `RangeQuery.BuildRangeInsertQueryTwoColumn` | go/sql/builder.go:344-420 | The same for a key of two columns, with the exact condition on the bounds. |
| `RangeQuery.GeneralIsExact` | go/sql/builder.go:305-333 | The general start-and-end form selects exactly the interval for any bounds. |
| `RangeQuery.TwoColumnExactlyWhen` | go/sql/builder.go:337-420 | The union of three parts, or the same-first-value form, selects exactly the interval, each row once, if and only if printed equality of the first values agrees with their order and a start beyond the end selects nothing. |
| `RangeQuery.OrderedBoundsAreExact` | go/sql/builder.go:337-342 | Bounds in order whose first values print alike exactly when equal satisfy that condition. |
| `RangeQuery.CollationEqualBoundsSelectTooMuch` | go/sql/builder.go:585-616 | Bounds equal in a collation but spelled differently: a row inside is selected twice, and a row past the end once. |
| `RangeQuery.ExactQueryCopiesInterval` | go/sql/builder.go:316-333 | From every table an exact query returns the interval's rows with the multiplicity they have there. |
| `Ordering.LimitedUnion` | go/sql/builder.go:618-682 | Ordering and limiting every part of a union to n rows leaves the first n rows of the ordered union unchanged. |
| `RangeEnd.LimitsDoNotMatter` | go/sql/builder.go:618-749 | The part limits do not change the key that either form picks, on any table. |
| `RangeEnd.PickedIsEnd` | go/sql/builder.go:428-549 | What either form picks from the ordered keys, and nothing else, is the end looked for: a key of the interval with fewer than m rows before it and at least m up to it, where m is n (offset) or min(n, count) (temptable); none exactly if there is no such key. |
| `RangeEnd.ExactFindsEnd` | go/sql/builder.go:428-549 | On every table an exact query answers with that end, counted in rows of the table. |
| `RangeEnd.TwoColumnEndsExactlyWhen` | go/sql/builder.go:618-749 | The two-column range-end query does so on every table if and only if the bounds satisfy the two-column condition. |
| `RangeEnd.BuildRangeEndTwoColumn` | go/sql/builder.go:618-749 | Fails exactly when there are not two arguments on each side; otherwise as stated above. |
| `RangeEnd.BuildRangeEndViaOffset` | go/sql/builder.go:428-484 | Fails exactly on the listed mismatches; the query finds, on every table, key number n of the interval, and none exactly if there are fewer, if and only if the bounds satisfy the condition. |
| `RangeEnd.BuildRangeEndViaTemptable` | go/sql/builder.go:486-549 | The same for key number min(n, count) of the interval, and none exactly if it is empty. |
| `Chunks.ChunksPartition` | go/base/context.go:639-644 | Adjacent chunks of which only the first includes its start have neither gap nor overlap: each key up to the last end lies in exactly one. |
| `Chunks.RemainingKeys` | go/logic/applier.go:1101-1150 | On a quiet table, after a chunk that ends at the m-th key of what remains, exactly the keys behind it remain. |
| `Chunks.EndCountsRows` | go/logic/applier.go:1101-1150 | Where keys are unique, exactly n rows of the interval, or all if there are fewer and the form allows it, lie up to the end found. |
| `Chunks.QuietTableTakesCeil` | go/logic/migrator.go:1687-1765 | A quiet table of N rows takes exactly ceil(N/n) chunks of size n. |
| `RowCopy.InsertCopiesInterval` | go/logic/applier.go:1154-1247 | Inserting, with ignore, the shared columns of what an exact query selects, under their mapped names, performs the protocol's chunk copy of the projected original. |
| `Projection.ProjectedRowKey` | go/sql/builder.go:263-281 | It has the key of the row, if the key's columns are shared and not renamed. |
| `Projection.ProjectedValues` | go/sql/builder.go:263-281 | A projected row has exactly the mapped columns, each with the value of the shared column in the same place. |
| `GhostRows.CopiedLikeReplayed` | go/logic/applier.go:1154-1247 | Copying a row of the original does to the ghost what the INSERT built for the logged row does. |
| `GhostRows.CopiedRowIsProjected` | go/logic/applier.go:1154-1247 | In the table that a chunk is copied from, each row stands under its key as the replay would write it. |
| `GhostRows.StatementsAreProtocolEvents` | go/logic/applier.go:1730-1759 | The statements built for a logged change do to the ghost what the protocol's replay of the projected change does, on the first build and on a rebuild. |
| `RowCopy.MigrationContext.SetChunkSize` | go/base/context.go:692-700 | The chunk size is clamped to 10..100000, a smaller one to 10 and a larger one to 100000. |
| `RowCopy.MigrationContext.SetNextIterationRangeMinValues` | go/base/context.go:639-644 | A chunk starts where the last one ended, or at the start of the range. |
| `RowCopy.MigrationContext.Resume` | go/logic/migrator.go:581-594 | A resumed copy continues after the checkpoint's chunk, which it includes only if the checkpoint was stored before any chunk was copied; its invariant holds if and only if, for a key of two columns, the chunk's end does not have a larger first value than the end of the range read anew. |
| `RowCopy.CalculatedIsEnd` | go/logic/applier.go:1101-1150 | The two queries come to an end if and only if it is key number n of the table as first looked at, or there was none and it is key number min(m, count) of the table as it was then, at the chunk size m of that moment. |
| `RowCopy.MigrationContext.CalculateNextIterationRangeEndValues` | go/logic/applier.go:1101-1150 | The offset query and then, if that finds no key, the temptable query, each on the table and at the chunk size of its moment, give that end and the chunk size; nothing else changes when none is found or a query fails. |
| `RowCopy.MigrationContext.ApplyIterationInsertQuery` | go/logic/applier.go:1154-1247 | Copies exactly the current chunk of the projected original from the table as it is then; a failed call has copied it or nothing. |
| `RowCopy.MigrationContext.TryChunk` | go/logic/migrator.go:1696-1741 | One attempt copies the chunk its queries gave, or finds that no key is left, or fails with at most the chunk's end, size and rows changed. |
| `RowCopy.MigrationContext.RetryChunk` | go/logic/migrator.go:154-199 | However many attempts fail, at most one chunk is copied, and it starts where the copied ones end; the failed attempts leave the last end and chunk size that their queries gave. |
| `RowCopy.MigrationContext.CopyChunk` | go/logic/migrator.go:1693-1755 | Keeps the copied chunks adjacent and records the last of them; the copy is declared over only when an attempt saw no key left up to the end of the range, and the end then recorded is that of what was copied if and only if no failed attempt had found a further one, nor a checkpoint recorded one before anything was copied. |
| `RowCopy.MigrationContext.FailuresOnlyCopy` | go/logic/migrator.go:154-199 | However many attempts fail, seen or unseen, the ghost only gains rows, and only between the start of the chunk and the end of the range. |
| `RowCopy.RecordsUncopiedEnd` | go/logic/migrator.go:1746-1751 | An input on which the recorded end belongs to a chunk that was never copied. |
| `RowCopy.MigrationContext.IterateChunks` | go/logic/migrator.go:1668-1766 | For any retries, chunk-size changes and concurrent writes, every round copies a chunk or finds none left, the copied intervals are adjacent, and every key up to the last end is in exactly one. |
| `RowCopy.MigrationContext.IterateQuietTable` | go/logic/migrator.go:1687-1765 | On a table nobody writes to the loop ends, after exactly ceil(N/n) chunks. |
| `Columns.ConvertArg` | go/sql/types.go:60-127 | Computes the conversion, padding fixed-length binary with zeros in a loop. |
| `Columns.ConversionRestores` | go/sql/types.go:60-127 | The conversion undoes what logging does: the true unsigned value comes back at 8, 16, 24, 32 and 64 bits, stripped zeros of a fixed-length binary come back, every other value passes through. |
| `Columns.UnsignedExactly` | go/sql/types.go:101-127 | Of an unsigned column every signed integer comes out as the number with the same bits without sign, a medium integer at 24 bits; nothing else but strings is changed. |
| `Columns.SentAsBytesExactlyWhen` | go/sql/types.go:60-98 | A string keeps its bytes up to padding, and goes to the server as bytes exactly if it was bytes, is padded, has a charset without conversion, or has none and is of a binary or blob type. |
| `Columns.LoggedIsInjective` | go/logic/applier.go:1715-1726 | Values that differ are logged differently, so comparing logged values is sound. |
| `Columns.NewColumnsMap` | go/sql/types.go:150-156 | Maps every name, and only those, to its last place in the list. |
| `Columns.IsSubsetOf` | go/sql/types.go:259-266 | Compares with the other list's ordinals, which is the subset of names when those index the list. |
| `Columns.FilterBy` | go/sql/types.go:268-276 | Keeps the columns that pass in order, and the ordinals of the unfiltered list. |
| `Dml.NewDMLDeleteQueryBuilder` | go/sql/builder.go:802-830 | Fails exactly for no key columns or an empty name. |
| `Dml.NewDMLInsertQueryBuilder` | go/sql/builder.go:859-892 | Fails exactly when the shared columns are none or not all in the table. |
| `Dml.NewDMLUpdateQueryBuilder` | go/sql/builder.go:921-966 | Fails exactly when shared columns are none or not all in the table, or key columns are none, empty, or stored but not shared. |
| `Dml.BindArgs` | go/sql/builder.go:835-908 | One argument per column, converted, from the column's place in the table. |
| `RowEvents.BoundArgsAreTrue` | go/sql/builder.go:835-984 | Every bound argument is the true value of the column it stands for. |
| `RowEvents.InsertDoes` | go/sql/builder.go:859-908 | The built INSERT adds the projected row unless its key is there. |
| `RowEvents.DeleteDoes` | go/sql/builder.go:802-846 | The built DELETE removes exactly the row with the event's old key. |
| `RowEvents.UpdateDoes` | go/sql/builder.go:921-984 | The built UPDATE replaces exactly the row with the event's key by the projected new row, if it is there. |
| `RowEvents.UpdateModifiesUniqueKeyColumns` | go/logic/applier.go:1715-1726 | True exactly when some key column's logged values differ. |
| `RowEvents.BuildDMLEventQuery` | go/logic/applier.go:1730-1759 | Builds the event's statements and leaves a key-changing update tagged as an insert. |
| `RowEvents.SecondBuild` | go/logic/applier.go:1744-1751 | A second build gives the same statements if and only if the event does not change a key. |
| `RowEvents.BuildBatch` | go/logic/applier.go:1889-1899 | Builds the events' statements in order, or fails exactly when one of them cannot be built. |
| `RowReplay.ModifiesKeyIsTrue` | go/logic/applier.go:1715-1726 | The logged values show a key change if and only if the true key changes. |
| `RowReplay.EventIsReplayed` | go/logic/applier.go:1730-1759 | Performing what is built for an event does to the ghost what replaying the projected change does. |
| `RowReplay.RebuiltEventIsReplayed` | go/logic/applier.go:1744-1751 | Performing what is built the second time, as on a retry, only inserts for a key-changing update. |
| `RowReplay.BatchIsReplayed` | go/logic/applier.go:1863-1970 | The statements of a batch, performed in order, replay its changes in order. |
| `Transactions.OneMarkerPerTransaction` | go/binlog/gomysql_reader.go:227-253 | Each transaction that delivered rows is followed by exactly one marker, any other by none. |
| `Transactions.ReconnectResendsOnlyUnfinished` | go/logic/streamer.go:307-321 | Reconnecting at LastTrxCoords sends again no transaction whose marker was sent, and leaves out no row. |
| `Reader.ChangesCount` | go/binlog/gomysql_reader.go:184-210 | An update event with 2n rows has n changes, any other event one for each row. |
| `Reader.ChangesAre` | go/binlog/gomysql_reader.go:184-210 | Change j of an update has row 2j as old and row 2j + 1 as new image, change j of an insert only row j as new, and change j of a delete only row j as old image. |
| `ReaderReplay.SentAsLogged` | go/binlog/gomysql_reader.go:184-210 | For every rows event that the server logs, the reader sends the images of each row, in order, each in its place. |
| `ReaderReplay.RowsEventIsReplayed` | go/binlog/gomysql_reader.go:184-225 | From log to ghost: the statements built from what the reader sends for the logged changes do to the ghost what replaying the projected changes in order does. |
| `Reader.FilePlace` | go/binlog/gomysql_reader.go:256-312 | File coordinates are the header's of the last event read, in the file last rotated to. |
| `Reader.GtidPlace` | go/binlog/gomysql_reader.go:277-306 | GTID coordinates name exactly the transactions of the start and those begun since, and the last complete ones all of these when none is open. |
| `Reader.PayloadLikeItsEvents` | go/binlog/gomysql_reader.go:317-341 | A compressed payload is read like its events streamed one by one, wherever they are: the same rows and markers, and with GTIDs also at the same coordinates. |
| `Reader.UndecodedIsSilent` | go/binlog/gomysql_reader.go:26-40 | Rows events that are not decoded send nothing and call for no marker: the stream is as if they were not in the log. |
| `Reader.GoMySQLReader.HandleRowsEvent` | go/binlog/gomysql_reader.go:160-225 | Sends the event's changes in order, each with its images in their places; when cut short, a prefix of them, and LastTrxCoords stays. |
| `Reader.GoMySQLReader.CompleteTransaction` | go/binlog/gomysql_reader.go:227-253 | LastTrxCoords moves only after the rows and their marker were sent. |
| `Reader.GoMySQLReader.HandlePayload` | go/binlog/gomysql_reader.go:325-341 | The nested events are handled in order at the payload's coordinates; when cut short, no more is sent than a first part of what they amount to. |
| `Reader.GoMySQLReader.MoveTo` | go/mysql/binlog_file.go:181-198 | File coordinates follow the event's header; fails exactly when the previous position plus the event's size exceeds four bytes within one file. |
| `Reader.GoMySQLReader.HandleEvent` | go/binlog/gomysql_reader.go:256-341 | Each event moves the coordinates as its kind demands and amounts to its rows and transaction ends; it fails only when cancelled, unreadable, or too far into its file, and has then sent no more than a first part of what it amounts to. |
| `Reader.GoMySQLReader.StreamEvents` | go/binlog/gomysql_reader.go:256-346 | Wherever the stream is cut, what was sent lies between what the first n events of the log amount to and what the first n + 1 do, and LastTrxCoords is the end of the last transaction sent completely; it is cut only by a cancellation or at an event that is unreadable or too far into its file. |
| `Streamer.EventsStreamer.AddListener` | go/logic/streamer.go:63-82 | Fails exactly for an empty database or table name; otherwise appends the listener. |
| `Streamer.EqualFold` | go/logic/streamer.go:100-105 | Names match exactly if they have the same length and at every place the same character, or the same ASCII letter in the other case. |
| `Streamer.DeliveriesAre` | go/logic/streamer.go:115-157 | A row goes, in order and once to each, to exactly the listeners both of whose names match, and a marker to all transaction listeners. |
| `Streamer.EventsStreamer.ShouldDecodeRowsEvent` | go/logic/streamer.go:95-109 | Row data is decoded exactly for the tables whose names match those of some listener, which are those whose rows some listener would get. |
| `Streamer.EventsStreamer.SetAbortError` | go/base/context.go:1018-1024 | The first error is kept. |
| `Streamer.EventsStreamer.NotifyListeners` | go/logic/streamer.go:115-157 | Delivers to just these listeners; it fails exactly after an abort or when a call that is made fails, which aborts the migration with the listeners before it served; after an abort nothing is delivered. |
| `Streamer.EventsStreamer.Dispatch` | go/logic/streamer.go:253-269 | The listeners got what the first n entries amount to, in order, and at most a part of the next one, whose delivery failed and after which nothing more is delivered. |
| `Streamer.EventsStreamer.Reconnect` | go/logic/streamer.go:302-321 | Reconnects at the last complete transaction or, without one, at the initial coordinates; fails exactly after the allowed number of successive failures without progress, which progress sets back to zero. |
| `Streamer.StalledIs` | go/logic/streamer.go:302-317 | The count is that of the last failures without progress, behind the last one with progress. |
| `Streamer.EventsStreamer.StreamEvents` | go/logic/streamer.go:270-323 | Survives every break before which fewer failures without progress came in a row than are allowed, and gives up at the first other one. |
| `Sentinel.NewestIsDelivered` | go/logic/migrator.go:303-325 | With one sender and a receiver that may take the value at any moment, no sentinel is dropped: whenever no send is under way, the newest is in the channel or was the last one received. |
| `Sentinel.AllBegunIsSent` | go/logic/migrator.go:303-325 | In every run, what was sent and what is being sent is all whose sending was begun, in order. |
| `Sentinel.SendReplaces` | go/logic/migrator.go:303-325 | A sentinel sent while nobody receives takes the place of a stale one. |
| `Sentinel.Migrator.WaitForEventsUpToLock` | go/logic/migrator.go:970-1008 | Succeeds exactly on the attempt's own challenge before the timeout; stale challenges are skipped. |
| `Coordinates.RoundTripExactlyWhen` | go/mysql/binlog_file.go:38-54 | Coordinates survive printing and parsing if and only if the file name has no colon; otherwise parsing fails. |
| `Coordinates.ParsesExactlyWhen` | go/mysql/binlog_file.go:38-49 | A string is read as coordinates exactly if it is a file name without a colon, a colon, and digits with a sign or without whose number fits. |
| `Coordinates.SeriesOrder` | go/mysql/binlog_file.go:76-121 | Within one series of files the comparisons are the total order by file number and position. |
| `Coordinates.OrderSurvivesCheckpoint` | go/mysql/binlog_file.go:38-100 | Comparisons come out the same on coordinates that were printed and parsed back. |
| `Coordinates.IncomparableExactlyWhen` | go/mysql/binlog_file.go:76-121 | Of coordinates with file numbers that are not negative, two compare neither way exactly when differently named files carry the same number and the positions agree. |
| `Coordinates.GtidOrderExactlyWhen` | go/mysql/binlog_gtid.go:61-97 | Smaller-or-equal on GTID sets is inclusion if and only if one set includes the other. |
| `Coordinates.GtidBothSmaller` | go/mysql/binlog_gtid.go:80-92 | Two sets of different sources, each smaller than the other. |
| `Coordinates.GtidChainOrder` | go/mysql/binlog_gtid.go:61-97 | Along a growing chain of sets the comparison is inclusion. |
| `MasterSearch.GetMasterConnectionConfigSafe` | go/mysql/utils.go:200-228 | The walk ends; it returns an instance on the way that has no valid master or, when allowed, lies on a cycle, and fails only for an instance that cannot answer or a cycle that is not allowed. |
| `MasterSearch.FindMaster` | go/mysql/utils.go:196-228 | Succeeds exactly when nothing on the way fails and no forbidden cycle is met; returns the root whenever the chain has one, and otherwise a node of the cycle. |

## Left out

- SQL text, identifier escaping, index hints, lock clauses and the conversion tokens of prepared values: queries are syntax trees with row-set semantics.
- Charset decoding, collations and enum ordering: a key column is a total order, and strings are strings of bytes.
- ApplyWorker.Migrator.RetryOperation: does not record what an attempt did whose call failed; the protocol's commits may take effect unseen.
- The end of the process after the last attempt: its sessions are taken to go on, and what a further attempt does to tables that are already swapped is not followed.
- Secondary unique indexes of the ghost, virtual key columns, and the warning checks of panic-on-warnings.
- The rows-affected counters, progress, estimates, throttling, metrics, hooks and logging.
- Heartbeats and other changelog rows in the protocol, apart from the sentinel challenges: their transactions change no row of the original, and their markers are not modelled.
- The two-step cut-over, triggers, and the lock-name and timeout settings of the sessions.
- The inspector, the ALTER parser, configuration, the command server and TLS.
- MySQL itself: log order, atomic commit, lock queueing and GTID containment are taken as given.
- The finished-migration and row-copy-complete flags that stop the loops of worker and row copy from outside.
- Unicode case folding: table names are compared with the folding of ASCII letters.
- Arithmetic overflow of log positions and counters other than file-number distance.
- RowCopy.MigrationContext.Resume: does not follow the walk of a two-column key from a checkpoint whose first value lies beyond the range, because its queries then select rows outside the interval.
- ProtocolTheorems.UnheardExactlyWhen: requires that the dispatcher still runs, because without it nothing read reaches the replay either way.
- RowCopy.MigrationContext.IterateQuietTable: does not model failures, which on a quiet table only add attempts.
- ApplyWorker.Migrator.ExecuteWriteFuncs: does not model the choice between events and row copy, because the order of the events does not depend on it; the protocol interleaves both freely.
- Dml.BindArgs: requires at least one logged value and ordinals within the logged values, because the program would stop on an index out of range.
- Reader.GtidPlace: requires transactions one by one whose ends do not name the executed set; where they do, that set is taken as the coordinates.
- Reader.GoMySQLReader.HandleRowsEvent: requires an even number of rows in an update event, which the binlog format guarantees.
- RowEvents.BuildBatch: requires the events of a batch to be distinct objects, as the queue delivers them.
- Sentinel.Migrator.WaitForEventsUpToLock: requires that its own challenge or its timeout comes at some point, as the timer guarantees.
