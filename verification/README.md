# ksqlite: a verified model of the changelog-backed view

ksqlite keeps, for each source partition it owns, a Kafka changelog and a copy of it in SQLite.  An
append produces to the changelog first and commits its row afterwards; a rebalance replays the
changelog into the tables under a checkpoint and only then shows the partition's rows.  This project
models that machinery in Dafny and proves what the tables, the checkpoints and the visible rows promise
over whole runs, and what one call to each operation does.

Two kinds of model stand side by side.

* **Classes with the code's own loops and branches**: `Lifecycle.PartitionLifecycle` (the two rebalance
  hooks, the replay loop, budget, resets, clamps), `Append.Appender`, `Txn.Run` over `Txn.Connection`,
  `State.PartitionStateMachine`, `Topics.ChangelogTopics`, `Drain.KSQLite`.  Their contracts say what a
  call leaves in terms of the changelog and the tables it started from.
* **A step relation** (`Steps`), one step for each thing that can happen between two awaits: a record
  lands, a log is trimmed or truncated, an append commits, a batch is fetched or committed, a clamp, a
  status, a reveal, a hide, a restart.  `Coverage`, `Visibility` and `WarmCold` prove theorems about every
  legal sequence of steps, however appends, rehydrates, failures and restarts interleave.

The two meet in a journal: every class method records its atomic effects, in order, as steps, and its
invariant says that the journal is a legal run which ends in the present tables and statuses.
`Guarantees` reads the theorems about runs off the state of a process.  What they ask of the journal
stands in ghost fields of the environment that each operation's contract carries along (`regressed`,
`trimmed`, `overtaken`, `held`, `shown`, `reassigned`), so a caller can establish it: `Sessions.Drive` does,
for any sequence of operations on a new database.

## Files

| file | content |
|---|---|
| Types, Utf8, Wire, Names | values; UTF-8 as section 3 of RFC 3629 defines it; the record format; changelog names |
| Tables | the tables, the shared statements, replay record by record and batch by batch, commits in any order |
| Txn | the transaction runner and its retries |
| State | the in-memory partition states |
| Logs, Environment | a changelog; the brokers, the consumer, the producer and the clock, all nondeterministic; the journal |
| Steps, Coverage, Visibility, WarmCold | the step relation and the theorems about runs |
| Topics, Process | step 0; one process's invariant |
| Rehydrate, Lifecycle | the replay loop, clamps and outcomes on values; the rebalance hooks |
| Append | the append path |
| Convergence | what one rehydrate owes the next; a log that grows during one |
| Guarantees, Sessions | the theorems about runs, for a process; any sequence of operations of a host |
| Drain | running, stopping, draining, closing |

## Modelling decisions

* The verdict on a record (skip, raise, insert) is a function value, `Decoder`; `Wire.Judge` is the one
  the code computes, with `uuid.UUID`, `json.loads`, `json.dumps` and SQLite's `json()` as parameters.
* SQL text is a value of `Tables.Stmt`; `Exec` says what one statement does.  `json(:payload)` is
  evaluated before the conflict clause, so it can raise for an id that is already present.
* A Python `str` is a sequence of code points that may hold lone surrogates, so encoding can fail.
* Offsets, checkpoints and times are unbounded integers.  The clock never goes back; a fetch answered
  from what has been prefetched may take no time, one that comes back empty has waited for some.
* What goes wrong outside is on record: `faults` holds what brokers and reads have raised, `toll` counts the
  awaits of transactions that were cancelled or went wrong, and `tally.withheld` the empty answers to a fetch
  where the brokers had something to say.  So a contract can say that an operation fails only by what is on
  record, and succeeds where nothing is (`Process.Told`, `Process.Explained`).
* A statement runs in the driver's thread, so one whose await is cancelled may have been carried out.
  `Txn.Connection` therefore takes the fates of its awaits as a script, `Cut(done)` among them, and what a
  cancellation left behind shows in `severed`: nothing, an open transaction, or a commit.  A shard whose
  clamp was committed but not written back is `adrift`: its memory may be ahead of disk until it is
  clamped again or the process restarts.
* Message ids come from a uuid generator that is assumed never to repeat; two records with one id are the copies
  a producer retry lands, in one changelog, with the same key and payload.
* A fetch may fail, come back empty, or return any non-empty prefix of what is retained at the consumer's
  position; it raises out-of-range only when the position is below the log start or above the log end.

## Where the code does less than its documentation says

* **A rehydrate may be unable to complete.**  The loop ends when its position equals the captured log end
  (`src/ksqlite/_lifecycle.py:166`), and the position is one past the last record replayed.  It can get
  there if and only if the checkpoint is already there, or a reset puts it there, or the last record of the
  work sits right below the log end: `Rehydrate.Finishes`, exact by `Rehydrate.FinishesExactly`.  A log
  trimmed to its end with nothing stored and a log with a trailing gap never complete
  (`Rehydrate.TrimmedLogNeverEnds`, `Rehydrate.TrailingGapNeverEnds`); only the budget ends the call.
  A loop that a growing log has carried past the captured end never completes either
  (`Convergence.OvershotForGood`, on a run in `Convergence.GrowingLogOvershoots`; the exact condition is
  `Convergence.CompletesExactly`).
* **A record that cannot be read can be dropped silently**, against `src/ksqlite/_wire.py:24-28`.  Replay
  raises at such a record and never gets past it, but an append that commits behind it takes the checkpoint
  past it, and the next rehydrate is READY at once.  The rows stay, but a rebuild from the changelog never
  gets to the append's row: `WarmCold.UnreadablePassed`.  A caught-up shard can be rebuilt exactly if no
  append has passed such a record and no gap lies below the log end: `WarmCold.RebuildableExactly`.  An
  append can land such a record itself, exactly if SQLite refuses a payload that `json.loads` accepts:
  `Append.AcceptedYetUnreadable`.
* **A force-stop returns before the clamps** (`src/ksqlite/_lifecycle.py:195-197`).  So a checkpoint above
  the log end is not "a single logged incident" (docs/explanation/partition-lifecycle.md:143-145) while
  the budget keeps expiring: `Convergence.AboveTheEndNothingAdds`, at a state three produces, one append
  and one regression lead to: `Convergence.StaleHighCheckpoint`.  Cut attempts add up exactly from
  checkpoints not above the log end: `Convergence.LeavesTheRest`.
* **Warm and cold tables can differ in an offset.**  `_records` keeps an id's first inserted offset, the
  acked one after an append and the first copy's after a replay.  They differ exactly for ids that an append
  entered past an earlier copy: `WarmCold.OffsetsDifferExactly`, with the run in
  `WarmCold.RetriedAppendDisplaces`.
* **READY can stand over hidden rows.**  The status is set before the reveal commits
  (`src/ksqlite/_lifecycle.py:219-220`).  An assignment leaves READY or READY_PARTIAL over hidden rows
  exactly for the one shard whose reveal was lost, and for no other (`OnPartitionsAssigned`; the run is in
  `Visibility.FailedRevealLeavesReady`).  Visible rows without such a status are what `Visibility` excludes.
* **"On any error" shards stay hidden** (`src/ksqlite/_lifecycle.py:98-100`), except for one error: a
  cancellation that strikes the reveal's commit after it was carried out leaves the shard visible
  (`Rehydrate.Shows`, and `cut` in `OnPartitionsAssigned`).
* **`run` can exit with a transaction open.**  The BEGIN stands outside the handler that rolls back
  (`src/ksqlite/_pool.py:199-209`) and awaits twice (`src/ksqlite/_pool.py:52-53`), and the rollback can
  itself fail.  `Txn.Run` leaves a transaction open only if a cancellation strikes a BEGIN already carried
  out or a rollback does not end its transaction, and has committed although it raises only if a
  cancellation strikes a commit already carried out.  Each happens on an input given in its contract, and
  none where enough awaits and rollbacks are settled, without such a cancellation or failure.  The pool rolls
  back on release and on checkout (`src/ksqlite/_pool.py:142-153`), so nothing comes of an open one.

## Model

| member | source | states |
|---|---|---|
| Lifecycle.PartitionLifecycle.OnPartitionsAssigned | src/ksqlite/_lifecycle.py:77-101 | For every list and every clock: the first `k` shards end visible with memory equal to disk unless adrift, READY only at the log end, each revealed exactly once and in order, each past step 0; turn by turn the rows and checkpoint of each shard are what its own outcome says (`Rehydrate.OwnTurnDecides`); an error stops at shard `k`, which is newly visible only if the error is a cancellation too late to stop its reveal, and leaves every other shard's rows, checkpoint, visibility and entry unchanged; READY stands over hidden rows afterwards exactly for a shard whose reveal was lost; at most one fetch of the callback begins at or after the deadline, the first shard is rehydrated even then, and a callback that is back before its deadline without an error has left every shard READY; no owned shard is re-marked RESTORING if the list is distinct and unowned. It fails only if a broker, a read or a transaction did, which surfaces as RehydrateError unless it is a cancellation, or, with nothing gone wrong outside, as ConfigError for an illegal name, TopicNotFoundError for a missing topic that may not be created, or RehydrateError at a record of the failing shard's work that cannot be read; no other error is raised. |
| Lifecycle.PartitionLifecycle.AssignNext | src/ksqlite/_lifecycle.py:83-101 | One more turn of an assignment that has served the shards before it: if nothing is raised one more is served, else it stops there; what has been served, revealed, replayed and counted so far. |
| Lifecycle.PartitionLifecycle.AssignOne | src/ksqlite/_lifecycle.py:83-101 | One turn of that loop: step 0 always; a rehydrate for the first shard and for no other after the deadline, a reveal at the kept checkpoint only after the deadline; what is left of the shard is `Leaves`, its status after an error is told by where the error struck, READY over hidden rows is left exactly by a lost reveal, every other shard is untouched.  A KafkaError, a failed read or a failed transaction is RehydrateError, a cancellation passes, and with none of these on record only an illegal name, a missing topic or an unreadable record is refused; ConfigError means exactly an illegal name. |
| Lifecycle.PartitionLifecycle.ServeOne | src/ksqlite/_lifecycle.py:91-95 | The turn past step 0: entered exactly for the first shard and before the deadline; what it leaves, shows and raises, for this shard and no other. |
| Lifecycle.PartitionLifecycle.Serve | src/ksqlite/_lifecycle.py:91-95 | The rehydrate is entered exactly for the first shard and before the deadline; otherwise the shard is revealed at its kept checkpoint; either way the tables are what the outcome says. |
| Lifecycle.PartitionLifecycle.OnPartitionsRevoked | src/ksqlite/_lifecycle.py:103-113 | No shard of the list stays visible, known to memory or not; rows and checkpoints are kept on disk and in memory; only the status becomes STANDBY; an error stops at the shard it hit, earlier ones being hidden and later ones untouched, and that shard is hidden only by a cancellation too late to stop it. It fails only if a transaction did. |
| Lifecycle.PartitionLifecycle.RevokeOne | src/ksqlite/_lifecycle.py:107-113 | A shard memory does not know is skipped, and that is safe because it cannot be visible; otherwise the row of `_owned` goes before the status changes. |
| Rehydrate.HideAllHides | src/ksqlite/_lifecycle.py:103-113 | Revoking a list hides exactly its shards and touches neither rows nor checkpoints. |
| Lifecycle.PartitionLifecycle.RehydrateOne | src/ksqlite/_lifecycle.py:115-228 | The tables afterwards are determined by the log, the tables before and the outcome: READY is a full replay of the work with the checkpoint settled and the shard revealed, PARTIAL a replayed prefix revealed (never one that reached the log end), an error a replayed prefix, revealed only by a cancellation too late to stop it; the status left is the old one, RESTORING or READY/READY_PARTIAL as the error struck before the mark, up to the clamps or in the reveal; at most one reset; no more fetches than one reset, the empty answers and the records replayed; none at all when the checkpoint already meets the log end, which then cannot be cut short; READY only on logs that finish, and on those no fetch is without a record left to return; back before the deadline without an error means READY. It raises only what a broker, a read or a transaction has, or the error of the first record of the work that cannot be read; so where nothing goes wrong outside and brokers answer with what they have, a log that finishes and can be read comes back from every fetch with records and ends READY unless the deadline comes first. |
| Lifecycle.PartitionLifecycle.ReplayLoop | src/ksqlite/_lifecycle.py:149-212 | The loop ends, by a measure of at most one reset, then records left, then time spent on empty answers: at the log end with exactly the work replayed, at the deadline, or by an error.  Every fetch is the reset, an empty answer or a step that takes the position strictly closer to the log end, so without empty answers there are at most one more than the records of the work; without an error and before the deadline it is at the log end; it gets there only if the log finishes, and then no fetch is without a record left to return; at most one fetch begins at or after the deadline. It fails only by what is on record, or at the first record that cannot be read; and on a log that finishes every empty answer is one that a broker withheld. |
| Lifecycle.PartitionLifecycle.LoopBody | src/ksqlite/_lifecycle.py:167-212 | One turn from test to test keeps the loop's state (`Rehydrate.Standing`) and is the first reset, more of the work done, or an empty answer that took time; it goes on past the deadline only at the log end. |
| Lifecycle.PartitionLifecycle.Turn | src/ksqlite/_lifecycle.py:167-212 | One fetch and its consequence: a reset only for a position out of range, nothing for an empty answer, and for records the commit of exactly the fetched batch; an error leaves a batch committed only if it is a cancellation that struck a commit already carried out. At most a batch size of records is taken; an empty answer means that nothing was left or that a broker withheld it; an error is on record, or is that of the first record that cannot be read. |
| Lifecycle.PartitionLifecycle.ResetToStart | src/ksqlite/_lifecycle.py:171-194 | An out-of-range fetch leads to the log start, in the loop's position and the consumer's alike. |
| Lifecycle.PartitionLifecycle.MaterializeBatch | src/ksqlite/_lifecycle.py:230-303 | A batch commits as one transaction and only if every record of it can be read; then memory takes the batch's last offset if larger; an error changes neither disk nor memory, save that a cancellation may leave the batch committed and memory behind. |
| Lifecycle.PartitionLifecycle.CommitFetched | src/ksqlite/_lifecycle.py:205-209 | A non-empty fetch is always committed before the deadline is looked at, and the journal's session follows it. |
| Rehydrate.BatchStatements | src/ksqlite/_lifecycle.py:236-298 | The work of a batch is the inserts of its records in order and one checkpoint upsert at the last offset, foreign records included in that offset. |
| Rehydrate.InsertsRun | src/ksqlite/_lifecycle.py:237-284 | The inserts of a batch succeed exactly if every record can be read, and then place exactly the rows the decoder gives; one unknown version or unparsable payload makes them raise. The error is that of the first record that cannot be read. |
| Rehydrate.BatchWork | src/ksqlite/_lifecycle.py:236-298 | The whole work of a batch succeeds exactly if it is readable, and then equals the batch commit. Otherwise it raises the error of the first record that cannot be read. |
| Rehydrate.BoundaryMaps | src/ksqlite/_lifecycle.py:96-101 | What brokers, reads and transactions raise surfaces as RehydrateError, except a cancellation; an unreadable record does too, whichever way it fails; every other error passes unchanged. |
| Rehydrate.SurfacesAs | src/ksqlite/_lifecycle.py:96-101 | How an assignment that a broker or a read has failed ends: RehydrateError exactly for a KafkaError or a failed read, a cancellation for a cancellation. |
| Lifecycle.PartitionLifecycle.ReadCheckpoint | src/ksqlite/_lifecycle.py:402-412 | The persisted checkpoint, or an error mapped at the boundary. |
| Lifecycle.PartitionLifecycle.Begin | src/ksqlite/_lifecycle.py:115-147 | Before the loop: memory holds the stored checkpoint and the captured log end, the shard is RESTORING, the consumer stands where the work begins, and the loop's position is the offset after the checkpoint or 0; an error leaves the status as it was or RESTORING. |
| Lifecycle.PartitionLifecycle.Capture | src/ksqlite/_lifecycle.py:118-140 | Checkpoint read, memory seeded, log end cached and shard marked, in this order; no other entry changes. |
| Lifecycle.PartitionLifecycle.Seed | src/ksqlite/_lifecycle.py:118-124 | Memory's checkpoint becomes the stored one, since it was never ahead of it. |
| Lifecycle.PartitionLifecycle.Place | src/ksqlite/_lifecycle.py:141-147 | The consumer is sent to the log start when nothing is stored and right after the checkpoint otherwise; the first fetch finds the work from its beginning. |
| Lifecycle.PartitionLifecycle.Finish | src/ksqlite/_lifecycle.py:195-220 | After the loop: an error leaves the shard hidden, an expired budget reveals it READY_PARTIAL without clamps, a loop that met the log end settles the checkpoint and reveals it READY; if the clamps or the reveal fail, the status says which. |
| Lifecycle.PartitionLifecycle.Complete | src/ksqlite/_lifecycle.py:214-220 | Clamps only after a reset, then READY, then the reveal; an error in the clamps leaves RESTORING, an error in the reveal leaves READY over hidden rows, or over visible ones if it is a cancellation that came too late. |
| Lifecycle.PartitionLifecycle.ApplyPostResetClamps | src/ksqlite/_lifecycle.py:331-367 | Clamps to the log end minus one if the stored checkpoint is above it, past a fully trimmed gap if nothing was replayed, else not at all; disk and memory move together or not at all, but for a cancellation between the two. |
| Lifecycle.PartitionLifecycle.CommitClamp | src/ksqlite/_lifecycle.py:352-355 | A clamp's commit and its write-back; cut off between the two it leaves memory ahead of disk exactly if memory was above the target. |
| Lifecycle.PartitionLifecycle.RevealRows | src/ksqlite/_lifecycle.py:369-370 | The reveal is one atomic step, allowed only for a shard memory has as READY or READY_PARTIAL. |
| Lifecycle.PartitionLifecycle.ForceStop | src/ksqlite/_lifecycle.py:372-388 | READY_PARTIAL first, then the reveal; the status stays if the reveal fails. |
| Lifecycle.PartitionLifecycle.RevealPartialUnreached | src/ksqlite/_lifecycle.py:305-329 | A shard the budget never reached is revealed at its kept checkpoint with the log end cached; its rows and checkpoint do not change; an error before the mark leaves its status, one in the reveal READY_PARTIAL. |
| Lifecycle.PartitionLifecycle.LookAt | src/ksqlite/_lifecycle.py:311-316 | The log end is cached and memory seeded with the stored checkpoint, the status staying as it was. |
| Lifecycle.PartitionLifecycle.SetStatus | src/ksqlite/_state.py:39-49 | STANDBY is only ever set on a hidden shard. |
| Lifecycle.PartitionLifecycle.MarkRestoring | src/ksqlite/_lifecycle.py:140 | A rehydrate that starts on a visible shard is on record as a reassignment. |
| Rehydrate.CursorStarts | src/ksqlite/_lifecycle.py:141-147 | The loop starts with nothing done and the consumer at the beginning of the work, whatever the checkpoint. |
| Rehydrate.CursorResets | src/ksqlite/_lifecycle.py:171-194 | An out-of-range answer can only come before anything was replayed, and only once. |
| Rehydrate.CursorAdvances | src/ksqlite/_lifecycle.py:205-209 | A fetched batch is the next part of the work. |
| Rehydrate.CursorEnds | src/ksqlite/_lifecycle.py:166-166 | At the log end the work is done, a reset happened exactly if the checkpoint was out of range, and the log is one that finishes. |
| Rehydrate.FinishesExactly | src/ksqlite/_lifecycle.py:166-209 | The loop has a state at the log end if and only if it starts there, a reset puts it there, or the last record of the work sits right below it. |
| Rehydrate.TrimmedLogNeverEnds | src/ksqlite/_lifecycle.py:141-166 | With nothing stored and the log trimmed to its end, the loop's position stays 0. |
| Rehydrate.TrailingGapNeverEnds | src/ksqlite/_lifecycle.py:154-166 | With a gap below the log end the loop's position stays below it, nothing stored or the last record's offset stored. |
| Rehydrate.CursorNotStarved | src/ksqlite/_lifecycle.py:154-166 | On a log that finishes, a loop that is in range and not at the log end always has a record left to fetch. |
| Rehydrate.TrailGrows | src/ksqlite/_lifecycle.py:205-209 | A committed batch takes the position strictly closer to the log end and not past it. |
| Rehydrate.StandingMeans | src/ksqlite/_lifecycle.py:149-212 | What the loop's state gives at every test: a prefix of the work replayed, positions that only fell, in range after a reset, and a record left to fetch on a log that finishes. |
| Rehydrate.LoopEnd | src/ksqlite/_lifecycle.py:214-217 | When the loop meets the log end, the log finishes, the clamps are needed only after a reset and leave the checkpoint exactly where a completed rehydrate settles it. |
| Rehydrate.LoopEndCheckpoint | src/ksqlite/_lifecycle.py:285-298 | The persisted checkpoint when the loop meets the log end: kept if nothing was replayed, else the maximum of the old one and the log end minus one. |
| Rehydrate.LeavesOne | src/ksqlite/_lifecycle.py:115-228 | A rehydrate touches one shard only; it makes that shard visible unless it raised, and if it raised only by a cancellation in the reveal; READY means the checkpoint is at the log end. |
| Rehydrate.OwnTurnDecides | src/ksqlite/_lifecycle.py:83-95 | In an assignment without repetition each shard ends with the rows and checkpoint its own turn left, and its turn found those from before the callback. |
| Rehydrate.OnlyTheLostReveal | src/ksqlite/_lifecycle.py:219-220 | After an assignment READY or READY_PARTIAL stands over hidden rows exactly for a shard that was hidden, was not served, and whose reveal was lost. |
| Convergence.ReadyIsExact | src/ksqlite/_lifecycle.py:166-220 | A READY rehydrate on an unchanged log is exact from any starting checkpoint, below the log start, above the log end, in range or absent: every record of the work that is accepted has its row, each new row comes from the first record carrying its id, no unreadable record was passed, and the checkpoint is the log end minus one, absent only if the log end is 0 and none was stored. |
| Convergence.SecondAssignmentIdle | src/ksqlite/_lifecycle.py:118-166 | A second rehydrate starts at the log end, replays nothing and leaves the tables as they are. |
| Convergence.UnreadableStops | src/ksqlite/_lifecycle.py:257-265 | A record of the work with a valid id and a missing or unknown version, or with a payload SQLite cannot parse, is never part of a committed batch: the call is not READY, the checkpoint is the old one or the last committed record's, and if it raises, other than by a cancellation in the reveal, the shard is not newly visible. |
| Convergence.UnknownVersionStops | src/ksqlite/_wire.py:64-74 | Told from the headers: a record with a uuid for message id and no format version, or one that is not 1, is RehydrateError to replay, and no rehydrate commits a batch with it or becomes READY. |
| Convergence.ForeignSkipped | src/ksqlite/_wire.py:51-96 | Told from headers, key and value: a record without a uuid for message id, or a version 1 record whose key or value is missing or not UTF-8, adds no row and the checkpoint passes it. |
| Convergence.FallsOnlyAboveTheEnd | src/ksqlite/_lifecycle.py:344-355 | A rehydrate lowers the persisted checkpoint only if it was above the log end minus one, then to exactly that, and never when the budget cut it. |
| Convergence.LeavesTheRest | src/ksqlite/_lifecycle.py:195-212 | A cut attempt leaves exactly the rest of the work to the next one and strictly raises the checkpoint if it committed anything. |
| Convergence.AboveTheEndNothingAdds | src/ksqlite/_lifecycle.py:195-212 | From a checkpoint above the log end cut attempts never add up: checkpoint and work stay the same, however many records were committed. |
| Convergence.StaleHighCheckpoint | src/ksqlite/_lifecycle.py:195-212 | Three records land, the third commits, the log end regresses: a legal run after which a cut attempt commits a record and leaves checkpoint and work as they were. |
| Convergence.AttemptsAddUp | src/ksqlite/_lifecycle.py:210-212 | Any number of cut attempts, with revokes or restarts between them, equals one replay of a prefix of the work, each record once. |
| Convergence.BudgetedConvergence | src/ksqlite/_lifecycle.py:372-388 | From a checkpoint not above the log end, at most as many force-stopped attempts commit anything as there are records to replay, and rows and checkpoint after the READY one equal those of a single uncut replay. |
| Convergence.OvershotForGood | src/ksqlite/_lifecycle.py:154-166 | On a log that only grows, once the position has passed the captured log end no later step of the call brings it back there or out of range. |
| Convergence.CompletesExactly | src/ksqlite/_lifecycle.py:154-220 | A call on a log that grows meanwhile, from the placement of the consumer on: once it has replayed what lay below the captured end, it stands at that end if and only if no batch it committed held a record at or above it; it becomes READY only so, and then may; and as long as it is below, a record right below that end is still to be fetched. |
| Convergence.CallStands | src/ksqlite/_lifecycle.py:166-209 | At every step of such a call the loop's position is above the captured end if and only if a batch committed so far held a record at or above it, and never out of range. |
| Convergence.ReadyStays | src/ksqlite/_lifecycle.py:214-220 | A call that has become READY stands at the captured end and fetches no more. |
| Convergence.GrowingLogOvershoots | src/ksqlite/_lifecycle.py:166-209 | Such a call that never completes: a record lands after the capture and comes in one batch with the last below it (`Convergence.OpensAtStart` leads there from a new database). |
| Convergence.OpensAtStart | src/ksqlite/_lifecycle.py:118-144 | A rehydrate with nothing stored opens at the log start. |
| Convergence.BatchOvershoots | src/ksqlite/_lifecycle.py:205-209 | A batch takes the position past the captured log end exactly if it holds a record at or above it. |
| Append.Appender.Append | src/ksqlite/_write.py:51-120 | A key that is empty or not encodable, a payload that is no JSON or not encodable, raises ValueError, and a name that is no topic's ConfigError, before anything happens; ChangelogProduceError means exactly a broker error or an ack without an offset, and leaves tables and memory unchanged, whatever landed (a cancelled produce passes); any offset, 0 included, goes on to the local commit, which succeeds where no await goes wrong and SQLite accepts the payload, and fails only by what is on record or as StorageError where SQLite refuses it; a shard that is not READY is no reason to fail.  Success is exactly a replay of the last landed copy followed by the memory write-back: the row has the id, the acked offset, the key and the normalized payload, and a shard not seen before is entered as STANDBY without a log end; a local failure leaves tables and memory unchanged, save that a cancelled commit may have taken effect without the write-back.  While a single writer's appends commit, lag equals captured log end minus current log end.  A commit adds to the overtaken exactly the retained records of ours below it without a row, and none if all that was retained had been committed before. |
| Append.Appender.Produce | src/ksqlite/_write.py:69-103 | The record lands zero or more times with one content and an ack with an offset, 0 included, names the last copy; a KafkaError or a negative offset is ChangelogProduceError and nothing else is; a cancellation passes. |
| Append.Appender.Materialize | src/ksqlite/_write.py:105-120 | One transaction, then the monotonic write-back, which creates a STANDBY entry for an unseen shard; errors change nothing, save that a cancelled commit may have taken effect. It fails only if an await did, or as StorageError if SQLite refuses the payload. |
| Append.AppendIsReplay | src/ksqlite/_schema.py:119-144 | The append's pair of statements does what replaying its own record does, and raises exactly where replay would. |
| Append.AppendedRow | src/ksqlite/_write.py:105-117 | The row an append leaves: its id, shard, acked offset and key, and the payload as SQLite's json() normalizes it. |
| Append.JudgeEncode | src/ksqlite/_wire.py:139-152 | What append encodes, replay judges at every offset as ours with the same id, key and normalized payload, or as unreadable if SQLite refuses that payload. |
| Append.AcceptedYetUnreadable | src/ksqlite/_write.py:62-72 | An append that nothing refuses lands a record of ours, and one that no replay can read exactly if SQLite refuses the payload text. |
| Append.AwaitedPassesNone | src/ksqlite/_write.py:105-120 | If every retained record of ours was at or below the checkpoint, or a copy, when an append began, its commit passes over nothing. |
| Append.StaysInSync | src/ksqlite/_state.py:86-91 | A committed append of the only writer keeps checkpoint, memory and log end together, and lag is then the captured log end minus the current one. |
| Tables.ReplayRows | src/ksqlite/_schema.py:83-88 | What replaying records leaves, said without running it: existing rows stay, each added id comes from the first record carrying it, every accepted record has its id, no other checkpoint moves. |
| Tables.ReplayCheckpoint | src/ksqlite/_schema.py:90-94 | On increasing offsets the MAX upserts end at the last offset or where the checkpoint already was. |
| Tables.ReplayFrame | src/ksqlite/_schema.py:83-94 | A replay changes rows and checkpoint of its own shard only. |
| Tables.BatchRefinesReplay | src/ksqlite/_lifecycle.py:266-298 | One upsert per batch at its last offset equals one upsert per record, foreign records included. |
| Tables.AnySplitRefinesReplay | src/ksqlite/_lifecycle.py:230-303 | Any split of a segment into batches, with any empty polls, gives the tables of the record-by-record form. |
| Tables.ReplayIdempotent | src/ksqlite/_schema.py:83-94 | Replaying any part of an already replayed segment again changes nothing. |
| Tables.ReplayAbsorbed | src/ksqlite/_schema.py:83-94 | Records whose ids are present and whose offsets are reached change nothing. |
| Tables.BatchIsCommit | src/ksqlite/_lifecycle.py:236-298 | A batch commits as a set of rows and an offset, whatever the tables held. |
| Tables.CommitsLeave | src/ksqlite/_schema.py:83-94 | What a sequence of commits leaves: the union of their rows over the old ones, and per shard the largest offset. |
| Tables.CommitOrderIrrelevant | src/ksqlite/_schema.py:83-94 | If each message id maps to one row, the tables depend only on which materializations were committed, not on order or repetition. |
| Tables.AppendCommutesWithReplay | src/ksqlite/_write.py:105-117 | An append's commit and a replay batch holding the same record at the acked offset give the same tables in either order. |
| Tables.RunWorkExtends | src/ksqlite/_pool.py:200-208 | Work that has raised stays raised. |
| Txn.Run | src/ksqlite/_pool.py:181-229 | At most three attempts; success means the work took effect exactly once, as the last change, on the state its own BEGIN saw, other writers' commits in between notwithstanding; on a failure this connection has committed nothing, unless the failure is a cancellation that struck a commit already carried out, and then it is as a success; a transaction is left open by a cancellation that struck a BEGIN already carried out or by a rollback that did not end it.  On settled awaits none of which is cancelled after it was carried out, and settled rollbacks that succeed, nothing is left open and no failure has committed; each of the three exceptions has its input.  Every attempt but the last ended busy, and giving up on a busy one needs three attempts, an expired deadline or cancellation. Each retry began with time left before the deadline; a busy BEGIN is retried then; and with no other writer it fails only if an await did, or with what the work raised. |
| Txn.TryOnce | src/ksqlite/_pool.py:198-209 | One attempt takes effect once or not at all and is rolled back if the work or the commit raises, but not if BEGIN does; what the rollback raises takes the place of the error; where rollbacks succeed, a transaction is left open if and only if BEGIN was cancelled after it was carried out. A busy BEGIN, or one without the lock, ends the attempt busy. |
| Txn.Attempt | src/ksqlite/_pool.py:200-209 | The work and its commit happen entirely on the state BEGIN saw, or nothing of ours is committed; a cancellation at the commit leaves open which; a statement that raises determines the error. |
| Txn.Connection.Begin | src/ksqlite/_pool.py:45-53 | BEGIN IMMEDIATE sees the committed state; it may come back without the lock, which the code documents and its retry absorbs; it leaves a transaction open behind an error exactly if it was cancelled after it was carried out. |
| Txn.Connection.Execute | src/ksqlite/_pool.py:187-195 | Without the lock the first statement raises busy; otherwise it does what the statement says on the transaction's own view. |
| Txn.Connection.Commit | src/ksqlite/_pool.py:203-203 | The transaction's view becomes the committed state in one change, only under the lock; behind an error exactly if it was cancelled after it was carried out. |
| Txn.Connection.Rollback | src/ksqlite/_pool.py:204-208 | Ends the transaction and commits nothing; one that fails, or is cancelled before it was carried out, raises and leaves it open. |
| State.PartitionStateMachine.Mark | src/ksqlite/_state.py:39-49 | Only the status of this entry changes; an unseen shard is created first. |
| State.PartitionStateMachine.RecordApplied | src/ksqlite/_state.py:51-55 | The checkpoint in memory takes the larger of old and new, as the SQL upsert does. |
| State.PartitionStateMachine.RecordClamped | src/ksqlite/_state.py:62-68 | The one write-back that may lower the checkpoint in memory. |
| State.PartitionStateMachine.RecordLogEnd | src/ksqlite/_state.py:70-72 | The log end is cached, nothing else changes. |
| State.PartitionStateMachine.PartitionStates | src/ksqlite/_state.py:74-84 | The states a host sees are those of the shards memory knows. |
| Process.Transact | src/ksqlite/_lifecycle.py:390-400 | A pooled transaction happens entirely or not at all, and has happened although it raises exactly if a cancellation struck its commit or its way out of the pool; a transaction left open is ended on release; its errors are StorageError, cancellation, or what the work itself raised. It fails only if an await did, or with what the work raised. |
| Process.Restarted | src/ksqlite/_schema.py:160-162 | A start after a crash or a stop clears every row of `_owned` and starts memory empty, nothing adrift; rows and checkpoints stay; a start that fails changes nothing, unless it was cancelled too late. |
| Process.CommitInStep | src/ksqlite/_lifecycle.py:300-303 | Every batch's or append's commit with its write-back keeps memory no further than disk. |
| Process.CommitCutOff | src/ksqlite/_lifecycle.py:300-303 | So does a commit that is cut off from its write-back. |
| Process.ClampInStep | src/ksqlite/_lifecycle.py:352-355 | A clamp and its write-back keep memory no further than disk and end a drift; cut off between the two, memory is ahead of disk exactly if it was above the target. |
| Process.RevealInStep | src/ksqlite/_lifecycle.py:369-370 | A reveal of a shard known as READY or READY_PARTIAL is a legal step and keeps the invariant. |
| Process.EntryInStep | src/ksqlite/_state.py:39-72 | A write to one entry that the journal notes, or that leaves the status alone, keeps the invariant. |
| Process.BrokersMove | tests/support/fakes.py:130-160 | Whatever brokers do between two operations leaves the invariant of the process intact. |
| Environments.Environment.GetMany | src/ksqlite/_lifecycle.py:154-172 | A fetch takes time if it comes back empty, which a degraded broker may do forever and at any position, and may take none otherwise; it raises out-of-range only at a position below the log start or above the log end; records are a prefix of what is retained from the position on, and move the position behind the last of them. |
| Environments.Environment.EndOffset | tests/support/fakes.py:237-240 | The log end, or a broker error. |
| Environments.Environment.BeginningOffset | tests/support/fakes.py:232-235 | The log start, or a broker error. |
| Environments.Environment.SeekToStart | tests/support/fakes.py:228-230 | The position becomes the log start. |
| Environments.Environment.Seek | tests/support/fakes.py:224-226 | Never raises, whatever the offset. |
| Environments.Environment.SendAndWait | src/ksqlite/_write.py:72-103 | A produce lands any number of copies at or after the log end; a usable ack names the last; a failure says nothing about what landed. |
| Environments.Environment.BrokerActs | tests/support/fakes.py:130-160 | Landing, trimming and log-end regression keep a changelog well-formed. |
| Topics.ChangelogTopics.EnsureAndVerify | src/ksqlite/_topics.py:59-87 | Success is remembered per shard, failure is not; ConfigError means exactly an illegal name; past it the topic exists, created only where that is allowed; TopicNotFoundError means exactly a missing topic that may not be created; a broker error arrives as RehydrateError, a cancellation passes, and without either nothing else fails; a remembered shard needs no broker. |
| Steps.NothingInvented | src/ksqlite/_lifecycle.py:266-284 | In every run, truncations and restarts included, each row is the record its shard's changelog held at that row's offset, with its id, key and normalized payload. |
| Steps.AppendOnly | src/ksqlite/_schema.py:83-88 | No run changes or removes a row. |
| Steps.ProvenanceKept | src/ksqlite/_lifecycle.py:266-284 | Every single step keeps that provenance. |
| Steps.BrokerMoves | tests/support/fakes.py:130-160 | Landing adds one record at the end; trimming removes exactly what lies below an offset; a regression removes exactly what lies at or above one, and the end falls to it. |
| Coverage.LossCondition | src/ksqlite/_schema.py:83-94 | In every run without a log-end regression of the shard's changelog, each retained record of ours at or below the persisted checkpoint, readable or not, is readable and has its row, unless an append with a higher offset committed while it had none. |
| Coverage.LostIffOvertaken | src/ksqlite/_write.py:105-120 | The exact condition: a retained record of ours at or below the checkpoint lacks its row if and only if an append with a higher offset committed while it had none; for an unreadable one always, for a readable one with appends kept to shards that are not being rehydrated, no out-of-range reset, and the record's own append never committed. |
| Coverage.TotalCoverage | src/ksqlite/_lifecycle.py:141-217 | With nothing of the shard overtaken, coverage is total, below the checkpoint and below the position of a replay in progress: every retained record of ours can be read and has its row. |
| Coverage.Invariant | src/ksqlite/_lifecycle.py:141-217 | The invariant behind it, over every run without a regression of this shard's log end: checkpoint and replay position cover what is retained of ours below them, unreadable records included, up to the overtaken ones, and never pass the log end. |
| Coverage.AppendCovers | src/ksqlite/_write.py:105-120 | An append's commit covers up to its offset, the overtaken excepted, unreadable ones among them. |
| Coverage.BatchCovers | src/ksqlite/_lifecycle.py:285-298 | A committed batch covers up to its last offset. |
| Coverage.LossIsPermanent | src/ksqlite/_lifecycle.py:141-166 | A record lost that way stays lost through every restart, revoke, rehydrate and later append, short of an out-of-range reset or the commit of the failed append itself. |
| Coverage.OvertakingLoses | src/ksqlite/_write.py:105-120 | Two appends of which the first fails locally: the run exists, and the checkpoint ends past a record without a row. |
| Coverage.OneAtATimeOvertakesNone | src/ksqlite/_write.py:105-120 | What a host can do: if a record lands only when every retained one of ours in its shard, readable or not, is at or below the checkpoint or a copy of it, and only records landed since are committed by appends, nothing of the shard is ever overtaken. |
| Coverage.PrecededNotOvertaken | src/ksqlite/_write.py:105-120 | An append whose predecessors all can be read and have their rows overtakes none. |
| Visibility.OwnedMeansReady | src/ksqlite/_lifecycle.py:219-220 | In every run that never restarts a rehydrate on an owned shard, each owned shard is READY or READY_PARTIAL in memory. |
| Visibility.RestoringIsSafeIffHidden | src/ksqlite/_lifecycle.py:140 | That hypothesis is exact: marking a shard RESTORING keeps the property if and only if the shard is hidden. |
| Visibility.FailedRevealLeavesReady | src/ksqlite/_lifecycle.py:219-220 | The run that leaves READY over hidden rows: marked RESTORING, marked READY, the reveal lost; safety holds, nothing shows. |
| Visibility.HiddenUntilRevealed | src/ksqlite/_schema.py:67-71 | From any point at which a shard is hidden until its reveal step, the view shows none of its rows, whatever is committed meanwhile. |
| Visibility.RevealShowsAll | src/ksqlite/_lifecycle.py:369-370 | The reveal shows all rows of the shard at once and changes nothing for any other. |
| Visibility.HideKeepsRows | src/ksqlite/_lifecycle.py:103-113 | Hiding empties the shard's part of the view and keeps its rows and checkpoint. |
| Visibility.CheckpointRises | src/ksqlite/_schema.py:90-94 | Without an out-of-range answer in the run a persisted checkpoint never falls and never disappears. |
| WarmCold.WarmEqualsCold | src/ksqlite/_lifecycle.py:115-228 | After any mix of appends, cut rehydrates, failures, revokes and restarts, with nothing of the shard overtaken and no trim or regression of its changelog, a caught-up shard's changelog can be read to its end; a rehydrate of it into an empty database can complete unless a gap lies below its end; and what such a rehydrate leaves has the same ids, keys, payloads and checkpoint, and the same offsets except exactly for ids an append entered past an earlier copy. |
| WarmCold.RebuildsExactly | src/ksqlite/_lifecycle.py:115-228 | A rehydrate of a log into an empty database completes for some number of records if and only if all retained ones can be read and the last sits right below the log end, and leaves what they fold to. |
| WarmCold.RebuildableExactly | src/ksqlite/_write.py:105-120 | Over every run without a regression of the shard's log end: a caught-up shard can be rebuilt if and only if no append has passed a retained unreadable record and no gap lies below the log end. |
| WarmCold.UnreadablePassed | src/ksqlite/_lifecycle.py:257-265 | The run that breaks it: an append commits behind an unreadable record; the shard is caught up and its next rehydrate READY with nothing to replay, yet every rehydrate into an empty database stops at that record and never has the append's row. |
| WarmCold.WarmEqualsFold | src/ksqlite/_schema.py:83-94 | In the runs of `WarmEqualsCold` the rows are those the changelog folds to, also where a gap keeps a rebuild from completing. |
| WarmCold.OffsetsDifferExactly | src/ksqlite/_schema.py:83-88 | Over every such run a warm row differs from the rebuilt one if and only if its id entered by the commit of an append whose record has an earlier carrier in the changelog. |
| WarmCold.Origins | src/ksqlite/_schema.py:83-88 | Over every such run a row has the offset of the append that entered it, or of the first carrier its changelog ever held if a replay did. |
| WarmCold.EntersByReplay | src/ksqlite/_lifecycle.py:266-284 | A replay meets an id first at its first carrier. |
| WarmCold.RetriedAppendDisplaces | src/ksqlite/_write.py:105-120 | Such a run: two copies land and the append commits the second; nothing is overtaken, the shard is caught up, the warm offset is 1 and the cold one 0. |
| WarmCold.EverythingRetained | tests/support/fakes.py:130-160 | Without trims or regressions of its own a changelog holds everything it ever held. |
| WarmCold.WarmHasCold | src/ksqlite/_schema.py:83-94 | Every id the changelog folds to is in the warm tables. |
| WarmCold.ColdHasWarm | src/ksqlite/_schema.py:83-94 | Every warm row agrees with the folded one in key and payload, and in offset if its id was carried once. |
| Guarantees.VisibleMeansReady | src/ksqlite/_lifecycle.py:103-113 | For a process: a shard with visible rows is READY or READY_PARTIAL in memory, so the revoke that hides it cannot skip it. |
| Guarantees.HiddenUntilShown | src/ksqlite/_lifecycle.py:219-220 | For a process: a shard hidden at some point of its journal and not revealed since shows nothing. |
| Guarantees.NothingLost | src/ksqlite/_lifecycle.py:141-217 | For a process that began on a new database: a retained record of ours at or below a persisted checkpoint, readable or not, is readable and has its row, or is among those that appends have overtaken, unless its changelog has regressed. |
| Guarantees.SparedLosesNothing | src/ksqlite/_lifecycle.py:141-217 | Where nothing of the shard has been overtaken, every retained record of ours at or below the persisted checkpoint can be read and has its row. |
| Guarantees.NothingInvented | src/ksqlite/_lifecycle.py:266-284 | For a process that began on a new database: each row is a record its changelog held at that offset. |
| Guarantees.MemoryNotAhead | src/ksqlite/_state.py:51-68 | Between two operations, each failed or not, the checkpoint in memory is no further than the persisted one unless the shard is adrift: read off the invariant that every method keeps by `Process.CommitInStep`, `Process.CommitCutOff`, `Process.ClampInStep` and `Process.EntryInStep`. |
| Guarantees.ReadyMeansCold | src/ksqlite/_lifecycle.py:219-220 | For a process that began on a new database: a shard its last rehydrate left READY has its checkpoint at the log end; and if nothing was removed from its changelog and nothing of it overtaken, the changelog can be read to its end and the shard agrees with every rebuild, in offsets exactly but for ids an append entered past an earlier copy. |
| Guarantees.ToldToHost | src/ksqlite/_state.py:74-91 | A host is told the live status, the persisted checkpoint and the log end of a shard its last rehydrate served; lag 0 if it is READY; and if the checkpoint is not above the log end, a lag of at least what is left to replay. |
| Sessions.Drive | src/ksqlite/_store.py:370-435 | Over any sequence of assignments, revokes, appends and restarts, each failing or not, with trims and regressions between them, from a new database: all of them are performed unless a start fails, the invariant holds and with it all of `Sessions.Sound`; the shards marked as regressed or trimmed are among those of the sequence. |
| Sessions.Perform | src/ksqlite/_store.py:370-435 | Each operation of a host keeps the invariant of the process, whatever it comes to; one that raises nothing has done its work (`Sessions.Done`: every shard served, every shard hidden, the append's row present, memory empty and nothing visible after a start); and with nothing gone wrong outside only an assignment or an append may refuse. |
| Sessions.CoherentIsSound | src/ksqlite/_lifecycle.py:115-228 | What that invariant means at any time: no record of ours lost but to an overtaking append, no row invented, READY shards as a rebuild would leave them, memory no further than disk, visible shards READY or READY_PARTIAL. |
| Sessions.SpendsItsOwn | src/ksqlite/_write.py:51-72 | Whatever an append lands carries its own id or none, so ids that do not repeat stay unused until their append. |
| Wire.ClassifyEncode | src/ksqlite/_wire.py:43-94 | For every accepted key, payload and valid id, classifying the encoded record under any header order and any other-named extra headers gives back the id, the key and the text append inserts. |
| Wire.LookupFinds | src/ksqlite/_wire.py:54-54 | Looking a header up by name finds it whatever surrounds it. |
| Wire.LookupIsLast | src/ksqlite/_wire.py:54-54 | As in a dict built from the list, the last header of a name counts, and none is found exactly if none has the name. |
| Wire.JudgeExactly | src/ksqlite/_wire.py:43-100 | What replay makes of any record, told from its headers, key and value: foreign without a uuid for message id; RehydrateError with one and a format version missing or not the byte 0x31; foreign if then key or value is missing or not UTF-8; else ours with that id, key and normalized text, or an error if SQLite refuses the text. |
| Wire.WireFormat | src/ksqlite/_wire.py:139-152 | What an append puts on the wire: key and payload text in UTF-8, text as it was given, and the two headers format_version with the byte 0x31 and message_id with the id. |
| Utf8.DecodeEncode | src/ksqlite/_wire.py:139-152 | Decoding undoes encoding on every encodable text. |
| Utf8.EncodeDecode | src/ksqlite/_wire.py:76-88 | Encoding undoes decoding on every byte string that decodes: overlong forms and surrogates are refused. |
| Utf8.OctetTable | src/ksqlite/_wire.py:139-152 | The octets of a character, by the table of section 3 of RFC 3629: how many, in which ranges, and that their free bits make up the character. |
| Utf8.RfcExample | src/ksqlite/_wire.py:139-152 | The first example of section 7 of RFC 3629. |
| Utf8.EncodesExactly | src/ksqlite/_write.py:24-35 | Exactly the texts without a lone surrogate can be encoded. |
| Names.DefaultNamesInjective | src/ksqlite/_store.py:37 | Distinct shards never share a changelog name under the default template. |
| Names.DecimalInjective | src/ksqlite/_topics.py:51-57 | Distinct partition numbers print differently. |
| Names.DecimalDenotes | src/ksqlite/_topics.py:51-57 | A partition number prints as the digits that denote it, without a leading zero. |
| Names.NameParts | src/ksqlite/_store.py:37 | The default name is the topic, .p, the partition's digits and .changelog. |
| Names.NamedExactly | src/ksqlite/_sql.py:71-78 | A shard has a changelog name if and only if its topic holds only letters, digits, dots, underscores and dashes and the name is no longer than 249 characters; else ConfigError. |
| Drain.OneWinner | src/ksqlite/_store.py:315-325 | In every interleaving, of all stops that ever run exactly one found the store running once it has left that state. |
| Drain.NoCloseInFlight | src/ksqlite/_store.py:326-343 | No close step runs while an append is in flight. |
| Drain.NoAdmission | src/ksqlite/_store.py:370-384 | Once a stop has won, no append is admitted: those in flight only get fewer. |
| Drain.RunsExactly | src/ksqlite/_store.py:206-329 | In every interleaving the store runs exactly from its start to the first stop after it, and is new exactly until its start. |
| Drain.AdmittedExactly | src/ksqlite/_store.py:370-384 | An append is admitted exactly between the start and the first stop after it. |
| Drain.NoSecondStart | src/ksqlite/_store.py:206-208 | Once started, a store cannot be started again, stopped or not. |
| Drain.StopMeets | src/ksqlite/_store.py:315-329 | What a stop comes to: LifecycleError before any start, nothing once another has won, else the drain exactly if appends are in flight, and the close steps otherwise. |
| Drain.CloseStepsInOrder | src/ksqlite/_store.py:336-354 | What has been attempted is always a prefix of the five close steps, each once, in order, however earlier ones ended. |
| Drain.WinnerNotStuck | src/ksqlite/_store.py:327-329 | When nothing is in flight the winner's next step is enabled, so it is never left waiting. |
| Drain.WinnerGetsCloser | src/ksqlite/_store.py:326-356 | No step of anyone puts the winner off, and each append that leaves and each step of its own brings it closer, by a bounded count. |
| Drain.FirstRaisedIsFirst | src/ksqlite/_store.py:334-356 | The exception raised at the end is the first of the close steps', and none is raised exactly if none occurred. |
| Drain.Invariant | src/ksqlite/_store.py:315-393 | The counter is the number of appends in flight, the drain event is set only when none is left after STOPPING and always then, and one stop alone is waiting or closing. |
| Drain.KSQLite.AppendBegins | src/ksqlite/_store.py:381-384 | Check and increment in one synchronous section: admitted exactly between the start and the first stop after it, else LifecycleError. |
| Drain.KSQLite.AppendEnds | src/ksqlite/_store.py:390-393 | The `finally`: decrement, and set the event when the last one leaves a stopping store. |
| Drain.KSQLite.StopBegins | src/ksqlite/_store.py:315-329 | LifecycleError exactly before any start, no-op exactly for a losing stop, waiting exactly if it wins with appends in flight, closing at once exactly if it wins with none. |
| Drain.KSQLite.StopResumes | src/ksqlite/_store.py:328-329 | Past the drain nothing is in flight and the store is CLOSED. |
| Drain.KSQLite.CloseClients | src/ksqlite/_store.py:331-356 | Producer flush, producer stop, consumer stop, admin close and pool close are all attempted in this order whatever each comes to, and the first exception is what the call raises. |
| Drain.KSQLite.Start | src/ksqlite/_store.py:206-313 | Succeeds exactly if the store was never started, and then the store runs; LifecycleError otherwise. |

## Left out

- aiokafka, aiosqlite, aiosqlitepool: sockets, WAL, PRAGMAs, connection pooling and lazy client start are foreign; only fetch, offsets, produce, begin, commit and rollback are modelled, as nondeterministic contracts.
- uuid.UUID, json.loads, json.dumps and SQLite's json(): parameters of `Wire.Parsers`; that json() accepts whatever json.loads accepted is not assumed.
- `query`, hydration, host SQL: an unseen SQL engine; only the `records` view is modelled, as a join with `_owned`.
- `_sql.py` and the column and index reconciliation of `migrate`: validation of host declarations; only the topic-name check and the clearing of `_owned` are kept.
- Compaction policy checks, topic creation codes, client kwargs, `start()` rollback, logging and message texts: shallow branches.
- Compacted changelogs: records vanish only by trimming a prefix or by a log-end regression; gaps in offsets are allowed.
- Drain.KSQLite.Start: one step, its success; a start that fails in between closes what it opened and leaves the store new.
- Cancelled `stop()`, concurrent `start()` calls and overlapping assignment hooks: outside what the code coordinates.
- Lifecycle.PartitionLifecycle.RehydrateOne: the log does not change during one call of the class method; replay against a log that grows, is trimmed or is appended to meanwhile is covered by the step relation only, a log that grows by `Convergence.CompletesExactly`.
- Append.Appender.Append: no rehydrate runs between its commit and its write-back in the class method; in that interleaving a clamp can leave memory ahead of disk, so memory no further than disk is claimed over whole operations.
- Process.Transact: a connection the pool cannot roll back is taken to be closed by it.
- Sessions.Drive: the operations of a host follow one another; appends beside a rehydrate, and other writers of a changelog, are covered by the step relation only.
- Txn.Run: the busy timeout and the backoff lengths are replaced by an arbitrary clock; the rehydrate and append classes use connections no other process writes to, while `Txn.Run` itself is proved with other writers.
- Environments.Environment.GetMany: it may also come back empty at a position out of range, where a broker would raise; the proofs hold for both.
- Wire.ClassifyEncode: header values are bytes; a null header value and the reason texts of foreign records are not modelled.
- Coverage.LossCondition: log-end regressions are excluded, as a recreated topic that has grown past the old checkpoint goes undetected; nothing is claimed about rows then except provenance.
- Topics.ChangelogTopics.EnsureAndVerify: whether listing, creating or describing fails is nondeterministic; error codes per topic count as failures of the call, and a topic created meanwhile by others as created here.
