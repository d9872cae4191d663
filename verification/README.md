# Models of SprinGo's protocols and state machines

SprinGo is a Spring-like framework for Go. These models cover the parts of it that are small protocols on shared
state. Database rows are plain records, conditional updates are atomic steps, time is an integer clock, and what
a database answers to each statement is an input. `dafny verify dfyconfig.toml` checks the whole project.

- `Transaction.dfy`: the seven propagation modes. `TransactionMeaning` gives every finite program of nested calls,
  writes, publications, swallowed errors and panics a meaning by snapshots; `Transactions` runs it with shared
  handles, a sticky error, savepoints and an event buffer cut back in place, and is proved equal to the meaning.
  One library fact is assumed: a transaction handle keeps its error once set, statements through such a handle do
  nothing, and `SavePoint` and `RollbackTo` report it.
- `EventPool.dfy`: publishers, workers, fallback goroutines, outbox completion and a concurrent shutdown, as a step
  system over all interleavings. A fault flag records what would panic or race.
- `MigrationLock.dfy`: the statements on the lock row, and the protocol of any number of processes that attempt,
  break stale locks, beat, release or crash, under bounds on their delays and on the heartbeats refused in a row.
- `MigrationVersion.dfy`, `MigrationEngine.dfy`: the order of migration names, and the history table moving in step
  with an abstract schema under Migrate, Rollback, Reset and Refresh, with failures at any point.
- `ShedLock.dfy`: the scheduling lock, its configured holding times, and the copy used by the outbox poller.
- `Container.dfy`: `BeanGraph` says by walks in the dependency graph what can be built, and which of the rest ends
  in a panic; `Container` resolves beans recursively with a stack, a cache and constructions that run once.
- `RetryManager.dfy`: the dead letter queue with leases, crashes and bounded retries.
- `SqlLoader.dfy`: the statement splitter, against two simple passes.
- `PathMatcher.dfy`: the `**` matcher, against splits of the path.

Where a property that one would expect fails, there is a concrete case and the exact condition:

- Mutual exclusion of the migration lock needs the delays and one heartbeat interval to fit the timeout. The error of
  a heartbeat is ignored, so for every heartbeat that the database may refuse in a row it needs one interval more
  (`TwoHolders`, `RefusedHeartbeats`, `ExclusiveIffSilenceFits`).
- A baseline is documented to cover migrations up to and including its version. The code compares whole names when
  the versions are equal, so a baseline at "V2" leaves V2__roles pending (`BaselineV2LeavesOutV2`, `VersionLTEMeans`).
  The models follow the code.
- The error of the query for the highest batch is ignored, and then the next batch is 1. The batches stay in order
  exactly if none is above 1, and Rollback(0) takes back exactly the new rows if the row before them is not of
  batch 1; after a baseline it is, and then Downs run whose Ups never did. They also run when a Migrate did nothing
  but record a baseline (`FailedBatchQuery`, `NewRowsInOrder`, `RollbackUndoesMigrate`, `RollbackThroughBaseline`).
- Names without a version can turn the order of names round, and do so exactly when one stands between the texts of
  two versions the wrong way (`UnversionedNamesCycle`, `OrderedExactly`).
- The configured minimum holding time of a scheduling lock is kept exactly if it is not greater than the maximum
  (`CrashedHolder`, `ConfiguredDistance`).
- A singleton's error is remembered, so a bean keeps failing after its dependency is registered, until the container
  is cleared (`StaleError`, `SoundExactly`, `CoherentExactly`).
- A panic in a factory uses up the construction of every singleton on the way with neither instance nor error. The
  framework recovers panics of listeners and jobs, and the next call succeeds with nil (`SpentConstruction`,
  `GetTwice`).
- The time that `handleFailure` computes for the first retry is not waited for: a row without retries is always due
  (`HandleFailure`).
- Parsing the statements that came out of the SQL splitter need not give them back (`CommentLeftBehind`,
  `ReparsesExactly`).
- An empty path does not match a pattern of several `**` (`TwoDoubleStars`, `MatchPath`).

## Model

| member | source | states |
|---|---|---|
| TransactionMeaning.DoomedIffSpoiled | framework/database/transaction.go:158-245 | A live transaction ends doomed exactly when, on the way, a participant failed or a nested scope could not be undone; what the program did with the error afterwards plays no part |
| TransactionMeaning.CommitsIff | framework/database/transaction.go:267-322 | A new physical transaction reports success if and only if begin, read-only mode and commit succeed, its body ends well and nothing spoiled it; then its whole log and all its events take effect, else none of them |
| TransactionMeaning.SwallowedFailureStillDooms | framework/database/transaction.go:158-172 | A Required or Mandatory participant that fails anywhere inside a live transaction, in however many scopes, dooms it, whatever the program does with the error afterwards |
| TransactionMeaning.FailureReported | framework/database/transaction.go:158-172 | So the physical transaction around it reports failure, and none of its log or events takes effect |
| TransactionMeaning.TransactionHidesWork | framework/database/transaction.go:108-172 | Without independent scopes, nothing done inside a transaction is visible outside before it ends |
| TransactionMeaning.AllOrNothing | framework/database/transaction.go:267-322 | A transaction without independent scopes is all or nothing, for the store and for the delivered events alike |
| TransactionMeaning.OpensAtomic | framework/database/transaction.go:108-199 | Required and Nested without a transaction, and RequiresNew anywhere, are atomic: for a self-contained body, store and delivered events get exactly what the body wrote and published, in order, if the call is Ok, and nothing otherwise; it is Ok exactly when begin, read-only mode and commit succeed and the body ends well without dooming it; a transaction around it is left alone |
| TransactionMeaning.OpensAndEnds | framework/database/transaction.go:175-199 | The same for any body: what its independent scopes did stays |
| TransactionMeaning.WithoutTransaction | framework/database/transaction.go:108-155 | Without a transaction, Mandatory is an error and changes nothing, and Supports, NotSupported and Never run the body bare |
| TransactionMeaning.BareWriteStands | framework/database/transaction.go:189-199 | What a bare body writes stands at once, whatever the body and the program do afterwards |
| TransactionMeaning.InsideTransaction | framework/database/transaction.go:108-172 | Inside a transaction, Required and Mandatory take part and doom it unless the body ends well, Supports takes part and dooms nothing, NotSupported leaves it alone, and Never is an error and changes nothing |
| TransactionMeaning.NestedRestores | framework/database/transaction.go:202-245 | A nested scope that fails leaves the transaction exactly as it found it, or dooms it if it was doomed meanwhile or the savepoint cannot be gone back to; without a savepoint the body does not run |
| TransactionMeaning.CallThen | framework/database/transaction.go:108-155 | What follows a call is chosen by whether it ended well, in an error or in a panic, and goes on where it left off |
| TransactionMeaning.WriteMeans | framework/database/transaction.go:175-199 | A write is committed at once without a transaction, logged inside one, and lost in a doomed one |
| TransactionMeaning.PublishMeans | framework/event/event_bus.go:98-136 | A publication is delivered at once without a transaction, and buffered with its outbox row, if that could be inserted, inside one |
| TransactionMeaning.MeanExtends | framework/database/transaction.go:108-155 | No program leaves its transaction, shortens what was there before it, or revives a doomed one |
| TransactionMeaning.MeanIsLocal | framework/database/transaction.go:202-245 | A program does to a transaction what it would do to an empty one, so a savepoint that is a length separates what was before from what comes after |
| TransactionMeaning.OutboxMatchesEvents | framework/event/event_bus.go:98-136 | From every world, what a program adds to store and delivered events agrees on the outbox rows, one for one and in order, and so do log and buffer of the open transaction: rows and buffer are cut back, suspended, committed and dropped together |
| TransactionMeaning.InsertedMeansTracked | framework/event/event_bus.go:98-136 | If every outbox insert succeeds, every buffered event carries the id of its row |
| TransactionMeaning.HookGetsCommittedRows | framework/database/transaction.go:302-322 | With outbox on and inserts succeeding, what the post-commit hook of any physical transaction is given, suspended ones around it or not and whatever the store held before, is exactly the list of outbox rows that the same transaction commits |
| Transactions.TxHandle.SavePoint | framework/database/transaction.go:202-215 | Library assumption: the handle keeps its error once set, and taking a savepoint reports it |
| Transactions.TxHandle.RollbackTo | framework/database/transaction.go:216-245 | Library assumption: rolling back to a savepoint truncates the log to its length, or reports the error and truncates nothing |
| Transactions.Runtime.Run | framework/database/transaction.go:108-155 | Running any program of nested calls in all seven modes, with shared handles, savepoints and a buffer cut back in place, yields the outcome, store, delivered events and transaction of its recursive meaning |
| Transactions.Runtime.Call | framework/database/transaction.go:108-155 | One `Transactional` call, for every propagation mode and for every way the database may answer, equals its meaning |
| Transactions.Runtime.ExecuteInActiveTx | framework/database/transaction.go:158-172 | A participant that fails or panics leaves the handle with an error |
| Transactions.Runtime.ExecuteInNestedTx | framework/database/transaction.go:202-245 | A nested scope that fails restores the rows and the event buffer it found |
| Transactions.Runtime.ExecuteInNewTx | framework/database/transaction.go:175-199 | A new transaction leaves the suspended one alone |
| Transactions.Runtime.Finish | framework/database/transaction.go:267-322 | Rollback on error, panic or sticky error; commit, then the post-commit hook with the buffer |
| Transactions.Runtime.PublishEvent | framework/event/event_bus.go:98-136 | Outbox row through the handle, then the buffer; a failed insert leaves an event without a row; outside a transaction the event is dispatched at once |
| EventPool.StepInv | framework/event/event_bus.go:243-465 | Every step of a publisher, worker, fallback goroutine or shutdown, in any interleaving, keeps the invariant that ties wait groups, queue, flags and outbox counters to the tasks |
| EventPool.LifecycleSafe | framework/event/event_bus.go:244-277 | In every reachable state: no send on the closed queue and nobody about to send on it, no second close, no wait group below zero or added to after its final wait; and once shutdown has returned, the queue is empty and no listener of the pool is queued or running |
| EventPool.Conservation | framework/event/event_bus.go:311-445 | In every reachable state, under every rejection policy: dispatched = executed + running + queued + held by a publisher + discarded |
| EventPool.CompletedExactlyOnce | framework/event/event_bus.go:286-465 | For an outbox id not redispatched while in flight, completion is called exactly once per dispatch, after all its handlers have run or been discarded, and then the counter entry is gone, despite the unlocked gap between lookup, decrement and delete |
| EventPool.StepRank | framework/event/event_bus.go:244-445 | A measure falls on every step that is not a new dispatch |
| EventPool.RunsEnd | framework/event/event_bus.go:244-445 | Once dispatches end, a run is no longer than the measure it starts with |
| EventPool.NeverStuck | framework/event/event_bus.go:244-277 | No reachable state short of stopped is stuck, the blocking policy included |
| EventPool.AtRest | framework/event/event_bus.go:244-445 | Where nothing but a new dispatch can happen, the pool is stopped and every handler dispatch has been executed or discarded |
| EventPool.PolicyRespected | framework/event/event_bus.go:311-430 | In every reachable state: with policy discard no task is ever handed to a fallback goroutine; with any other, a task let into the pool is never rejected or discarded, and before the shutdown has begun nothing is; with policy block no task is ever left unsent |
| EventPool.LetInMeansExecuted | framework/event/event_bus.go:244-430 | At rest, unless the policy is discard, every task that was let into the pool has been executed |
| EventPool.HandedOverInOrder | framework/event/event_bus.go:244-310 | In every reachable state: once the shutdown has gone past the poller, all its dispatch calls have returned; and the handlers of a dispatch are handed over one after the other |
| EventPool.EnterMeans | framework/event/event_bus.go:311-330 | A handler dispatch is let in exactly while the pool is the current one |
| EventPool.CheckMeans | framework/event/event_bus.go:345-374 | A task that finds the pool closing is turned away by policy discard, and else gets a fallback goroutine |
| EventPool.SendMeans | framework/event/event_bus.go:376-430 | With room in the queue a task is queued; on a full queue it is turned away by policy discard and gets a fallback goroutine by policy fallback |
| EventPool.ReceiveMeans | framework/event/event_bus.go:221-237 | Workers take the longest waiting task first |
| MigrationLock.IntervalIsAThird | framework/database/migration_lock.go:69-81 | The heartbeat interval is a third of the lock timeout, but never under 100 ms nor over 30 s; so three of them fit exactly when the timeout is at least 300 ms |
| MigrationLock.LockTable.UpdateIfUnlocked | framework/database/migration_lock.go:140-160 | The compare-and-set on an unlocked row |
| MigrationLock.LockTable.UpdateIfStillAt | framework/database/migration_lock.go:161-193 | Breaking a stale lock takes effect only if `locked_at` is still the value that was read |
| MigrationLock.LockTable.UpdateLockHeartbeat | framework/database/migration_lock.go:112-116 | A heartbeat moves `locked_at` of the own lock only; one that the database refuses leaves the row alone, and nobody learns of it |
| MigrationLock.LockTable.ReleaseLock | framework/database/migration_lock.go:196-203 | A release by the holder unlocks the row; by anybody else, or if refused, it changes nothing |
| MigrationLock.LockTable.AcquireLock | framework/database/migration_lock.go:119-193 | For every answer of the database, an attempt that nobody gets in between succeeds exactly on a missing, free or stale lock as far as its statements go through, stale meaning older than the configured timeout or five minutes, and reports an error exactly when a statement it needed was refused |
| MigrationLock.LockTable.HandOver | framework/database/migration_lock.go:119-203 | After a release by the holder any attempt gets the lock at once, at any time and timeout |
| MigrationLockProtocol.UndisturbedAttempt | framework/database/migration_lock.go:119-193 | The interleavable steps of an attempt, taken without anybody in between, end as that method does when the updates go through, whether or not a missing row can be created |
| MigrationLockProtocol.ReleaseHandsOver | framework/database/migration_lock.go:119-203 | The same without that condition, as long as nobody has broken the lock |
| MigrationLockProtocol.ReleaseFreesTheLock | framework/database/migration_lock.go:119-203 | If the silence of a holder fits the timeout: from every reachable state in which a process is about to release, the next undisturbed attempt after the release gets the lock |
| MigrationLockProtocol.StepKeepsInv | framework/database/migration_lock.go:46-203 | Every step of attempt, stale-break, heartbeat, release, crash and clock, with heartbeats and releases that are refused, keeps the invariant, if the silence of a holder fits the timeout |
| MigrationLockProtocol.MutualExclusion | framework/database/migration_lock.go:46-203 | With a timeout of at least 300 ms, no two live processes are ever both between a successful acquire and their release, if no heartbeat is refused and the delays add up to at most two thirds of the timeout, or if no two in a row are refused and the delays, two heartbeats among them, add up to at most one third |
| MigrationLockProtocol.TwoHolders | framework/database/migration_lock.go:119-203 | Whenever the silence of a holder can exceed the timeout, a run exists in which two processes hold the lock |
| MigrationLockProtocol.ExclusiveIffSilenceFits | framework/database/migration_lock.go:46-203 | Mutual exclusion in every reachable state if and only if the timeout covers the delays of acquire, start and release and, for each heartbeat that may be refused in a row and one more, an interval and a heartbeat |
| MigrationLockProtocol.RefusedHeartbeats | framework/database/migration_lock.go:112-116 | At a timeout of 300 ms and with no delay at all, three refused heartbeats in a row let two processes hold the lock, and two do not |
| ShedLockProtocol.ConfiguredDistance | framework/scheduler/manager.go:399-411 | What the configured texts mean: acquisitions keep a distance if and only if it is at most both durations, where an unreadable or negative text stands for ten minutes at most and none at least; so a configured minimum is kept if and only if it is not greater than the maximum |
| ShedLockProtocol.CrashedHolder | framework/scheduler/manager.go:360-397 | An instance that takes the lock and dies lets another in after `atMost` |
| ShedLockProtocol.AfterCrash | framework/scheduler/manager.go:360-411 | After a holder that died, the next attempt gets the lock exactly from the configured maximum on |
| ShedLockProtocol.AfterQuickRun | framework/scheduler/manager.go:360-411 | After a run that ended at once, the next attempt gets the lock exactly from the configured minimum on |
| ShedLock.CalculateReleaseTime | framework/scheduler/manager.go:494-501 | The lock is kept to the end of the run, and never for less than `atLeast` from its start |
| ShedLock.AcquireTxHelper.Execute | framework/scheduler/manager.go:439-476 | With nobody in between, the body of the lock transaction acquires exactly on a missing or expired row that could be read and written; only a failed read is an error |
| ShedLock.AcquireShedLock | framework/scheduler/manager.go:413-430 | The lock transaction with its commit: success if and only if the read and the commit are confirmed; the row is taken unless the commit is refused, so an unconfirmed commit leaves it taken behind an error |
| ShedLockProtocol.UndisturbedAttempt | framework/scheduler/manager.go:413-476 | The interleavable steps of an attempt, taken without anybody in between, end as the lock transaction does |
| ShedLockProtocol.UndisturbedRun | framework/scheduler/manager.go:360-397 | So do those of a whole run |
| ShedLock.LockTable.UpdateIfExpired | framework/scheduler/manager.go:464-476 | The conditional update on an expired row |
| ShedLock.LockTable.ReleaseShedLock | framework/scheduler/manager.go:478-492 | A release changes only a row of the same instance |
| ShedLock.ExecuteWithLock | framework/scheduler/manager.go:360-397 | The job runs exactly when the lock was taken and the commit confirmed, or when there is no database; its own error or panic is what is reported then; afterwards the row is locked until the later of its end and the configured minimum from its start, or for the configured maximum if the release fails or the commit was unconfirmed; an unreadable or negative text stands for no minimum and for ten minutes at most |
| ShedLockProtocol.AcquisitionsSpaced | framework/scheduler/manager.go:360-501 | In every reachable state, any two acquisitions are at least min(atLeast, atMost) apart per acquisition between them, late releases of overrun jobs included |
| ShedLockProtocol.InTimeRunsExclude | framework/scheduler/manager.go:360-501 | Runs that have not used up `atMost` never overlap |
| ShedLockProtocol.PollersExclude | framework/event/event_bus.go:813-872 | The outbox poller's copy of the lock: two pollers are at work together only after the earlier has been at it for 45 seconds |
| MigrationVersion.ParseNumericParts | framework/database/migration_version.go:39-59 | The loop over the characters, with 64-bit wrap-around, reads the parts |
| MigrationVersion.Wrap64Exactly | framework/database/migration_version.go:39-59 | What is left of a number too large is the int64 that differs from it by a multiple of 2^64 |
| MigrationVersion.Decimal | framework/database/migration_version.go:39-59 | The value of a further digit |
| MigrationVersion.PartsSkip | framework/database/migration_version.go:39-59 | A separator without a number before it, and any other character, is passed over |
| MigrationVersion.VersionOfName | framework/database/migration_version.go:19-59 | For a name made of an optional v, a version whose numbers fit in 64 bits and a text that does not continue it, the regular expression finds that version and its numbers are what is compared |
| MigrationVersion.CompareMigrationNames | framework/database/migration_version.go:19-37 | Compares by version, and by text where versions do not decide |
| MigrationVersion.NameOrder | framework/database/migration_version.go:19-37 | On names with a version the order is irreflexive, asymmetric, transitive and total |
| MigrationVersion.NameTotal | framework/database/migration_version.go:19-37 | Whatever the names, each pair is ordered exactly one way |
| MigrationVersion.OrderedExactly | framework/database/migration_version.go:19-37 | On a set of names the order is transitive if and only if no name without a version stands between the texts of two versions the wrong way round |
| MigrationVersion.StrictOrder | framework/database/migration_version.go:19-37 | On such a set the order is strict and total, names without a version included |
| MigrationVersion.UnversionedNamesCycle | framework/database/migration_version.go:19-37 | Three names that go round: v9, V10 and a |
| MigrationVersion.VersionLTEMeans | framework/database/migration_version.go:61-63 | When `isVersionLTE` means "at or below the version": for every name but those of the same version with a greater text, and for no others |
| MigrationVersion.BaselineV2LeavesOutV2 | framework/database/migration_version.go:61-63 | A baseline at "V2" leaves the migration V2__roles pending |
| MigrationVersion.FindLatestExecutedMigration | framework/database/migration_version.go:65-73 | One of the executed names, whatever order the map is walked in, and the greatest if no name without a version turns the order round |
| MigrationEngine.SortedOrders | framework/database/migrator.go:316-318 | Sorting distinct versioned names gives the same names in strictly ascending order |
| MigrationEngine.AscendingUnique | framework/database/migrator.go:316-318 | There is only one ascending order of a set of names, so it does not matter how the library sorts |
| MigrationEngine.BaselineSplits | framework/database/migrator.go:158-227 | A baseline splits the registered names at its version into rows recorded without Up and names then pending, and every pending name is above every recorded one |
| MigrationEngine.BaselineInOrder | framework/database/migrator.go:158-227 | After a baseline on an empty history, the order check that follows can never reject |
| MigrationEngine.LastBatchIsHighest | framework/database/migration_revert.go:66-86 | Rollback(0), which scans a descending prefix, picks exactly the rows of the highest batch if and only if no lower batch comes after one |
| MigrationEngine.OrderMeansHighestIsLast | framework/database/migration_revert.go:66-86 | Batches that never decrease with id are enough for that |
| MigrationEngine.NewRowsInOrder | framework/database/migrator.go:239-246 | New rows keep the batches in order if and only if the query for the highest batch went through, or that batch is at most 1 |
| MigrationEngine.NewRowsPicked | framework/database/migration_revert.go:66-86 | Rollback(0) picks exactly the rows just added if and only if that query went through, or the row before them is not of batch 1; otherwise it picks older rows too |
| MigrationEngine.FailedBatchQuery | framework/database/migrator.go:239-246 | Two small histories: a failed query makes Rollback(0) take a baseline row with the new one, and puts batches out of order |
| MigrationEngine.RowsOk | framework/database/migrator.go:158-279 | Inserted rows keep ids ascending, names distinct and batches in order |
| MigrationEngine.RanPlanSchema | framework/database/migrator.go:248-279 | Running any prefix of the plan keeps the schema equal to the fold of Up over the history |
| MigrationEngine.RanPlanAscending | framework/database/migrator.go:207-279 | A plan that passed the order check keeps an ascending history ascending |
| MigrationEngine.RollbackUndoesMigrate | framework/database/migration_revert.go:66-133 | Migrate, then Rollback(0), where the first added rows, for every history and every answer to the batch query: without a baseline in the Migrate, history and schema are back if and only if the query went through or the row before the new ones is not of batch 1; with one, the history is empty again, and the Downs of the baseline have run, if and only if nothing ran after it or the query failed, and otherwise the baseline stays and the schema is back |
| MigrationEngine.RollbackUndoesPlan | framework/database/migration_revert.go:66-133 | The same for the part of a Migrate that comes after its baseline step |
| MigrationEngine.RollbackThroughBaseline | framework/database/migration_revert.go:66-133 | After a baseline and a Migrate whose batch query failed, Rollback(0) leaves no row and has run the Downs of the baseline, whose Ups never ran |
| MigrationEngine.MigratedBatches | framework/database/migrator.go:282-331 | A Migrate keeps the batches in order if and only if the batch query went through, or no batch above 1 was there, or nothing was added |
| MigrationEngine.RevertedSchema | framework/database/migration_revert.go:88-133 | Cutting the history to a prefix while running the Downs takes the schema back to what that prefix says |
| MigrationEngine.SecondMigrateIdle | framework/database/migrator.go:282-331 | A Migrate with nothing pending changes nothing |
| MigrationEngine.RebuiltIsSorted | framework/database/migration_revert.go:164-213 | The list a Refresh rebuilds is the only ascending list of the registered names |
| MigrationEngine.PickedFromEnd | framework/database/migration_revert.go:66-86 | The rows picked from the descending list are the last rows of the history, as many as asked for, or the last batch |
| MigrationEngine.MigrationManager.GetNextBatch | framework/database/migrator.go:239-246 | One more than the highest batch, or 1 if the query fails, which is not noticed |
| MigrationEngine.NextBatchMeans | framework/database/migrator.go:239-246 | One above the highest batch in the table, or 1 in an empty table or if the query failed |
| MigrationEngine.MigrationManager.ApplyBaselineIfRequired | framework/database/migrator.go:158-205 | In one transaction, on an empty history only, the rows at or below the baseline version, and no Up |
| MigrationEngine.MigrationManager.ValidateOrder | framework/database/migrator.go:207-227 | Accepts exactly when out-of-order is on or every executed name is below every pending one |
| MigrationEngine.MigrationManager.ExecutePendingMigrations | framework/database/migrator.go:248-279 | Exactly the names whose transactions go through, up to the first that is refused, have had their Up run and their row inserted; success means all of them |
| MigrationEngine.MigrationManager.Migrate | framework/database/migrator.go:282-331 | For every answer of the database, exactly what happens and whether success is reported: nothing, or a baseline that is due and then the sorted pending names, if in order, up to the first refusal, in a batch of their own; the schema stays the fold of the history; the names stay ascending without baseline and out-of-order; the batches stay in order exactly if the batch query went through, no batch above 1 was there, or nothing was added; success leaves nothing pending |
| MigrationEngine.MigratedMeans | framework/database/migrator.go:279-330 | What that comes to in plain terms: nothing without the lock, the table or a due baseline; else the baseline, which is all registered names at or below the version on an empty table, and then the registered names that are missing, from the lowest on, as many as go through, if all of them lie above what is in the table or out of order is allowed; success exactly if every registered name is in the table |
| MigrationEngine.MigrationManager.GetMigrationsToRevert | framework/database/migration_revert.go:66-86 | With positive steps exactly that many rows, or all if there are fewer; else exactly the leading rows of the first row's batch |
| MigrationEngine.MigrationManager.RevertSingleMigration | framework/database/migration_revert.go:105-133 | Down and deletion together, or an error and no change; an unregistered name or a missing Down is an error |
| MigrationEngine.MigrationManager.RollbackUnderLock | framework/database/migration_revert.go:32-51 | For every answer of the database, exactly how many rows go: on success those asked for, else those up to the first that has no Down in the code or whose Down is refused; exactly their Downs have run |
| MigrationEngine.MigrationManager.Rollback | framework/database/migration_revert.go:13-30 | Under the lock; with positive steps, success leaves the history without its last rows, that many or all, and else without the trailing rows of its last batch |
| MigrationEngine.MigrationManager.Reset | framework/database/migration_revert.go:136-161 | Reverts up to the first row that cannot be; success means all, and then the history is empty and the schema is the base |
| MigrationEngine.MigrationManager.Refresh | framework/database/migration_revert.go:164-213 | For every answer of the database, exactly how far rollback and rebuild go; success means history and schema are rebuilt from the sorted registered names, in batch 1, without the order check |
| MigrationEngine.RefreshedMeans | framework/database/migration_revert.go:164-213 | What that comes to in plain terms: all rows taken back and all registered names run upwards from an empty table if every row has a Down that goes through; else the rows up to the first that could not be taken back |
| MigrationEngine.MigrationManager.Operate | framework/database/migration_revert.go:13-213 | Over any run of Register, Migrate, Rollback, Reset and Refresh, with any answers of the database: ids ascend and names are distinct, the schema is the fold of the history, names ascend without baseline and out-of-order, and the batches stay in order if the batch query failed in no Migrate that found a batch above 1 |
| BeanGraph.Unfold | framework/ioc/container.go:225-350 | A bean not at hand can be built if and only if it has no defect of its own and every bean it needs can be built |
| BeanGraph.SoundMeans | framework/ioc/container.go:225-350 | A bean can be had if and only if it is at hand, or registered as a singleton or prototype with a factory that returns and a construction not used up, and for each plain field a bean of an accepted type can be had |
| BeanGraph.ExplodesMeans | framework/ioc/container.go:278-350 | A bean panics if and only if it would be built and its factory panics, or returns and the first plain field without a fitting bean asks for a nil or for a bean that panics |
| BeanGraph.OnStack | framework/ioc/container.go:269-276 | A bean met again on the resolution stack lies on a cycle, so refusing it is right from anywhere |
| BeanGraph.CacheSame | framework/ioc/container.go:278-288 | Keeping the instance of a bean that can be built changes nothing about what can be built |
| BeanGraph.BlameSame | framework/ioc/container.go:278-288 | Using up the construction of a bean that cannot be built, by an error or a panic, changes nothing about what can be built |
| BeanGraph.CoherentExactly | framework/ioc/container.go:225-288 | Resolution agrees for every bean with what is registered, buildable and acyclic if and only if every remembered failure is still deserved |
| BeanGraph.SoundExactly | framework/ioc/container.go:225-288 | For one bean: it can be had if and only if it could be had from scratch and no walk from it ends in a construction that an error or a panic has used up |
| BeanGraph.ExplodesBuilt | framework/ioc/container.go:498-560 | Building a bean whose factory returns panics if and only if the first of its fields that cannot be supplied asks for a nil or for a bean that panics in turn |
| BeanGraph.OnStackIsError | framework/ioc/container.go:269-276 | A bean met again on the way to itself is an error, never a panic or a nil |
| Container.ApplicationContainer.GivenBeanIsLost | framework/ioc/container.go:647-658 | RegisterBean on a fresh name, then GetBean, then Clear, then GetBean: the instance, and then none |
| Container.ApplicationContainer.GetBeanScoped | framework/ioc/container.go:225-267 | Terminates; finds the bean exactly when everything reachable is registered, buildable, acyclic and not used up; gives nil without an error exactly when a panic has used up the bean itself; panics exactly when a panicking factory or a nil is what the first unsupplied fields lead to; changes nothing about what can be resolved; a singleton comes back as the instance kept, a prototype as a new one; whatever it uses up, it uses up in the way the call ended |
| Container.ApplicationContainer.CheckCircularDependency | framework/ioc/container.go:269-276 | Fails exactly for a name on the stack |
| Container.ApplicationContainer.ResolveSingletonBean | framework/ioc/container.go:278-288 | The construction is never entered twice; an instance or an error is remembered, and a panic leaves the construction done with neither |
| Container.ApplicationContainer.Instantiate | framework/ioc/container.go:311-350 | Succeeds exactly when the bean can be built, with every tagged field injected, and panics exactly when its factory or the injection does; the factory of a singleton runs at most once between Clears |
| Container.ApplicationContainer.Autowire | framework/ioc/container.go:498-526 | Succeeds exactly when every plain field's bean can be built and fits, and then each field holds the bean kept under its tag, or a new and itself fully wired instance of a prototype, or a provider; panics exactly when the first field that cannot be supplied does |
| Container.PrototypesApart | framework/ioc/container.go:498-560 | The prototype instances in the fields of one bean have new ids, and no two fields share one |
| Container.FieldsHold | framework/ioc/container.go:498-560 | Each tagged field holds nothing if it cannot be set, a provider for its tag, the bean kept under its tag, or an instance built by the prototype's factory with its own fields wired |
| Container.ApplicationContainer.InjectDependencyField | framework/ioc/container.go:529-560 | A provider field resolves nothing; a plain field panics if its bean is nil or panics, fails if it cannot be built otherwise or does not fit, and else holds the bean kept, or a new instance of a prototype wired in the same way |
| Container.ApplicationContainer.GetBean | framework/ioc/container.go:216-222 | Whatever was resolved or failed before, a bean can be had exactly when everything reachable is registered, buildable and acyclic and no used-up construction is reachable; the second half goes without saying while remembered failures are deserved, and this call keeps them so; an error comes back as nil |
| Container.ApplicationContainer.GetTwice | framework/ioc/container.go:278-288 | Two calls in a row for a singleton end alike, with the same instance, except that a call after a panic succeeds with nil |
| Container.ApplicationContainer.RegisterBeanDefinition | framework/ioc/container.go:128-144 | A new definition forgets what was remembered for its name, and keeps an instance already at hand |
| Container.ApplicationContainer.RegisterBean | framework/ioc/container.go:196-213 | An instance, with a definition without factory if there is none |
| Container.ApplicationContainer.ReplaceBean | framework/ioc/container.go:618-636 | The instance is replaced in the beans and in the definition, the construction state is not; of the remembered failures only one by a panic goes |
| Container.ApplicationContainer.Clear | framework/ioc/container.go:647-658 | No instances and no remembered failures, so every bean can be had exactly when it should |
| Container.StaleError | framework/ioc/container.go:278-288 | A bean whose dependency was missing keeps failing after the dependency is registered, until a Clear |
| Container.SpentConstruction | framework/ioc/container.go:278-288 | A bean whose dependency panicked comes back as nil without an error, what needs it panics, and registering a working dependency does not help until a Clear |
| RetryManager.AttemptOk | framework/event/retry_manager.go:69-84 | A claimed redispatch of an eligible row keeps counts, numbers, waits and the bound on retries |
| RetryManager.DueExactly | framework/event/retry_manager.go:43-55 | A row is due if and only if it is pending or failed, below MaxRetries, and either without retries or past its time |
| RetryManager.WaitExactly | framework/event/event_bus.go:730-745 | The wait after a number of attempts is the interval configured for it, the last one once there are no more, and 30 seconds if there is none or it cannot be read |
| RetryManager.OutcomeCases | framework/event/retry_manager.go:75-132 | How an attempt ends, for every answer |
| RetryManager.AttemptUsesUp | framework/event/retry_manager.go:69-132 | An attempt, however it ends, uses up at least one of the retries that remain in the table |
| RetryManager.RetryManager.Serve | framework/event/retry_manager.go:20-132 | Over any run, with any answers and crashes: the attempts made are at most the retries that remained before it, summed over the rows, plus MaxRetries for every failure that came in; and all attempts ever made are at most MaxRetries per row ever inserted |
| RetryManager.AttemptsBounded | framework/event/retry_manager.go:20-132 | If no row is attempted more than MaxRetries times, all attempts together are at most MaxRetries per row ever inserted |
| RetryManager.RetryManager.HandleFailure | framework/event/event_bus.go:693-745 | A failed listener's event enters the queue with no retries and is due at once |
| RetryManager.RetryManager.RecoverStaleLeases | framework/event/retry_manager.go:35-41 | Exactly the rows claimed more than five minutes ago become failed again, with their retries kept |
| RetryManager.RetryManager.SelectEligible | framework/event/retry_manager.go:43-55 | Up to ten rows that are pending or failed, below MaxRetries and due, and all of them if there are fewer |
| RetryManager.RetryManager.Claim | framework/event/retry_manager.go:75-84 | The conditional update claims a pending or failed row and counts one retry |
| RetryManager.RetryManager.UpdateRetryState | framework/event/retry_manager.go:69-132 | For every answer, exactly what becomes of the row: unchanged if the claim is refused, else one attempt with the next number, after which it is gone, failed with that count, or still claimed because the process died or the result was not saved |
| RetryManager.RetryManager.ProcessDLQ | framework/event/retry_manager.go:20-67 | However a run ends, it attempts a row at most once and only if it was due or its lease stale; over any number of runs and crashes, attempts of a row are numbered 1, 2, 3, ..., spaced by the configured intervals, equal its retries, and never exceed MaxRetries; the attempts made plus the retries that remain never grow; a run that is not interrupted attempts every due row whose claim goes through, unless ten others were selected |
| SqlLoader.ParseSQL | framework/database/sql_loader.go:58-96 | The one-pass parser yields what stripping the comments and then cutting at unquoted semicolons yields |
| SqlLoader.SqlParser.Step | framework/database/sql_loader.go:82-96 | One round of the loop keeps the result seen from the current position |
| SqlLoader.SqlParser.ProcessSingleLineComment | framework/database/sql_loader.go:98-106 | A line comment swallows everything up to and including its newline |
| SqlLoader.SqlParser.ProcessMultiLineComment | framework/database/sql_loader.go:108-117 | A block comment swallows everything up to and including its closer |
| SqlLoader.SqlParser.TryStartComment | framework/database/sql_loader.go:119-138 | A comment starts outside quotes only |
| SqlLoader.SqlParser.HandleSemicolon | framework/database/sql_loader.go:152-166 | A semicolon outside quotes ends a statement, which is kept if it is not blank |
| SqlLoader.SqlParser.UpdateQuoteState | framework/database/sql_loader.go:140-150 | Outside quotes each of the three quote characters opens one, and only the same character closes it |
| SqlLoader.TrimmedSpace | framework/database/sql_loader.go:160-166 | Exactly the space around a statement is taken off |
| SqlLoader.SpaceExactly | framework/database/sql_loader.go:160-166 | Which characters count as space when a statement is trimmed, by their code points |
| SqlLoader.ParsePrint | framework/database/sql_loader.go:58-174 | Printing then parsing: any list of well-formed statements joined with ';' comes back the same, with comments before each statement and after the last separator making no difference |
| SqlLoader.CommentStripped | framework/database/sql_loader.go:98-138 | A comment in code, whatever follows, might as well not be there |
| SqlLoader.CutWhole | framework/database/sql_loader.go:152-166 | Every statement that comes out is trimmed, not empty, and holds no semicolon outside quotes |
| SqlLoader.ReparsesExactly | framework/database/sql_loader.go:58-174 | Parsing a statement that came out gives it back if and only if it reads as free of comments |
| SqlLoader.CommentLeftBehind | framework/database/sql_loader.go:119-138 | Taking a comment out can leave the opener of another: -/**/- gives --, which parses to nothing |
| PathMatcher.MatchParts | framework/web/interceptor.go:126-150 | True exactly when the segments split into one piece per part, `**` taking any run and every other part one segment it accepts |
| PathMatcher.MatchDoubleStar | framework/web/interceptor.go:152-162 | Trying every end of the first piece finds a split if there is one |
| PathMatcher.MatchSingleSegment | framework/web/interceptor.go:164-175 | A wildcard, a variable in braces or with a colon, or the same text |
| PathMatcher.MatchesDoubleStar | framework/web/interceptor.go:152-162 | A split with `**` first exists if and only if the rest splits behind some run |
| PathMatcher.SplitJoins | framework/web/interceptor.go:120-121 | Splitting is undone by joining and leaves no slash in any part |
| PathMatcher.TrimmedSlashes | framework/web/interceptor.go:109-124 | Exactly the slashes around a text are taken off |
| PathMatcher.MatchPath | framework/web/interceptor.go:109-124 | What the pattern means, except for an empty path and several `**` |
| PathMatcher.LoneDoubleStar | framework/web/interceptor.go:109-124 | A lone ** matches every path |
| PathMatcher.TwoDoubleStars | framework/web/interceptor.go:109-124 | The exception is real: **/** means a match of / that the source denies |
| PathMatcher.InterceptorRegistration.Match | framework/web/interceptor.go:44-65 | No exclude pattern matches, and some include pattern does if there are any |

## Left out

- MigrationEngine.MigrationManager.Register: is for versioned names that are not registered yet; duplicate names and names without a version are outside the domain of the order.
- Container.ApplicationContainer.Instantiate: does not model factory parameters, which are matched by type through reflection; beans are injected by name. A factory returns a value that is not nil, returns an error or panics, the same each time, and does not call the container.
- MigrationLock.LockTable.AcquireLock: is an attempt that nobody gets in between; interleaved attempts are in MigrationLockProtocol, and the polling loop and deadline of `waitForLock` are not modelled.
- ShedLock.AcquireTxHelper.Execute: is a transaction that nobody gets in between; interleaved ones are in ShedLockProtocol.
- ShedLock.AcquireShedLock: likewise with the commit.
- ShedLock.ExecuteWithLock: likewise for a whole run, in which nobody takes the row over.
- Transaction: read-only dialect statements are one answer of the database; `IsTxReadOnly` and `RunInTx` only read or wrap.
- Transaction: listeners run by the post-commit hook are delivered events here; what they do is not followed.
- EventPool: goroutines, channel and mutexes are steps of a state machine, not classes, because the property is about their interleavings; one pool, stopped once; listeners end and neither publish nor stop the pool.
- EventPool: the path used when no pool was ever started, and redispatch of an outbox id that is in flight, are outside the domain.
- MigrationLockProtocol and ShedLockProtocol: processes are state machines on one shared clock; lock ids are unique; clocks that differ between hosts are not modelled.
- ShedLock: the endless loops of fixed-rate and fixed-delay jobs, cron, manual triggers and overlapping runs of one job on one host.
- MigrationEngine, RetryManager and Transaction: a statement or commit that is reported as an error has had no effect; only the scheduling lock knows a commit that took effect and is still reported as an error.
- MigrationEngine: checksums are opaque, and a mismatch is one of the failures that can happen; autodiscovery of SQL files; GetStatus.
- Container: request scope inside an HTTP request, the type-match cache, InitializeAllBeans, resolution on several goroutines; a context never carries a request registry here.
- RetryManager: concurrent runners, manual retries and purges; listeners are a result that is either success or failure; a claim takes no time; MaxRetries and the intervals do not change.
- SqlLoader: reading the file and executing the statements in one transaction; text is a list of Unicode characters, so invalid UTF-8 is not modelled.
- PathMatcher: the order of interceptor callbacks.
- GORM, SQL dialects, YAML, JSON, HTTP routing, security, actuators, logging, generators and the CLI are not part of these models.
