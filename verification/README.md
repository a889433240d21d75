# phasedb in Dafny

phasedb runs a schema migration as a list of phases (expand, backfill, gate, contract). Any number of `phasedb run`
and `phasedb resume` processes may work on one migration at a time. They share four MySQL tables: an append-only
history with a unique key, append-only checkpoints, heartbeats, and one lock row per migration with a TTL of 90 s.
This project models that system and proves what it keeps.

| module | what it models |
|---|---|
| `Store`, `Transitions` | the four tables and every statement on them; state derivation and the state gate |
| `Protocol` | every process inside `Run` as a state machine over single store statements; a run is a sequence of labels: a statement of some process (which may be lost, before or after it commits), its heartbeat, an executor's write, a crash, the clock, gc, another client's write |
| `HistorySafety` | the invariant of all runs, with no assumption on time or on the lock |
| `MutualExclusion`, `LockTightness` | what the lock excludes under timing assumptions, and that the bound is exact |
| `Lease` | the life of the lock row: who changes it and how, how long it lasts, who can leave one behind |
| `Outcomes` | what a run leaves in the history, against what its executors and `Run` return; that an undisturbed run ends |
| `Gc`, `Recovery` | what gc removes; that no history wedges |
| `NonOverlap`, `EndToEnd` | runs that do not overlap: no completed phase is started again, and contract finds no NULL row |
| `Rerun`, `Overlap`, `OnePhaseRuns` | exactly when a phase is started again after it has completed, and runs that show both ways |
| `RunnerProcess` | `Run`, `runPhase` and `RunHeartbeat` as imperative code over a shared `Database` object that other processes change between any two statements; each statement is proved to be the protocol's next step, so the theorems about label sequences hold of this code |
| `Table`, `Backfill`, `Status`, `Estimate` | the batch, cursor and done_when queries; the batch loop; the progress shown of it; the duration predicted for it |
| `SqlText`, `Contract` | splitting SQL into statements; statement by statement with checkpoints |
| `Gate` | the polling loop against its deadline |
| `Rollback` | building executors and undoing phases in reverse |
| `Arithmetic` | minimum, maximum, a product lemma, and the capped doubling that gate and backfill both use |

What the code does differently from what its documentation, or a reader, expects:

* A TTL of three heartbeat intervals does not by itself make room for two missed refreshes. The ticker starts only
  after STARTED is in, so the time from reading the clock for the lock to that moment counts too. The lock excludes
  exactly when start-up delay + 30 s * (misses + 1) <= 90 s (`LockTightness.ExclusiveIffFits`).
* A phase can be started again after it has completed, in two ways and no others (`Rerun.RerunIff`). The state check
  comes before the lock, so another run may complete the phase in between (`Overlap.CompletedCanBeRerun`). And the
  check looks at the latest event only, which need not be the COMPLETED: a holder that has lost its lock may add its
  FAILED after the thief's COMPLETED, and then a resume that overlaps with nobody executes the phase again
  (`Overlap.HiddenCompletedIsRerun`). While the lock excludes, only the first way is left for the first such start,
  and the COMPLETED falls between its read of the latest event and its AcquireLock (`Rerun.FirstRerunIff`). If no runs
  overlap at all it never happens, whatever the migration file (`NonOverlap.CompletedIsNotRerun`).
* `runPhase` always takes a new attempt number, and checkpoints are looked up by attempt, so a resumed run never
  finds an earlier attempt's checkpoint and starts its executor from zero (`HistorySafety.NewAttemptHasNoCheckpoint`).
  For a backfill that is still correct, while other clients write to the table too (`Backfill.RunUntilNil`). For
  contract it means that resuming runs every
  statement again from the first, although `docs/phases.md` promises to go on from the statement index; order is still
  kept, and nil still means that all have run (`Contract.RunUntilNil`).
* `isTransientMySQLError` looks for a method `Number()` of the error. The MySQL driver's error has a field of that
  name instead (`internal/store/mysql_store.go:367` reads it), so with the real adapter no error counts as transient
  and a gate ends at its first failed query (`Gate.UnnumberedErrorsAreFatal`).
* A NULL row inserted between a batch and its cursor query is passed over exactly when that batch wrote rows and
  reached the end of the table (`Table.InsertIsSkippedIffAtEnd`). Unless another client writes
  it, no number of further iterations does, and a done_when that counts NULL rows never reads 0
  (`Table.LeftBehindForEver`).
* The cursor counts rows of any kind and the batch NULL rows only, so what a batch writes can lie past the cursor that
  follows it, and past the `last_pk` that a backfill ends with (`Backfill.StopsShortOfWritten`). Undisturbed, that
  final cursor has passed a row exactly when at most ceil(N / size) * size ids lead up to it (`Backfill.FinalCursor`).
* gc keeps the heartbeats of a phase for ever once one of its attempts has been abandoned between STARTED and its
  terminal event, although `docs/database-schema.md` speaks of the latest event (`Gc.AbandonedAttemptStaysOpen`; a run
  in which the latest event is a COMPLETED is `Gc.CompletedPhaseKeepsHeartbeats`).
* Every execution of a backfill counts anew, over the rows still NULL, so the progress shown can go back when it is
  resumed (`Status.ProgressCanGoBack`). It does not, at the resumed execution's first checkpoint, exactly when
  processed * left <= nullAtStart * min(checkpoint_every * size, left) (`Status.ResumeShows`).
* `BuildExecutors` drops phases of unknown names, after which executors and phases need not line up
  (`Rollback.AlignedIffKnownFirst`, `Rollback.UnknownPhaseShiftsTarget`). A phase's name then finds its executor exactly
  when every phase before it has a known name (`Rollback.NameFindsIffKnownBefore`); a phase type always finds the last
  executor of that type (`Rollback.TypeFindsLast`).
* The rollback of a backfill does nothing, although `docs/architecture.md` says that it runs `rollback_sql`.
* The rollback command starts from the last phase of the file, not from the current one as `docs/runner-internals.md`
  has it, so it also runs the rollbacks of phases that never ran (`Rollback.UndoesWhatNeverRan`: only expand has run,
  the target is expand, nil is returned, and the schema is not that of expand). If each
  phase that ran is inverted by its rollback, a nil leaves the right schema when those of the others, taken together,
  change nothing; and only then, if no phase above the target has run or the rollbacks of those that have tell schemas
  apart (`Rollback.RollbackIsRightIff`).

Verify with `dafny verify dfyconfig.toml`.

## Model

| member | source | states |
|---|---|---|
| Store.LatestEventIsLast | internal/store/mysql_store.go:116-131 | the event read is of that phase and no event of the phase has a larger ID; none is read only when there is none |
| Store.LatestEventForAttemptIsLast | internal/store/mysql_store.go:134-149 | the guard query reads the last row of its attempt |
| Store.MaxAttemptIsBound | internal/store/mysql_store.go:153-168 | MAX(attempt) bounds every attempt of the phase and is one of them, or is 0 |
| Store.LatestCheckpointIsRow | internal/store/mysql_store.go:185-206 | the checkpoint found is of that very attempt and none of the attempt has a larger ID; none is found only if the attempt has none |
| Transitions.LivenessAgreesWithSteal | internal/runner/transitions.go:42-50 | a STARTED phase counts as orphaned at exactly the instants at which AcquireLock would get the lock, by insert or by steal |
| Transitions.GateRefuses | internal/runner/transitions.go:54-72 | who is turned away and with which error: AlreadyRunning, naming the holder, exactly for a started phase with a live lock, whatever the mode; RequiresResume exactly without resume mode for a started phase without one, a failed or a timed out one |
| Transitions.StateTellsTerminal | internal/runner/transitions.go:29-52 | each terminal event has a state of its own, and STARTED is running or orphaned |
| HistorySafety.SafeInEveryRun | internal/runner/runner.go:41-169 | in every interleaving with any faults and crashes: each attempt's events are a prefix of STARTED COMPLETED or STARTED (FAILED or TIMED_OUT) ROLLED_BACK by one writer; attempts are exactly 1..max and start in order; with distinct phase names, every event of a phase follows a COMPLETED of each earlier one; every checkpoint's attempt has started; and each program counter agrees with its rows |
| HistorySafety.ApplyKeepsSafe | internal/runner/runner.go:41-169 | every single step of anybody keeps that invariant |
| HistorySafety.StepAddsOneRow | internal/runner/runner.go:85-161 | a step leaves the history alone or adds the one row its attempt may have next, by a live process at an insert |
| HistorySafety.InsertIsNextRow | internal/runner/runner.go:96-99 | only the insert of STARTED can meet the unique key; every other insert is of the next row |
| HistorySafety.DuplicateIffRow | internal/store/schema.go:18 | the unique key rejects exactly when the attempt already has an event of that type |
| HistorySafety.GuardSeesStarted | internal/runner/runner.go:109-120 | the terminal guard reads the process's own STARTED and lets it through |
| HistorySafety.NoRejectionAfterStarted | internal/runner/runner.go:109-161 | in every run, after STARTED the guard never fires and neither the terminal nor the ROLLED_BACK insert is a duplicate |
| HistorySafety.NewAttemptHasNoCheckpoint | internal/runner/runner.go:67-98 | an attempt about to start has no checkpoint, whatever earlier attempts left |
| HistorySafety.SuccessMeansAllCompleted | internal/runner/runner.go:32-38 | Run returns nil only when every phase has a COMPLETED event |
| HistorySafety.ContractComesLast | internal/runner/runner.go:32-37 | with distinct phase names, every contract event has an earlier COMPLETED of each phase configured before contract |
| HistorySafety.TablesOnlyGrow | internal/store/mysql_store.go:100-113 | history and checkpoints are append-only over whole runs |
| Outcomes.TerminalRowTells | internal/runner/runner.go:122-148 | in every run the terminal insert, unless lost, adds one row of the process's own attempt: COMPLETED if and only if Execute returned nil, TIMED_OUT if and only if the gate timed out, FAILED if and only if it returned another error |
| Outcomes.ErrorTellsInEveryRun | internal/runner/runner.go:133-168 | a run that has returned its phase's error has its own STARTED in the history and after it the terminal event that tells that error, for ever |
| Outcomes.RunsToTheEnd | internal/runner/runner.go:32-168 | every migration of known, distinct phases that begins with expand or backfill has a run, in either mode, that returns nil and leaves exactly STARTED and COMPLETED of attempt 1 for each phase in order, no NULL row and no lock row |
| MutualExclusion.GuardedInTimelyRuns | internal/runner/heartbeat.go:12-34 | if start-up and the ticks up to the first refresh that succeeds fit the TTL: at most one process is between AcquireLock and its return, the lock row is its own, and no steal of it can succeed |
| MutualExclusion.ApplyKeepsGuarded | internal/store/mysql_store.go:248-317 | every step keeps each holder's row its own and alive past its next refresh |
| MutualExclusion.ReleaseDeletesOwnRow | internal/store/mysql_store.go:308-317 | in such runs every release, which deletes by migration only, deletes the releaser's own row |
| Lease.StepChangesRow | internal/store/mysql_store.go:248-317 | the lock row changes in four ways only: inserted when there is none, taken over when its expiry lies before the server's clock, both with 90 000 ms from the clock read before; pushed 90 000 ms ahead by a refresh of its own holder inside a phase; deleted by a release |
| Lease.RefreshGrants | internal/runner/heartbeat.go:21-33 | a refresh of one's own row sets its expiry to 90 000 ms from then and keeps holder and acquired_at; one that finds no row of its own changes nothing and ends the ticker |
| Lease.ShortLivedInEveryRun | internal/store/mysql_store.go:248-305 | in every run the row's expiry is at most 90 000 ms ahead of the present |
| Lease.ExpiresWhenSilent | internal/runner/heartbeat.go:12-34 | 90 s after a process last acquired or refreshed the lock, or died, whatever the others do, the row is not its own or has expired |
| Lease.ResumeTakesOver | internal/runner/runner.go:42-63 | and then, if nobody else holds the lock, a resume left alone is admitted and gets it |
| Lease.OnlyFailuresLeaveTheLock | internal/runner/runner.go:67-99 | if every DELETE that is sent arrives, the row is of a process between AcquireLock and its return, or of one that crashed there or returned an error of the store, of its terminal insert or of its phase; a run that returned nil, was refused, or failed to start leaves none |
| LockTightness.TwoHolders | internal/runner/runner.go:101-104 | whenever it does not fit, a timely run after which two processes are both between AcquireLock and its return |
| LockTightness.ExclusiveIffFits | docs/runner-internals.md:95-101 | in all timely runs of all migrations at most one process is between AcquireLock and its return, and likewise each such process has the lock row its own and alive, if and only if delay + 30 s * (misses + 1) <= 90 s; with two misses only at delay 0 |
| Gc.GcIsExact | internal/store/mysql_store.go:222-243 | gc at any point of any run keeps each heartbeat of a phase with an attempt between STARTED and its terminal event, deletes every other, and changes nothing else |
| Gc.GcKeepsOrder | internal/store/mysql_store.go:222-243 | each heartbeat is judged on its own and those that stay keep their order |
| Gc.SubqueryMeansOpen | internal/store/mysql_store.go:225-238 | on reachable histories the subquery means "some attempt is open", with or without its "later ID" clause |
| Gc.ClosedHasLaterTerminal | internal/store/mysql_store.go:230-237 | a STARTED of a closed attempt has a terminal row at a later ID |
| Gc.GcSparesRunning | internal/store/mysql_store.go:222-243 | the phase of a process that is executing has an open attempt, so gc spares it |
| Gc.AbandonedAttemptStaysOpen | internal/store/mysql_store.go:225-238 | an attempt whose process died before its terminal event stays open in every continuation, and gc keeps that phase's heartbeats for ever |
| Gc.CompletedPhaseKeepsHeartbeats | docs/database-schema.md:124 | a run in which attempt 1 crashed, attempt 2's COMPLETED is the latest event, nobody is alive, and gc removes nothing |
| NonOverlap.SerialInEveryRun | internal/runner/runner.go:51-60 | over runs that do not overlap, for every migration file and any outside writes: COMPLETED stays the latest event, and the one live process knows whether its phase has completed |
| NonOverlap.CompletedIsNotRerun | internal/runner/runner.go:53-56 | in such runs no completed phase has its lock acquired, its STARTED inserted or its executor run again |
| EndToEnd.OrderlyInEveryRun | internal/phase/gate.go:75-77 | in such runs of a migration in the documented order: from the passing poll of a gate process on, if it neither crashes nor loses its COMPLETED, and for ever once a gate has a COMPLETED, no row is NULL, provided no other client leaves one then |
| EndToEnd.ContractSeesNoNulls | internal/phase/gate.go:75-77 | if no other client leaves a NULL once a gate has passed (its COMPLETED is in, or a live process is past its passing poll and about to write it), contract executes only while the count of NULL rows is 0; a gate attempt that crashed or lost its COMPLETED has not passed |
| EndToEnd.PassedGateSawNoNulls | internal/phase/gate.go:24-90 | the gate's loop over a table that changes: it returns nil if and only if some poll met the table without NULL rows, and that poll was the last |
| Rerun.RerunIff | internal/runner/runner.go:42-99 | in every run, a STARTED goes in after a COMPLETED of its phase if and only if a COMPLETED went in since the process read the latest event, or that read was of a history in which a later row hid one |
| Rerun.SettledInTimelyRuns | internal/runner/runner.go:109-161 | while the lock excludes and no phase has been rerun, the latest event of a completed phase is its COMPLETED and no live process still owes the phase a row |
| Rerun.FirstRerunIff | internal/runner/runner.go:42-99 | while the lock excludes, the first STARTED after a COMPLETED of its phase is one exactly when the COMPLETED went in between its process's read of the latest event and its AcquireLock |
| Overlap.CompletedCanBeRerun | internal/runner/runner.go:42-63 | a run of the first kind |
| Overlap.HiddenCompletedIsRerun | internal/runner/runner.go:42-60 | a run of the second kind: nobody alive, the lock free, the phase completed, and a lone resume executes it again |
| Recovery.NoWedge | internal/runner/runner.go:41-107 | with known phase names, from every reachable state with the lock absent or expired, a new run left alone ends with every phase skipped and success, or at Execute of the first phase whose latest event is not COMPLETED with the next attempt started, or, only without resume mode, refused with nothing changed |
| Recovery.SkipCompleted | internal/runner/runner.go:53-56 | the completed prefix is skipped without touching a table |
| Recovery.AcquireFree | internal/store/mysql_store.go:248-283 | an absent or expired lock is taken, by insert or by steal |
| Recovery.BeginPhase | internal/runner/runner.go:58-107 | an admitted run gets from its first read to Execute of attempt max + 1 |
| RunnerProcess.Database.InsertEvent | internal/store/mysql_store.go:100-113 | the imperative insert is the table operation, lost replies included: accepted adds the row, a duplicate finds one of its key and adds nothing, an error says neither |
| RunnerProcess.Database.InsertLock | internal/store/mysql_store.go:249-264 | accepted when there was no row, which then has 90 000 ms from the clock given; a duplicate leaves the row there is; lost replies included |
| RunnerProcess.Database.StealLock | internal/store/mysql_store.go:265-282 | accepted when there was a row that had expired on the server's clock, which is then the caller's with 90 000 ms from the clock given; zero rows otherwise, with nothing changed; lost replies included |
| RunnerProcess.Database.ReleaseLock | internal/store/mysql_store.go:308-317 | deletes the migration's row whoever holds it, unless the statement is lost |
| RunnerProcess.Database.InsertHeartbeat | internal/store/mysql_store.go:209-219 | one row more unless lost; no other table changes; it is the protocol's Beat step |
| RunnerProcess.Database.RefreshLock | internal/store/mysql_store.go:286-305 | accepted on a row of the caller's, whose expiry is then 90 000 ms from now, and nothing else of it changed; zero rows, and the end of the ticker, on any other; the protocol's Refresh step |
| RunnerProcess.Runner.Run | internal/runner/runner.go:25-39 | under any interference: the process ends as the protocol says, and nil means every phase completed |
| RunnerProcess.Runner.RunPhase | internal/runner/runner.go:41-169 | every statement is the protocol's next step; nil, or the error the protocol gives |
| RunnerProcess.Runner.PassGate | internal/runner/runner.go:42-60 | the two reads and the state check, in that order, before any lock |
| RunnerProcess.Runner.AcquireLock | internal/store/mysql_store.go:248-283 | insert, then steal on a duplicate, with the clock read before both; when it succeeds the row is the caller's with 90 000 ms from that reading |
| RunnerProcess.Runner.Begin | internal/runner/runner.go:67-99 | next attempt, known phase, STARTED; every failure gives the lock back: there is no row afterwards unless the DELETE was lost |
| RunnerProcess.Runner.Execute | internal/runner/runner.go:106-107 | any writes and checkpoints, then a result; a gate returns nil only if a poll of its own, within this call, met no NULL row |
| RunnerProcess.Runner.LatestEventForAttempt | internal/runner/runner.go:109-120 | the guard; a failed check goes on to the insert |
| RunnerProcess.Runner.InsertTerminalEvent | internal/runner/runner.go:122-151 | accepted, the newest row is of this attempt and process: COMPLETED for nil, TIMED_OUT for the gate's timeout, FAILED for any other error, each if and only if; then release, rollback or return |
| RunnerProcess.Runner.RollBack | internal/runner/runner.go:150-161 | any number of writes of the executor's Rollback, then ROLLED_BACK of this attempt, which is the newest row unless its insert was lost; their errors do not change the result |
| RunnerProcess.Runner.Conclude | internal/runner/runner.go:109-168 | from the guard to the return, with the verdict that belongs to the result |
| RunnerProcess.Runner.Record | internal/runner/runner.go:122-168 | the terminal event and what follows it: with nil the lock row is gone unless its DELETE was lost; with on_failure rollback the newest row is ROLLED_BACK unless its insert was lost |
| RunnerProcess.Runner.RunHeartbeat | internal/runner/heartbeat.go:14-35 | every tick sends one heartbeat and one refresh until the phase ends; it stops earlier only for a lost lock, and then the row is not its own |
| Table.CursorNeverSkips | benchmarks/run_benchmark.sh:185-193 | if every row up to the cursor is filled, it still is up to the new cursor after a batch and the cursor query, even if other clients fill rows in between |
| Table.CursorAdvances | internal/phase/backfill.go:160-170 | with rows left past it the cursor moves strictly, to an existing id, over exactly min(size, number of ids past it) ids of rows of any kind; otherwise it stays |
| Table.InsertBeforeCursorIsSkipped | internal/phase/backfill.go:119-170 | a NULL row inserted between the two statements that no later batch of the run reaches |
| Table.InsertIsSkippedIffAtEnd | internal/phase/backfill.go:119-170 | such a row is passed over if and only if the batch wrote rows and fewer than `size` rows of any kind were left past the cursor |
| Table.LeftBehindForEver | internal/phase/backfill.go:119-170 | a NULL row at or before the cursor stays NULL through any number of iterations without outside writes, so the count of NULL rows never reaches 0 |
| Table.FirstNSize | tests/integration/backfill_test.go:114-124 | ORDER BY id LIMIT n takes min(n, all) rows |
| Table.BatchFillsExactly | benchmarks/run_benchmark.sh:185-190 | from a cursor that skipped nothing a batch fills min(size, NULL rows) of the NULL rows, and no others |
| Table.FilledIsUpdateAll | internal/phase/backfill.go:129-155 | once no NULL row is left, what batches made is what one UPDATE makes, and the rows written are those that were NULL |
| Table.UpdateAllIs | tests/integration/backfill_test.go:114-124 | the one UPDATE gives every NULL row the value computed from it and changes nothing else |
| Arithmetic.BackoffDoubles | internal/phase/backfill.go:94-97 | delay * 2^k, at most a minute: the first sleep is twice the delay, each further one twice the one before, up to 60 000 ms |
| Backfill.LagsDoubleTheSleep | internal/phase/backfill.go:91-104 | a lag above the threshold sends the loop round again, asleep for twice the delay at first and twice as long at each further lag in a row, up to 60 000 ms |
| Backfill.ForgetsIffThreeGood | internal/phase/backfill.go:106-110 | after a lag the backoff is forgotten exactly when three good readings have come in a row |
| Backfill.BackfillExecutor.Begin | internal/phase/backfill.go:44-72 | the loop starts from the last_pk of its attempt's latest readable checkpoint, or from 0; it does not start exactly when the initial count, or with a cursor the checkpoint query, fails |
| Backfill.Target.ExecBatch | internal/phase/backfill.go:119-123 | the rows a batch writes, and that each write is of a row never written before |
| Backfill.BackfillExecutor.CheckDone | internal/phase/backfill.go:127-158 | nil exactly when done_when reads as expected; one last checkpoint |
| Backfill.BackfillExecutor.MoveCursor | internal/phase/backfill.go:160-196 | with pk_cursor_query and an answer, the cursor moves over exactly min(size, number of ids past it) ids, to an existing id past the old one if there is any; otherwise it stays; it has skipped nothing; a checkpoint every `checkpoint_every` batches |
| Backfill.BackfillExecutor.RunBatch | internal/phase/backfill.go:119-199 | a batch fills exactly min(size, left) rows, all past the cursor, and the totals count them; exactly which faults are an error, and when it is done; without outside writes rows and cursor move as the table's iteration does |
| Backfill.BackfillExecutor.Iterate | internal/phase/backfill.go:79-208 | one iteration under outside writes: exactly when it returns and what, that a lag above the threshold sends no batch, the throttle's counters, how long it sleeps, the rows, the cursor and the checkpoint it writes |
| Backfill.BackfillExecutor.RunLoop | internal/phase/backfill.go:74-208 | the loop's accounts: rows, writes, cursor, checkpoints and pace, whatever happens; it ends with an error only after a failed statement, and interrupted only if the context was cancelled |
| Backfill.BackfillExecutor.Execute | internal/phase/backfill.go:35-209 | nil only when done_when reads as expected; no row at or before the position it resumes from is written; its checkpoints have strictly increasing batch numbers, multiples of checkpoint_every but for the last, and with a cursor strictly increasing last_pk while batches write; without outside writes every row written once, and each checkpoint shows exactly min(batch * size, N) rows and a last_pk exactly min(batch * size, all) ids past the start; undisturbed it ends after ceil(N / size) + 1 batches and ceil(N / size) delays; with no insert lost there is one checkpoint per period and one before nil, and the latest lags by less than one period |
| Backfill.RunUntilNil | internal/phase/backfill.go:57-72 | any number of executions, interrupted anywhere and resumed from a checkpoint or from zero, while other clients write: when the last returns nil with done_when at 0, every original row no other client touched is as one UPDATE makes it, written exactly once if it was NULL and never otherwise; with no other writes that is the whole table |
| Backfill.FinalCursor | internal/phase/backfill.go:160-170 | an undisturbed fresh attempt ends with nil and a cursor that has passed a row if and only if at most ceil(N / size) * size ids lead up to it |
| Backfill.StopsShortOfWritten | internal/phase/backfill.go:119-170 | an execution that ends with nil and a last_pk below a row it has written |
| Status.BuildStatus | internal/output/status.go:39-126 | the current phase is the last in canonical order with events; the warnings are those DetermineState gives; progress and remaining only from this attempt's checkpoint: progress times the rows at start is min(processed, rows at start), and remaining is the rest; without events nothing is shown |
| Status.ProgressAndRemaining | internal/output/status.go:90-107 | the share done and the rows remaining always add up to the rows at start; progress is 1 exactly when at least as many rows were processed as there were |
| Status.FractionsGoOnIff | internal/output/status.go:89-94 | progress shown of an execution on `left` rows, from its first checkpoint on, is at least what an earlier checkpoint showed if and only if processed * left <= nullAtStart * min(checkpoint_every * size, left) |
| Status.ShowAfter | internal/phase/backfill.go:35-209 | one execution of a new attempt: progress over the checkpoints it writes stays in [0, 1] and never goes back, and remaining never goes up; what status shows afterwards, how far that is from the truth, and what its first checkpoint shows |
| Status.ResumeShows | internal/phase/backfill.go:74-75 | a backfill cut off anywhere and resumed under a new attempt: progress at its first checkpoint goes back unless, and only unless, that inequality holds |
| Status.ProgressCanGoBack | internal/phase/backfill.go:74-75 | a run of two attempts after which status shows less than before |
| Status.StatusOfBackfill | internal/output/status.go:81-109 | the remaining count shown is never below the true one and above it by at most (checkpoint_every - 1) * size; it is 0 and progress 1 after nil |
| Estimate.EstimateBrackets | internal/lint/estimates.go:52-63 | the delays of ceil(n / size) batches are at least the estimate and less than one delay more |
| Estimate.BackfillMsIs | internal/lint/estimates.go:52-63 | the estimate times the batch size is rows times delay, a delay of 0 counting as 1 ms |
| Estimate.EstimatedExactly | internal/lint/estimates.go:34-43 | exactly the phases with a batch on a countable table are estimated, in order |
| Estimate.Estimate | internal/lint/estimates.go:33-90 | one estimate per phase with a batch on a known table, in order; adequate exactly when no gate's timeout is too short |
| Estimate.GatesAdequate | internal/lint/estimates.go:72-84 | inadequate exactly when some gate's timeout is set and below 1.5 times the estimate |
| Estimate.EstimateThenRun | internal/lint/estimates.go:52-63 | an undisturbed backfill of an all-NULL table sleeps at least the estimate made for it and less than one delay more |
| SqlText.JoinSplit | internal/phase/contract.go:86-88 | rejoining the pieces gives the text back |
| SqlText.SplitJoin | internal/phase/contract.go:86-88 | splitting what was joined gives the pieces back |
| SqlText.PiecesHaveNoSemicolon | internal/phase/contract.go:86-88 | no piece contains a semicolon |
| SqlText.StatementsConcat | internal/phase/contract.go:34-38 | the statements of a;b are those of a, then those of b |
| SqlText.StrayBlanksShiftNothing | internal/phase/contract.go:34-38 | blanks and semicolons between statements never shift a statement index |
| SqlText.TrimTakesBlanks | internal/phase/contract.go:35 | trimming takes blanks off both ends, all of them, and nothing else |
| SqlText.BlankIffAllSpace | internal/phase/contract.go:36-38 | a piece is left out exactly when all its characters have the property White_Space of the Unicode Character Database |
| SqlText.StatementsAreTrimmed | internal/phase/contract.go:34-38 | a statement is a trimmed, non-empty piece |
| Contract.ContractExecutor.Execute | internal/phase/contract.go:23-67 | it runs exactly the statements from where this attempt's own checkpoints end, in order, and sends their texts; it returns nil if and only if no turn up to the last statement refuses one or kills the process, and otherwise the error of exactly the first refused statement, or dies at the first kill; with reliable checkpoints it leaves at most one statement without one |
| Contract.ContractExecutor.RunStatement | internal/phase/contract.go:44-64 | an error exactly when the statement fails, death exactly when the process is killed after it, and otherwise on to the next with its checkpoint written exactly if that insert commits; other attempts' checkpoints untouched |
| Contract.RunUntilNil | internal/phase/contract.go:23-67 | any number of executions, each cut off anywhere, under any attempts: no statement before its predecessors, all run if the last returns nil; with reliable checkpoints n statements over A attempts take at most (n - 1) * A + executions statement runs; and a new attempt that returns nil has run all n again |
| Contract.HighIsRan | internal/phase/contract.go:26-31 | skipping up to a checkpointed statement skips only statements that have run |
| Gate.GateExecutor.Execute | internal/phase/gate.go:24-90 | ends by the deadline plus one longest sleep in every environment; the trace of queries is what the environment gives; the outcome is the one the last reply decides. In numbers: a timeout only after 60 000 ms for each minute of the file, 7 200 000 for 0, and no query later; after another value the pause of the file, 5 000 ms for 0; after each MySQL error 1040, 1205, 2003 or 2006 in a row twice the pause before, up to 60 000; any other error is fatal, and the fifth of these in a row the end |
| Gate.GateExecutor.Judge | internal/phase/gate.go:46-92 | which replies stop the gate, and which sleep follows the others |
| Gate.PassesOnExpectedReadOnly | internal/phase/gate.go:75-77 | nil if and only if some read was the expected value, and that read was the last |
| Gate.GateSendsFewQueries | internal/phase/gate.go:39-94 | at most floor(timeout / min(poll, 60 s)) + 1 queries |
| Gate.NeverSleepsAfterFive | internal/phase/gate.go:49-63 | five transient errors in a row are the end: no sleep, no query after them |
| Gate.UnnumberedErrorsAreFatal | internal/phase/gate.go:99-115 | if no error has a method Number(), the first failed query is the last and its error fatal |
| Gate.DrainedInTimeIsNotTimedOut | internal/phase/gate.go:40-42 | a gate whose count is as expected from one longest sleep before the deadline on does not time out |
| Rollback.BuildExecutors | internal/phase/executor.go:33-49 | the executors, in order, of the phases with a known name |
| Rollback.AlignedIffKnownFirst | internal/phase/executor.go:33-49 | executor i is that of phase i everywhere if and only if no known name comes after an unknown one |
| Rollback.TypeIsNameInCapitals | internal/phase/executor.go:13-65 | expand, backfill, gate and contract are the names with an executor, for the rollback command and for runPhase; the type is the name in capitals |
| Rollback.UnknownPhaseShiftsTarget | internal/phase/rollback.go:16-21 | a file with an unknown phase for which rolling back to expand undoes nothing although contract comes after it |
| Rollback.NameFindsIffKnownBefore | internal/phase/rollback.go:15-24 | the name of a known phase, if no other has it, resolves to that phase's executor if and only if all phases before it have known names |
| Rollback.TypeFindsLast | internal/phase/rollback.go:15-24 | a phase type that is nobody's name resolves to the last executor of that type, and to none only if the file has none |
| Rollback.FindTarget | internal/phase/rollback.go:15-24 | the target is the last executor that goes by the name |
| Rollback.Undo | internal/phase/expand.go:31-37 | what each Rollback sends: backfill, gate and an empty text nothing, expand its text whole, contract its statements one by one; up to the first that fails |
| Rollback.ApplyContract | internal/phase/contract.go:33-66 | a contract phase that returns nil under a new attempt has sent the statements of its text, in order, once |
| Rollback.SendAll | internal/phase/contract.go:69-84 | the statement loop sends exactly the statements of the text in order, up to the first that fails |
| Rollback.RollbackToPhase | internal/phase/rollback.go:13-30 | not found changes nothing; an error in executor i comes after everything above it was undone and before anything below it is touched |
| Rollback.RollBackMigration | internal/phase/rollback.go:13-30 | the command on a file whose first m phases have run and are inverted by their rollbacks: nil means the schema of the migration run that far and no further than the target, if the rollbacks of phases that never ran change nothing, and only then when the others tell schemas apart; an error in phase i, whether it ran or not, leaves the schema up to i less some of i's undo |
| Rollback.RollbackGoesBack | internal/phase/rollback.go:25-29 | the special case that each rollback of a phase that never ran changes nothing by itself: nil means the right schema |
| Rollback.RollbackIsRightIff | docs/runner-internals.md:120-126 | after nil the schema is right if the rollbacks of the phases that never ran, taken together, change nothing; and only if, when no phase above the target has run or the rollbacks of those that have tell schemas apart |
| Rollback.UndoesWhatNeverRan | docs/runner-internals.md:120-126 | only expand has run and the target is expand: the command returns nil and has run contract's rollback |
| Rollback.FailedRollbackStopsThere | internal/phase/rollback.go:25-29 | a rollback that fails in phase i, with m phases run, leaves the schema up to phase i, or up to m - 1, less exactly the statements of i's undo that took effect; all of them, so that nothing of i is left, exactly when only the reply to the last was lost |
| Rollback.DeliversAPrefix | internal/phase/contract.go:74-82 | the statements before the failed one took effect, the failed one only if its reply was lost, and nothing after it was sent |

## Left out

- RunnerProcess.Runner.Execute: an executor inside the protocol is any sequence of writes and checkpoints; the loops are proved in their own modules, and the two are not composed into one program.
- Gate.GateExecutor.Execute: a negative `poll_interval_ms`, which makes the loop poll without a pause, is not modelled; the model takes an interval of 0 or more.
- Backfill.RunUntilNil: other clients write at the points where the cursor argument holds (fills at any time, deletes and inserts between iterations); an insert between a batch and its cursor query is in `Table`.
- EndToEnd.ContractSeesNoNulls: the table is a count of NULL rows there; the gate's loop is tied to a real table by `EndToEnd.PassedGateSawNoNulls`, contract's loop is not.
- RunnerProcess.Runner.RollBack: what a rollback does to the target is any sequence of writes; its statements are in `Rollback`.
- HistorySafety.ContractComesLast: phase order is stated for distinct phase names, which no validation enforces; phases of one name share their events.
- Recovery.NoWedge: phase names are assumed known, which no validation enforces; an unknown name ends every run with the lock given back.
- Several migrations in the same tables: every statement is keyed by migration, and the model has one.
- Reuse of a process id after a crash: two processes never share a `host:pid` in the model.
- One clock for clients and server; clock skew between them is not modelled.
- A RefreshLock that finds its row but changes nothing: an UPDATE counts the rows it matched.
- The heartbeat statement that is in flight when the goroutine is cancelled: the ticker stops between its statements.
- Auto-increment gaps and commits out of ID order: inserts are atomic and IDs increase.
- EnsureSchema, DSN handling, JSON, YAML, the command line, logging, and the lint rules over SQL text.
- `extractTableName` and the identifier check of the estimate: the table's row count, when there is one, is a parameter.
- The progress confidence and the gate status of `BuildStatus`, which read checkpoint fields no executor writes.
- Retries and lock timeouts inside ExecDDL and ExecBatch: one call is one statement that takes effect, or fails, or fails after taking effect.
- Expand beyond sending one statement, and the error it returns when it has no SQL.
- Floating point: progress and estimates are real numbers, backoff is an integer with the same cap, and an overflowing shift or duration is not modelled.
