# DBOS Transact for Go: a Dafny model of durable execution

A deterministic workflow function is run, crashed, suspended, re-executed and
sometimes executed twice at once, while its progress lives in database rows. This
project models the parts of the engine that make that safe and proves what holds
in every run.

Protocols are state machines: a `State`, an `Action`, a total `Step` (`None` means
the action is not enabled) and `Run` over any sequence of actions. What a machine
promises is proved for every reachable state, by one small lemma per step. The `Trace`
modules say, from the sequence of actions alone, what a run has left in its tables: which
call a row, a deadline, an outcome or an audit row comes from and what it must hold; and
that a machine can do what it is for, from any state or with any values.
`StepsWhenPossible` gives, machine by machine, exactly when each action is possible. Code
that updates objects in place is a class or a method with loops, proved against the same
specification functions.

| file | part of the system |
|---|---|
| `Replay`, `ReplayProofs`, `ReplayTrace`, `MarkerRace`, `LostResults`, `Executor` | the insert-once step table and every execution that walks it |
| `Patching` | adding and removing a patch point in code with live histories |
| `TwoDatabases`, `TwoDatabasesTrace`, `DataSource` | a transaction in the user's database, checkpointed in the system database |
| `Retry`, `Savepoints` | the step retry policy; attempts under savepoints in one transaction |
| `Suspension`, `SuspensionProofs`, `SuspensionTrace` | parking in the database, and being woken |
| `Ownership`, `OwnershipTrace` | who owns a workflow's outcome |
| `Messaging`, `MessagingProofs`, `MessagingTrace` | Recv, GetEvent and Sleep with durable deadlines |
| `Audience`, `Gates`, `GateProtocol`, `GateTrace` | gates: audience, delivery, audit, lockstep with the recv |
| `Streams`, `Notifier` | the stream reader; the wake-up registry |
| `Debounce`, `Scheduler`, `Migrations`, `QueueSupervisor` | the smaller machines |

## What the model shows to fail

Each of these is a lemma that builds the run, beside a theorem that says when the
property does hold, both ways unless it says otherwise.

- Some errors the engine hands to the workflow are in no row: a step result that cannot
  be encoded after its body ran (`ResultLeavesTheTable`), a patch marker lost to another
  execution (`LoserLeavesTheTable`), a statement that fails, an interruption. All
  executions continue only from the table exactly when none was handed such an error
  (`AllReadIffNoneFailed`). A program that makes further calls after one can spoil the
  table for everybody (`UnrecordedResultDiverges`, `LoserCanSpoilTheTable`). If nobody
  does, executions walk one path and never meet a row of another name
  (`ReplayIsDeterministic`); this is one way only, since not every further call does
  harm. Programs that return these errors, as the examples in the source do, are of that
  kind (`ReturnedFailuresAreSteady`).
- A commit that landed and was reported as a final failure leaves the two databases
  in disagreement (`LostCommitDisagrees`), and so do two executions at once
  (`OverlapDisagrees`). With one live execution the layers agree on a step exactly when
  its checkpoint's writer had no such commit (`LayersAgreeIff`); in every run, if the
  step's writes committed, exactly when that writer committed or replayed the completion
  row (`LayersAgreeIffFirm`).
- `SetEvent` and `Send` as workflow steps, and gate deliveries, look for waiters before
  their own write is visible, because both are in one transaction. On PostgreSQL a
  waiter that registers and rechecks in between is woken only by its fallback
  (`EventOvertaken`). A completion, even a refused one, deletes all waiter rows of its
  workflow, those of event and message waiters too, and a writer that looks afterwards
  finds nobody (`EventRowDeleted`). The wake-up is lost exactly when no write was visible
  at the recheck and either nobody looked since the registration or everybody looked
  after a completion that read the rows before it and deleted them after it (`LostIff`).
- A result waiter is lost exactly when it was robbed in that way, or when the awaited
  workflow ended silently, after the recheck, and nobody else woke its waiters
  (`ResultLostIff`). Both happen (`ResultWaiterRobbed`, `CancelWakesNobody`).
- A Recv or GetEvent that is waiting has a row at its second ID and none at its first.
  A patch point placed right before it then takes the new branch and runs into that row
  (`WaitingCallLeavesGap`); patching is safe exactly when the history has no such gap
  (`PatchingIsSafeIff`).
- A suspending execution keeps its active entry until after DELAYED is durable, so a row
  woken and dequeued by the same executor in between ends up PENDING with nobody running
  it (`SuspensionCanOrphan`), and stays so until something outside acts (`OrphansWait`).
  A claimed row may never be dispatched (`ClaimCanBeDropped`), and a durable cancel may
  fail (`FailedCancelOrphans`). A PENDING row has nobody executing it exactly when its
  claim was never dispatched, or the execution it was handed to was turned away by an
  active entry, shut down, cancelled without the row, in conflict, unable to encode or to
  record, or crashed, and no repeated start or older claim is at work (`OrphanedIff`).
- A second, slower execution can open a gate again after its recv is over
  (`StaleOpening`); a gate is open for a finished recv exactly when its latest opening
  was such a one (`GatesDivergeIffStale`).
- A gate is listed for an initiator who cannot deliver to it
  (`InitiatorSeesButCannotDeliver`); a listed gate delivers exactly when its workflow is
  live and a row other than an initiator row matches (`ListedDeliversIff`).
- A suspended producer looks inactive to a stream reader, which then misses what it
  writes later (`SuspendedProducerIsCutOff`). A reader that gave up misses rows exactly
  when they were committed after its last read (`InactiveReaderMissesIff`).
- The migration runner skips every version at or below the stored one, and the verifier
  looks at the stored one only. A build that inserts versions below those of an earlier
  build, as 42 to 47 and 100 to 107 were inserted below 1001, completes and is accepted
  without them, and no later start applies them (`InsertedVersionsAreLost`,
  `PassedForGood`). A completed start has all of its versions exactly when those at or
  below the version it found were already applied (`CompletedHasAllIff`); builds that are
  first parts of one list are always verified rightly (`PrefixBuildsAreVerified`).

## Assumptions

- Each database transaction is atomic. In `Suspension` the unit is the single statement,
  and a transaction's writes become visible at its last one.
- The workflow function is deterministic in what its calls returned. Errors of the engine
  that are in no row, conflicts, cancellations and unexpected steps among them, are
  handed to it as events, and it may do anything with them.
- Encoded values are opaque tokens; NULL and the empty string are one token, as the
  engine's own comparison has it.
- The clock does not go back, and one call reads it once.
- The system database is modelled from `dbos/internal/sysdb/system_database.go`.

## Model

| member | source | states |
|---|---|---|
| `ReplayProofs.ReplayIsDeterministic` | dbos/workflow.go:2695-2779 | in every run of executions, crashes, restarts and overlaps on one table, rows only accumulate; and unless somebody calls on after an error that is in no row, all executions walk one path with one numbering, continue only from recorded outcomes, and never meet a row of another name |
| `ReplayProofs.AllReadIffNoneFailed` | dbos/workflow.go:2738-2776 | in every run, every history is read from the table exactly when no execution was handed an error of the engine: a result not encoded, decoded or stored, an interruption, a failed or refused patch |
| `ReplayProofs.ReturnedFailuresAreSteady` | dbos/workflow.go:2660-2666 | programs that return the engine's errors never call on after one, in any run |
| `ReplayProofs.FailedOnPath` | dbos/workflow.go:4424-4460 | unless somebody calls on after an error that is in no row, an execution handed one stands where the evaluation passes, and at a refused marker the evaluation goes on from the row in its place |
| `LostResults.ResultLeavesTheTable` | dbos/workflow.go:2743-2748 | for any program that opens with a step, a result that cannot be encoded leaves a history that no table supports, the body run and the table empty |
| `LostResults.UnrecordedResultDiverges` | dbos/workflow.go:2743-2748 | a program that goes on after it records a step where a replay, with a good result, meets it under another name |
| `MarkerRace.LoserLeavesTheTable` | dbos/internal/sysdb/system_database.go:3987-3992 | for any program that opens with a patch, the loser has seen an error that is in no row while the evaluation takes the new branch |
| `MarkerRace.LoserCanSpoilTheTable` | dbos/internal/sysdb/system_database.go:3987-3992 | a loser that calls on can record a step where the winner's belongs |
| `ReplayProofs.FinishedMatchesEvaluation` | dbos/workflow.go:2695-2779 | unless somebody calls on after an error that is in no row, an execution that finished without one has the result of one crash-free evaluation on the final table |
| `ReplayProofs.NoRerun` | dbos/workflow.go:2725-2779 | once a step is recorded, no action of any continuation runs its body in an execution that had not checked it |
| `ReplayProofs.CanReplay` | dbos/workflow.go:2510-2539 | every history the table supports is walked by some execution, without running a body or writing a row |
| `ReplayProofs.RunsKeep` | dbos/workflow.go:2695-2779 | the invariant behind these: every row and every history is reached by the program on the table |
| `ReplayTrace.RowsAreResults` | dbos/workflow.go:2743-2776 | in every run, every row it adds has the name, the outcome and the stamp of a run of that step's body, or is the marker of a patch that was asked for there |
| `ReplayTrace.ContinuesFromResults` | dbos/workflow.go:2716-2778 | in every run, whatever errors occur, a workflow continues from the outcome in the step's row, recorded under the name it gives the step, and for a new row that is what the body returned |
| `ReplayTrace.AnyResultCanBeRecorded` | dbos/workflow.go:2706-2778 | from any state an unrecorded step can be checked, run with any result, recorded, also when an answer is lost, and joined with that result, and nothing else changes |
| `ReplayTrace.RecordLands` | dbos/internal/sysdb/system_database.go:3082-3158 | a record on a free ID puts the row into the table whether or not its answer arrives |
| `ReplayTrace.PatchClaims` | dbos/internal/sysdb/system_database.go:3981-4000 | a Patch that finds no row claims the ID, looks again if the answer is lost, and answers true either way |
| `ReplayTrace.RecordedIsFinal` | dbos/internal/sysdb/system_database.go:3082-3158 | who records another result than the one there changes nothing and is over; the same one is accepted |
| `ReplayTrace.OtherNameIsRefused` | dbos/internal/sysdb/system_database.go:3305-3379 | a check takes the row of its own name and ends the execution at any other |
| `ReplayTrace.OverStaysOver` | dbos/workflow.go:2695-2779 | an execution that is over never changes again |
| `ReplayTrace.StoppedIsOver` | dbos/workflow.go:2695-2779 | an execution can be stopped anywhere, and leaves the table as it is |
| `ReplayTrace.StepsWhenPossible` | dbos/workflow.go:2695-2779 | exactly when each action of an execution is possible |
| `Executor.WorkflowState.constructor` | dbos/workflow.go:1567-1574 | step IDs start from -1 |
| `Executor.WorkflowState.NextStepID` | dbos/workflow.go:41-44 | the counter goes up by one and is the ID |
| `Executor.SystemDB.CheckOperationExecution` | dbos/internal/sysdb/system_database.go:3305-3379 | cancelled, missing, recorded or another step, each exactly when |
| `Executor.SystemDB.RecordOperationResult` | dbos/internal/sysdb/system_database.go:3082-3158 | insert-once: no row ever changes, and a repeated write is told apart from a conflict |
| `Executor.SystemDB.Patch` | dbos/internal/sysdb/system_database.go:3981-4000 | a free ID takes the marker, unless another row gets in between and refuses it; otherwise the row's name decides |
| `Executor.RunAsStep` | dbos/workflow.go:2695-2779 | the body runs exactly when nothing is recorded and the workflow is not cancelled; an interrupted body, or a result that is not encoded or not stored, records nothing and gives an error; the result is the row's |
| `Executor.RunWorkflow` | dbos/workflow.go:1558-1802 | the loop's history is the evaluation on the table it leaves, all its steps are recorded, it ran no body it found a row for, and why it stopped |
| `Patching.OldTableStaysJustified` | dbos/workflow.go:4424-4460 | for any old code, other patches included, a table past the point is a table of the patched program |
| `Patching.OldHistoryReplays` | dbos/workflow.go:4424-4460 | unless somebody calls on after an error that is in no row, every patched execution walks along the old history with the same IDs and ends the same |
| `Patching.ShortTableStaysJustified` | dbos/workflow.go:4424-4460 | a table with no row at or past the point, whether or not it gets there, is a table of the patched program |
| `Patching.NewBranchForGood` | dbos/workflow.go:4424-4460 | from any such table, the empty one included, and unless somebody calls on after an error that is in no row, every execution that passes the point, now or later, takes the new branch |
| `Patching.PatchingIsSafeIff` | dbos/workflow.go:4424-4460 | no new code can run into an old row, in runs where nobody calls on after an error that is in no row, if and only if the history has no gap at the point, if it gets there |
| `Patching.WaitingCallLeavesGap` | dbos/workflow.go:3339-3342 | a waiting two-ID call at the point makes patching unsafe |
| `Patching.DeprecateReplaysMarked` | dbos/workflow.go:4488-4531 | after the swap every marked history has the same events and IDs |
| `Patching.DeprecateTakesWherePatchDoes` | dbos/workflow.go:4488-4531 | in every run from a marked table where nobody calls on after an error that is in no row, wherever an execution stands at the call, the row is the marker and the ID is taken |
| `TwoDatabases.EffectsCommitAtMostOnce` | dbos/datasource.go:514-537 | in every run the writes of a step commit once if its completion row says success and not at all otherwise, and whoever answers, answers the checkpoint |
| `TwoDatabases.AnswersAgree` | dbos/datasource.go:409-589 | two executions of a step that answer give the same answer |
| `TwoDatabases.LayersAgreeIff` | dbos/datasource.go:538-589 | with one live execution, checkpoint and completion row agree exactly when the writer had no commit that landed and was reported failed |
| `TwoDatabases.LayersAgreeIffFirm` | dbos/datasource.go:466-589 | in every run they agree if the writer committed, replayed or mirrored the row, and if the writes committed, only then |
| `TwoDatabases.ReplaysReturnStored` | dbos/datasource.go:466-503 | with decisive commits every replay returns the outcome both layers hold |
| `TwoDatabases.LostCommitDisagrees` | dbos/datasource.go:533-535 | the writes are durable and the checkpoint says the step failed |
| `TwoDatabases.OverlapDisagrees` | dbos/datasource.go:345-356 | two executions, truthful commits, and the same disagreement |
| `TwoDatabasesTrace.CompletionsAreCommits` | dbos/datasource.go:514-537 | in every run a completion row is the output of the one attempt that committed, which is all the step wrote, or the error of an execution's own last attempt, mirrored |
| `TwoDatabasesTrace.CheckpointsAreOutcomes` | dbos/datasource.go:538-589 | in every run a checkpoint is the completion row's outcome or the error of its writer's own last attempt |
| `TwoDatabasesTrace.MarksAreTrace` | dbos/datasource.go:466-552 | which executions lost a commit, and which committed, read or mirrored the row, are facts about the actions |
| `TwoDatabasesTrace.LoneRunAnswers` | dbos/datasource.go:409-589 | after a failed attempt and a lost checkpoint answer, a lone execution ends with its output, written once and in both layers |
| `TwoDatabasesTrace.LoneFailureAnswers` | dbos/datasource.go:553-589 | one that gives up checkpoints and answers its own error |
| `TwoDatabasesTrace.CrashBetweenIsReplayed` | dbos/datasource.go:466-503 | after a crash between the commits the next execution replays the row and checkpoints it |
| `TwoDatabasesTrace.OtherCheckpointIsRefused` | dbos/datasource.go:574-589 | a second, different checkpoint is refused |
| `TwoDatabasesTrace.StepsWhenPossible` | dbos/datasource.go:409-589 | exactly when each action is possible |
| `DataSource.UserDatabase.CommitWithCompletion` | dbos/datasource.go:514-537 | writes and completion row commit together, and a duplicate refuses both |
| `DataSource.UserDatabase.RecordFailure` | dbos/datasource.go:345-356 | a failure row is inserted once |
| `DataSource.AttemptWithRetry` | dbos/datasource.go:547-552 | the retry policy's verdict; only a successful attempt leaves anything |
| `DataSource.RunAsTransaction` | dbos/datasource.go:409-589 | layer 1, layer 2, first time and interrupted: what is returned, what is written, and that the layers stay consistent |
| `Retry.ExecuteStepWithRetry` | dbos/workflow.go:2554-2594 | at most max(0, maxRetries) + 1 runs; which run decided and how; exhausted exactly when, with every error in order |
| `Retry.ExhaustedIff` | dbos/workflow.go:2571-2583 | exhausted exactly when retries were asked for, all runs failed, the predicate accepted all but the last error and no wait was cancelled |
| `Retry.DriveDecides` | dbos/internal/sysdb/retry.go:74-101 | the loop ends at the first run that does not go on, and the verdict is that run's |
| `Retry.ToldIsDecidingRun` | dbos/workflow.go:2554-2594 | the caller is told what the deciding run returned, all errors joined if every run failed, or the cancellation of a wait |
| `Retry.JoinedSplits` | dbos/workflow.go:2571-2583 | joined errors are the errors in order, a line each |
| `Retry.DelaysGrow` | dbos/internal/sysdb/retry.go:35-42 | delays never decrease and stay between min(base, max) and max |
| `Retry.DelaysMultiply` | dbos/internal/sysdb/retry.go:35-42 | the first delay is the base, and each further one factor times the one before, up to rounding, until the cap |
| `Savepoints.Transaction.Savepoint` | dbos/workflow.go:2864-2868 | a savepoint is stacked on a healthy transaction only |
| `Savepoints.Transaction.RollbackTo` | dbos/workflow.go:2869-2875 | the innermost savepoint's state returns and the savepoint stays |
| `Savepoints.Transaction.Release` | dbos/workflow.go:2876-2879 | the innermost savepoint goes, on a healthy transaction only |
| `Savepoints.HealthyIff` | dbos/workflow.go:2863-2880 | the transaction is healthy exactly if every attempt left it so or failed and was rolled back |
| `Savepoints.RunOnce` | dbos/workflow.go:2863-2880 | what the attempt amounts to and leaves; a failed attempt leaves the view as it was and its savepoint behind |
| `Savepoints.RunAttempts` | dbos/workflow.go:2863-2880 | all same-name savepoints hold the pre-step state; the view is that state plus the final successful attempt's writes |
| `Savepoints.HealthyMeans` | dbos/workflow.go:2863-2880 | a round's transaction is healthy exactly if it survived every attempt up to the deciding one |
| `Savepoints.RoundMeans` | dbos/workflow.go:2883-2943 | what a committing round adds is what its deciding attempt returned and, if a success, wrote, unless exhausted or cancelled, and the post-step writes |
| `Savepoints.RunRound` | dbos/workflow.go:2843-2948 | one transaction: it commits exactly if not interrupted, encodable, landing and healthy, and then the deciding attempt's writes and outcome, the post-step writes and the checkpoint together; told, interrupted and refused each exactly when |
| `Savepoints.RunAsTxn` | dbos/workflow.go:2843-2948 | a new transaction exactly after each refusal to try again after; a checkpoint exactly if one of them committed, that one's, also when its answer was lost, and then told |
| `SuspensionProofs.RunsKeep` | dbos/workflow.go:6679-6756 | the invariant of every interleaving of waiter and wakers |
| `SuspensionProofs.LostIff` | dbos/workflow.go:6704-6756 | a message or event wait is lost exactly when no write was visible at the recheck and nobody looked since the registration, or all who did found the waiter row deleted |
| `SuspensionProofs.WriteThenWakeLosesNobody` | dbos/internal/sysdb/system_database.go:4255-4310 | a writer visible no later than it looks loses nobody in a serial database, nor otherwise unless a completion deletes the row |
| `SuspensionProofs.ResultLostIff` | dbos/workflow.go:6679-6700 | a result wait is lost exactly when its row was deleted by a wake-up that had read before the registration and everybody looked after that, or the workflow ended silently and nobody looked |
| `SuspensionProofs.ResultLostIffRobbed` | dbos/internal/sysdb/system_database.go:7542-7583 | if every ending wakes, lost exactly when robbed, and never in a serial database |
| `SuspensionProofs.WakeUpIsBounded` | dbos/workflow.go:6704-6717 | with crashes anywhere the wake-up time is due, or within the fallback horizon and the deadline |
| `SuspensionProofs.EventOvertaken` | dbos/internal/sysdb/system_database.go:4444-4488 | SetEvent in a transaction can lose a waiter |
| `SuspensionProofs.EventRowDeleted` | dbos/internal/sysdb/system_database.go:1942-1969 | a refused completion can delete an event waiter's row, and the event is then set for nobody |
| `SuspensionProofs.ResultWaiterRobbed` | dbos/internal/sysdb/system_database.go:7568-7582 | a wake-up can delete a newcomer's waiter row |
| `SuspensionProofs.CancelWakesNobody` | dbos/internal/sysdb/system_database.go:2023-2162 | a cancel leaves a result waiter asleep |
| `SuspensionTrace.InstantsAreActions` | dbos/internal/sysdb/system_database.go:7542-7583 | in every run, what a waker wrote, when it became visible and when it looked are where its actions are |
| `SuspensionTrace.WaiterIsTrace` | dbos/workflow.go:6679-6756 | the registration and the recheck are those actions, and the fallback is exactly the horizon from the registration or the deadline |
| `SuspensionTrace.CheckEndsIffVisible` | dbos/workflow.go:3388-3465 | a waiter that checks is over exactly if a write of what it awaits is visible, and suspends itself otherwise |
| `SuspensionTrace.OverMeansVisible` | dbos/workflow.go:3388-3465 | nobody is over a wait for something that was not written |
| `SuspensionTrace.WokenWaiterEnds` | dbos/workflow.go:6704-6756 | a parked waiter found by the writer ends without its fallback |
| `SuspensionTrace.FallbackEnds` | dbos/workflow.go:6704-6756 | one that nobody found ends when its wake-up time comes |
| `SuspensionTrace.CrashedWaiterRecovers` | dbos/workflow.go:6704-6756 | a crash takes only the waiter out, and recovery makes it check again |
| `SuspensionTrace.StepsWhenPossible` | dbos/internal/sysdb/system_database.go:7542-7583 | exactly when each action of waiter and wakers is possible |
| `Ownership.RunsKeep` | dbos/workflow.go:1558-1802 | the invariant of every run of claims, dispatches, starts, cancels that may fail, resumes, recoveries, suspensions and crashes |
| `Ownership.OutcomeIsFinal` | dbos/internal/sysdb/system_database.go:1942-1969 | a recorded outcome and its writer never change |
| `Ownership.OutcomesAgree` | dbos/workflow.go:1772-1798 | every outcome any handle reports is the row's; an execution reports its own result only if it recorded it |
| `Ownership.OneInsidePerExecutor` | dbos/workflow.go:1663-1680 | at most one goroutine per executor is inside the function |
| `Ownership.RecorderLetGo` | dbos/workflow.go:1769-1772 | once the outcome is visible, its recorder's active entry is gone |
| `Ownership.OrphanedIff` | dbos/workflow.go:1602-1800 | a PENDING row has nobody executing it exactly when its claim was never dispatched or one of seven things stopped the execution it was handed to, and no repeated start or older claim is at work |
| `Ownership.OrphansWait` | dbos/workflow.go:1663-1800 | nothing the executions, the queue or a crash still do moves such a row |
| `Ownership.SuspensionCanOrphan` | dbos/workflow.go:1702-1713 | the entry of a suspending execution turns away the one the row was dequeued for, and both leave |
| `Ownership.ClaimCanBeDropped` | dbos/queue.go:740-790 | a dequeued row can stay PENDING without any execution ever started |
| `Ownership.FailedCancelOrphans` | dbos/workflow.go:1606-1613 | an execution whose durable cancel fails leaves its row PENDING and waits for it |
| `OwnershipTrace.RowIsTrace` | dbos/internal/sysdb/system_database.go:1942-2162 | in every run the status row is what a reading of the actions alone says, whatever the executions are up to |
| `OwnershipTrace.OutcomeWasReturned` | dbos/workflow.go:1745-1798 | the recorded outcome is what its writer's function returned |
| `OwnershipTrace.CancelHolds` | dbos/internal/sysdb/system_database.go:2023-2162 | a cancel of an unfinished workflow holds until it is resumed |
| `OwnershipTrace.CausesAreTold` | dbos/workflow.go:1602-1800 | why an execution stopped is an action of the run |
| `OwnershipTrace.TurnedAwayByAnother` | dbos/workflow.go:1663-1680 | who is turned away is so by another execution that holds the executor's entry then |
| `OwnershipTrace.CrashEndsAll` | dbos/workflow.go:1663-1800 | a crash ends what its executor had not reported and touches nothing else |
| `OwnershipTrace.ReportsWereTrue` | dbos/workflow.go:1628-1656 | every handle of an execution was told what the row said then |
| `OwnershipTrace.PollReads` | dbos/workflow.go:1628-1656 | a polling handle reports a settled row, and what it says |
| `OwnershipTrace.UndisturbedRunRecords` | dbos/workflow.go:1558-1802 | an execution left alone records and tells what its function returns, whatever it is, and leaves no entry |
| `OwnershipTrace.RecoveredRunRecords` | dbos/recovery.go:9-22 | after a crash the recovered execution can do the same |
| `OwnershipTrace.AwaitTells` | dbos/workflow.go:1628-1656 | who awaits another's outcome is told it |
| `OwnershipTrace.StepsWhenPossible` | dbos/workflow.go:1558-1802 | exactly when each action on the row and of an execution is possible |
| `MessagingProofs.RecordsAreKept` | dbos/workflow.go:3388-3396 | a recorded deadline or answer is the same in every later state |
| `MessagingProofs.SleepsLastUntilDeadline` | dbos/workflow.go:4351-4402 | no execution is past a sleep before its recorded deadline |
| `MessagingProofs.TimeoutsAreEarned` | dbos/workflow.go:3388-3465 | a timeout is recorded only after the recorded deadline and a search in vain; an empty answer never |
| `MessagingProofs.SettlesWithWhatIsThere` | dbos/workflow.go:3449-3465 | the settling transaction answers with the oldest message or the event, and with a timeout exactly when there is none |
| `MessagingProofs.MessagesOnceInOrder` | dbos/internal/sysdb/system_database.go:4410-4433 | messages and receiving steps correspond one to one, oldest first per topic |
| `MessagingProofs.IdsIgnoreDeadlineRows` | dbos/workflow.go:3339-3342 | the next step ID depends on the answers alone |
| `MessagingProofs.OneStory` | dbos/workflow.go:3653-3766 | executions of one workflow never disagree on an answer |
| `MessagingProofs.RunsKeep` | dbos/workflow.go:3354-3481 | the invariant of every run of waits, arrivals, crashes and suspensions |
| `MessagingTrace.WorldIsTrace` | dbos/internal/sysdb/system_database.go:4255-4488 | clock, inbox and events are what ticks, sends and sets made them |
| `MessagingTrace.DeadlinesAreFixedOnce` | dbos/workflow.go:4351-4366 | every recorded deadline is the clock at the first call that came that far plus that wait's own duration or timeout |
| `MessagingTrace.SleepsLastTheirDuration` | dbos/workflow.go:4351-4402 | no execution is past a sleep before its whole duration has gone by since it was first begun, by whichever execution |
| `MessagingTrace.TimeoutsLastTheirTimeout` | dbos/workflow.go:3388-3465 | no wait is recorded as timed out before its whole timeout has gone by since its deadline was first recorded |
| `MessagingTrace.AnswersAreWhatWasThere` | dbos/workflow.go:3449-3465 | every recorded answer is what its first settling transaction found: the oldest message sent on its topic and not taken, the value last set, or nothing |
| `MessagingTrace.FoundIsTakenAtOnce` | dbos/workflow.go:3354-3387 | a wait that finds something takes it at once and records no deadline |
| `MessagingTrace.RecordedIsReplayedAtOnce` | dbos/workflow.go:3356-3370 | a recorded answer is given back at once, without waiting or recording a deadline |
| `MessagingTrace.IdsAreCounted` | dbos/workflow.go:3339-3342 | a Sleep takes one ID and a Recv or GetEvent two |
| `MessagingTrace.WaitsCanBegin` | dbos/workflow.go:3388-3396 | one that finds nothing comes to wait for the recorded deadline |
| `MessagingTrace.WaitsCanEnd` | dbos/workflow.go:3397-3465 | it ends at once if something is there, and else with a timeout when the deadline comes |
| `MessagingTrace.SleepsCanEnd` | dbos/workflow.go:4366-4402 | a sleep ends when its deadline comes |
| `MessagingTrace.LeftIsOver` | dbos/workflow.go:3354-3481 | an execution that left changes nothing, and another can start |
| `MessagingTrace.StepsWhenPossible` | dbos/workflow.go:3354-3481 | exactly when each action is possible |
| `Audience.AppendGroups` | dbos/internal/sysdb/gates.go:314-320 | one placeholder per group, each bound to its group |
| `Audience.PrincipalMatchClause` | dbos/internal/sysdb/gates.go:305-324 | for any prior arguments and groups the clause means "matches the caller", also as the vector grows |
| `Audience.GateMatchClause` | dbos/internal/sysdb/gates.go:236-256 | the delivery clause means the gate match, and its exclusion the caller |
| `Audience.AudienceMatches` | dbos/internal/sysdb/gates.go:236-262 | true exactly when a row admits the caller and none excludes them |
| `Audience.ReadAllowed` | dbos/internal/sysdb/gates.go:328-343 | allowed exactly when a row of either table, in the caller's organisation or none, is for everybody, the caller as user or starter, or one of their groups |
| `Audience.ListOpenGatesFor` | dbos/internal/sysdb/gates.go:347-388 | the unlimited inbox holds exactly the open, unexpired gates of the organisation that a row shows to the caller and none hides |
| `Audience.InboxIsComplete` | dbos/internal/sysdb/gates.go:347-388 | every gate the caller could deliver to in their organisation is listed |
| `Audience.ListedDeliversIff` | dbos/internal/sysdb/gates.go:236-262 | a listed gate delivers exactly when the workflow is live and a row other than an initiator row matches |
| `Audience.InboxIsSound` | dbos/internal/sysdb/gates.go:347-388 | without initiator rows every listed gate of a live workflow delivers |
| `Audience.InitiatorSeesButCannotDeliver` | dbos/internal/sysdb/gates.go:301-311 | an initiator-only gate is listed and rejects |
| `Gates.GateStore.OpenGate` | dbos/internal/sysdb/gates.go:94-136 | upserts the gate, open, for this recv, under its own or the tenant's organisation, with exactly the principals asked for; every other gate stays |
| `Gates.GateStore.DeliverToGate` | dbos/internal/sysdb/gates.go:163-232 | delivered, rejected as closed and rejected by the audience each exactly when, from the rows; one audit row, and a message exactly if delivered; an unknown workflow leaves nothing |
| `Gates.GateStore.IgnoreDelivery` | dbos/internal/sysdb/gates.go:266-273 | turns a delivered row into an ignored one, idempotently |
| `Gates.GateStore.Receive` | dbos/internal/sysdb/gates.go:140-158 | checkpoint, consumption and closed gate together; the audit row found is the message's |
| `Gates.DeliveryConserves` | dbos/internal/sysdb/gates.go:202-231 | one audit row more, rejected rows signal nothing, rows and messages stay one to one |
| `Gates.IgnoreConserves` | dbos/internal/sysdb/gates.go:266-273 | ignoring keeps the correspondence |
| `GateProtocol.DeliveriesAreConserved` | dbos/internal/sysdb/gates.go:163-273 | in every run audit rows count the calls and match gate messages one to one |
| `GateProtocol.GatesInLockstep` | dbos/workflow.go:3371-3465 | with one live execution a gate open for a recv implies the recv has no checkpoint |
| `GateProtocol.GatesDivergeIffStale` | dbos/workflow.go:3371-3380 | in every run a gate is open for a finished recv exactly when its latest opening came after the checkpoint |
| `GateProtocol.StaleOpening` | dbos/workflow.go:3371-3380 | two executions can leave a gate open for good |
| `GateTrace.GateRowIsLatestOpening` | dbos/internal/sysdb/gates.go:94-158 | in every run a gate's row is that of its latest opening and is open exactly if no recv of the gate committed since |
| `GateTrace.DeliveredIff` | dbos/internal/sysdb/gates.go:163-232 | in every run a delivery is accepted exactly when that opening has not been closed or expired, invites the caller, and the workflow is live; what it writes |
| `GateTrace.NothingDeliveredWhileClosed` | dbos/internal/sysdb/gates.go:186-187 | between the commit that closes a gate and its next opening every delivery is rejected as closed |
| `GateTrace.AuditIsTrace` | dbos/internal/sysdb/gates.go:202-273 | every audit row is that of one delivery call, with its verdict, or ignored if delivered and ignored since |
| `GateTrace.MessagesAreSent` | dbos/internal/sysdb/gates.go:202-231 | the messages are those of the accepted deliveries and the plain sends, in order |
| `GateTrace.DivergedIffOpenedLate` | dbos/workflow.go:3371-3380 | a gate is open for a finished recv exactly when its latest opening came after that recv's checkpoint |
| `GateTrace.TakenOnce` | dbos/workflow.go:3449-3465 | a message is taken by at most one recv, of its own gate, whose checkpoint says so |
| `GateTrace.FirstAnswerStays` | dbos/workflow.go:3449-3465 | a checkpoint is the answer of the first recv to commit under that step |
| `GateTrace.PassedIsCheckpointed` | dbos/workflow.go:3354-3370 | an execution is past a recv only if that recv has its checkpoint |
| `GateTrace.DeliveryIsReceived` | dbos/workflow.go:3371-3465 | an invited caller can deliver, and the recv takes that message and leaves the gate closed |
| `GateTrace.StepsWhenPossible` | dbos/workflow.go:3354-3465 | exactly when each action of callers and executions is possible |
| `Streams.EmitsInOrder` | dbos/workflow.go:3969-4107 | for every interleaving the reader emits from its offset, in order, with no gap or repeat |
| `Streams.InactiveReaderSawAll` | dbos/workflow.go:4084-4092 | closing on an inactive producer, it emitted everything committed before that status was read |
| `Streams.ClosedReaderSawEnd` | dbos/workflow.go:4039-4043 | a closed stream was read to its sentinel |
| `Streams.DrainedReaderSawAll` | dbos/workflow.go:4044-4050 | a snapshot reader that drained the stream emitted everything there |
| `Streams.CancelledReaderWasWaiting` | dbos/workflow.go:4031-4037 | a cancelled reader had emitted all that was there in the pass before, and found no end in it |
| `Streams.QuietReaderEnds` | dbos/workflow.go:4084-4092 | a stream nobody writes to any more is read to its end, and there the reader ends |
| `Streams.InactiveReaderMissesIff` | dbos/workflow.go:4084-4092 | a reader that gave up misses rows exactly when they were committed after its last read |
| `Streams.SuspendedProducerIsCutOff` | dbos/workflow.go:4089-4092 | a suspended producer's later values are missed |
| `Streams.SendEntries` | dbos/workflow.go:4031-4037 | one pass sends the rows up to the sentinel, or those before the cancellation |
| `Streams.ReadStream` | dbos/workflow.go:3969-4107 | the loop has all of the above |
| `Notifier.NotifyRegistry.constructor` | dbos/internal/sysdb/notifier.go:48-57 | an empty registry, with or without a push queue |
| `Notifier.NotifyRegistry.Subscribe` | dbos/internal/sysdb/notifier.go:69-75 | the waiters of the payload and a new channel, every other payload's as before |
| `Notifier.NotifyRegistry.SubscribeExclusive` | dbos/internal/sysdb/notifier.go:79-88 | granted exactly when no waiter exists, and then sole |
| `Notifier.NotifyRegistry.Unsubscribe` | dbos/internal/sysdb/notifier.go:91-99 | the waiters without the channel, every other payload's as before, and the payload goes with its last waiter |
| `Notifier.NotifyRegistry.Notify` | dbos/internal/sysdb/notifier.go:102-115 | every waiter of the payload holds a token, no other changes |
| `Notifier.NotifyRegistry.Signal` | dbos/internal/sysdb/notifier.go:123-130 | wakes and queues |
| `Notifier.NotifyRegistry.DrainPending` | dbos/internal/sysdb/notifier.go:144-156 | hands out each queued payload once and leaves none |
| `Notifier.NotifyRegistry.NotifyAll` | dbos/internal/sysdb/notifier.go:160-171 | every waiter holds a token |
| `Notifier.WaitersAreSubscribed` | dbos/internal/sysdb/notifier.go:59-99 | after any trace the waiters of a payload are exactly the channels its subscriptions returned and nobody gave back |
| `Notifier.NobodyMissed` | dbos/internal/sysdb/notifier.go:59-171 | after any trace a channel holds a token exactly when a payload it was subscribed to was notified since its last receive; queued exactly when signalled since the last drain |
| `Debounce.RowsOk` | dbos/internal/sysdb/system_database.go:4862-4948 | in every run the key index is right, a debounced workflow has the key exactly while it waits, no start time passes its deadline |
| `Debounce.OnePending` | dbos/debouncer.go:249-340 | at most one debounced workflow waits under the key |
| `Debounce.RunsWithLastInput` | dbos/debouncer.go:249-340 | it carries the input of the last call that took effect |
| `Debounce.ReleasedIsSettled` | dbos/internal/sysdb/system_database.go:4812-4831 | no call takes effect after the release |
| `Debounce.StartsByDeadline` | dbos/internal/sysdb/system_database.go:4901-4916 | however often extended, the start time stays within the creating call's timeout |
| `Debounce.FreshDeadline` | dbos/debouncer.go:287-300 | a workflow created at clock t by a call with timeout d starts by t + d, in every continuation of the run |
| `Debounce.StartIsLastBounce` | dbos/internal/sysdb/system_database.go:4862-4948 | a workflow starts the delay of the last call that took effect on it after that call, or at its deadline if sooner, with that call's input and application |
| `Debounce.BounceIffOwn` | dbos/debouncer.go:249-340 | a call of a named application extends the holder exactly if it is its own and waiting |
| `Debounce.ReleasesWhenDue` | dbos/internal/sysdb/system_database.go:4812-4831 | a workflow can be released exactly when its start time has come |
| `Debounce.UnnamedLeavesApp` | dbos/internal/sysdb/system_database.go:4862-4948 | a call without an application leaves the workflow's as it is |
| `Debounce.DropFreesKey` | dbos/internal/sysdb/system_database.go:4812-4831 | a cancelled, resumed or completed workflow gives up the key and nothing else changes |
| `Debounce.StepsWhenPossible` | dbos/debouncer.go:249-340 | exactly when each step of a call is possible |
| `Debounce.SecondCallExtends` | dbos/debouncer.go:249-340 | for any two calls: the first creates, the second returns the same workflow with its own input and delay |
| `Debounce.RaisedOverForeign` | dbos/debouncer.go:249-340 | over all runs a call raises only over a foreign holder and returns only a workflow it took effect on |
| `Scheduler.Reconciler.constructor` | dbos/scheduler.go:250-271 | nothing installed, maps and cron consistent |
| `Scheduler.Reconciler.Add` | dbos/scheduler.go:250-271 | both maps and one new cron entry, or nothing if the definition is refused |
| `Scheduler.Reconciler.Remove` | dbos/scheduler.go:280-294 | both maps and the cron entry, or nothing if it is not installed |
| `Scheduler.Reconciler.RemoveStale` | dbos/scheduler.go:379-392 | exactly the installed names that are not active go |
| `Scheduler.Reconciler.Refresh` | dbos/scheduler.go:400-418 | start, restart or leave running, each exactly when |
| `Scheduler.Reconciler.RefreshAll` | dbos/scheduler.go:394-420 | every active name, in any order |
| `Scheduler.Reconciler.Reconcile` | dbos/scheduler.go:362-420 | in any iteration order: installed exactly when active and accepted or already current, current definitions only, no orphan entries, and a settled state is left alone |
| `Scheduler.Current` | dbos/scheduler.go:374-377 | each listed name, and no other, has the last schedule of that name |
| `Migrations.Schema.constructor` | dbos/internal/sysdb/sqlite_migrations.go:270-285 | an empty database |
| `Migrations.Schema.Apply` | dbos/internal/sysdb/sqlite_migrations.go:308-347 | the migration and the version row together, or neither |
| `Migrations.Schema.RunMigrations` | dbos/internal/sysdb/sqlite_migrations.go:270-306 | for any build and any schema: the build's versions above the stored one land in order up to where it stops, with at most one version row; a completed run adds exactly these, and has all of the build's exactly when the skipped ones were there |
| `Migrations.Schema.Verify` | dbos/internal/sysdb/sqlite_migrations.go:242-268 | accepts exactly when the stored version is not below the build's last; what that says of the versions is in the rows below |
| `Migrations.LandingStops` | dbos/internal/sysdb/sqlite_migrations.go:296-347 | what lands is everything before the first migration that does not commit, and that one if the process died after its commit |
| `Migrations.RunAll` | dbos/internal/sysdb/sqlite_migrations.go:242-306 | any sequence of starts of any builds with crashes anywhere leaves what the starts' history says, its last version in the row, and tells completion and the verifier's verdict |
| `Migrations.AppliedAscends` | dbos/internal/sysdb/sqlite_migrations.go:296-304 | over all starts, each version is applied at most once and in ascending order |
| `Migrations.CompletedHasAllIff` | dbos/internal/sysdb/sqlite_migrations.go:242-306 | a completed start is accepted by its verifier, and has all of its versions exactly when those at or below the version it found were applied |
| `Migrations.PassedForGood` | dbos/internal/sysdb/sqlite_migrations.go:296-299 | a version the stored one has passed is never applied, whatever is started |
| `Migrations.InsertedVersionsAreLost` | dbos/internal/sysdb/sqlite_migrations.go:220-263 | after any build, one that inserts versions below its last completes, is accepted and never gets them |
| `Migrations.PrefixBuildsAreVerified` | dbos/internal/sysdb/sqlite_migrations.go:242-306 | if all builds are first parts of one list, so is what is applied, and each verifier accepts exactly the schemas that have all of its versions |
| `QueueSupervisor.Adjust` | dbos/queue.go:712-721 | the interval stays between base and max(base, 120 s); doubled on contention and cut by a tenth otherwise, up to the bounds |
| `QueueSupervisor.CalmReachesBase` | dbos/queue.go:712-721 | without contention the interval is back at the base after a while |
| `QueueSupervisor.ContentionReachesCeiling` | dbos/queue.go:712-721 | with lasting contention it reaches the ceiling |
| `QueueSupervisor.Reload` | dbos/queue.go:666-669 | a reloaded configuration pulls the interval into its bounds and leaves one inside them alone |
| `QueueSupervisor.QueueRunner.constructor` | dbos/queue.go:506-523 | no workers yet |
| `QueueSupervisor.QueueRunner.QueuesToListen` | dbos/queue.go:585-628 | the internal queue is always published; the others exactly when listed, or kept when listing fails, and listened to |
| `QueueSupervisor.QueueRunner.Spawn` | dbos/queue.go:562-569 | one new worker, with the published configuration and the base interval, for a queue that had no live one |
| `QueueSupervisor.QueueRunner.Tick` | dbos/queue.go:545-577 | afterwards every published queue has a live worker, and live workers were left alone |
| `QueueSupervisor.QueueRunner.Iterate` | dbos/queue.go:647-735 | a worker stops exactly when its queue is gone, takes over a reloaded configuration and adjusts its interval |
| `QueueSupervisor.OneWorkerPerQueue` | dbos/queue.go:530-578 | at most one live worker per queue name |

## Left out

- Executor.RunWorkflow: runs a step where it is issued, one of the schedules of Go, stops at a step that recorded nothing, and writes no outcome row; the replay and ownership machines cover these.
- DataSource.AttemptWithRetry: commits that answer truthfully, without the inner infrastructure retry; `TwoDatabases` covers the rest.
- DataSource.RunAsTransaction: one execution whose commits answer truthfully; `TwoDatabases` covers crashes, overlaps and lost answers.
- Savepoints.RunAttempts: a body that issues its own transaction control statements is not modelled.
- Audience.ListOpenGatesFor: the order of the inbox and its limit are not modelled.
- Streams.ReadStream: the wake-up channel only shortens waiting and is not modelled; offsets are taken as consecutive, as WriteStream assigns them.
- Retry.DelaysGrow: jitter and floating-point rounding are not modelled.
- QueueSupervisor.Adjust: floating-point rounding and jitter are not modelled.
- Migrations.Schema.RunMigrations: starts follow one another; two processes migrating at once are not modelled.
- Debounce.RunsWithLastInput: the checkpoints of a debounce call made inside a workflow are not modelled.
- Debounce.StartsByDeadline: SetWorkflowDelay, which moves any DELAYED row's start time without a cap, is not modelled.
- SuspensionProofs.WakeUpIsBounded: SetWorkflowDelay is not modelled here either.
- SuspensionProofs.LostIff: waits whose recheck and wake-ups ran without a failing statement; a recheck whose read fails parks without waking itself and is modelled as a crash of the waiter, which only `WakeUpIsBounded` covers.
- SuspensionProofs.ResultLostIff: the same.
- A GetResult with a timeout, which takes no step ID, and child workflows.
- Deleting, forking, importing, exporting, listing and aggregating workflows.
- Dequeue limits, priorities, partitions and rate limits of queues.
- Schedules' cron parsing, backfill and signature computation; real timers and time zones.
- The conductor, the admin server, the command line, codecs, SQL dialects, drivers and pools.
- A replayed gate recv does not return the delivery ID; only the answer itself is compared between executions.
