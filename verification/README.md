# The Scheduler's durable coordination protocol, in Dafny

The Scheduler lets any number of worker and publisher processes share one database. This project
models what they do to the shared tables as transactions, and the transactions as statements that
interleave, stop half-way and are retried, and proves what stays true. Each store and service is also
written as a class whose methods do what the Go methods do, statement by statement, and are proved
against the same transition functions the interleaving proofs are about.

How the parts fit together:

- `StoredTime.dfy` (over `TextOrder.dfy`; `Options.dfy` and `Multisets.dfy` are helpers) is the RFC 3339 text in which every instant is stored and
  compared: what survives the round trip, and exactly when comparing text is not comparing time.
- `RunTables.dfy` says what each committed transaction of the run store does; `RunEffects.dfy` tells what that
  leaves in every row and what it means for others, leases and retry times first; `RunInvariants.dfy` proves
  fencing, event-log, dead-letter and backlog properties over every history of them; `RunStatements.dfy`
  takes the transactions apart into statements under READ COMMITTED with row locks and proves that every
  run of the machine is such a history, and `QuietTransactions.dfy` that a transaction nobody comes between
  has its whole effect; `Windows.dfy` and `WindowStatements.dfy` are the accounting of
  schedule windows over histories and over interleaved statements, and `Scanning.dfy` the same accounting for
  workers whose every claim and jump comes from a scan;
  `RunStore.dfy` is the store class, with the due scan, and `DueScans.dfy` shows that a scan leaves nothing out; `Dispatching.dfy` is a worker's tick, with whatever
  other processes commit between its statements (`Turns.dfy` says whose turn each operation is), and
  `Heartbeats.dfy` and `Ticks.dfy` what it claims, how it keeps its leases and what its verdicts mean among them.
- `Definitions.dfy`, `DefinitionStore.dfy` and `Projection.dfy` are canonical content, the fenced
  publication store and the projection onto execution rows; `Publication.dfy` is the machine in which many
  services open sessions, publish, read and project at once, and `QuietPublication.dfy` what one of them gets
  done undisturbed; `Reconciliation.dfy` is one service, and
  `EmbeddedReconcile.dfy` the embedded one, whose projection commits statement by statement.
- `Plans.dfy`, `PlanProjection.dfy`, `PlanRaces.dfy`, `PlanOverlaps.dfy`, `Paging.dfy`, `PlanService.dfy` and
  `PlanOperations.dfy` are scheduled plans: decisions, projection and recovery, races between callers whose every statement
  commits on its own, what overlapping projections do to a row, keyset paging, the service class, and each operation field by field.
- `Receipts.dfy` and `ReceiptRaces.dfy` are command receipts; `Lifecycle.dfy` is the worker's start, exit
  and close.

Recurrence arithmetic, misfire rules, the calendar and the retry delay come from other packages. They are
parameters here: `Calendar` is any successor function that moves strictly forward on recurring schedules
(`Lawful`), `Misfire` any rule whose windows follow one another from the cursor and fit the room left
(`LawfulMisfire`). SHA-256 digests are modelled by what they digest (`RunId`, `Content`, `Digest`), that is,
as free of collisions. What a database query may return is a predicate (`AnswersDue`, `AnswersRetries`,
`AnswersDefinitions`).
A claimed run carries a lease worth renewing exactly when it was read back with an owner (`Dispatching.Beating`).
Time, outcomes of dispatch, failures of statements and the order of everything are inputs of the machines.

Where the code and its comments or documentation part, the model follows the code:

- The state machine's `failed` status is read by `Retry` and written by nothing (`RunInvariants.RowOk`).
- A dead letter is inserted plainly under a key of runtime and run, so a requeued run that fails for the
  last time again cannot be recorded: `RunInvariants.FailRecordedExactly` is the exact condition and
  `RunInvariants.RequeuedRunCannotFail` the consequence; `RunInvariants.RequeuedRunGetsStuck` is a history
  from empty tables to such a run.
- Stored times are compared as text, which misorders some instants inside one second:
  `StoredTime.TextOrderExact` is the exact condition, `StoredTime.TextMisordersInsideASecond` an instance.
- A plan is projected by up to four statements that commit one by one, and the first compares revisions
  for inequality only. Of two projections that follow one another the last decides, even when it is the
  older revision (`PlanProjection.LateProjectionWins`, and in a run `PlanOverlaps.OlderRowUnderNewerPlan`).
  Over a whole run a plan's row never goes back to an earlier revision if and only if no projection, at its
  first statement, finds the row at a later revision than its own (`PlanOverlaps.NeverLoweredExactly`).
  When they overlap, the refresh of one can land on the row of the other, for it does not look at the
  revision: the row then carries one revision and the definition and enabled flag of another. That is
  exactly when a row stops being true to its revision (`PlanOverlaps.FaithfulThroughoutExactly`), it takes a
  projection of another revision between the first statement and the refresh
  (`PlanOverlaps.OverlapNeedsAnotherProjection`), and it happens (`PlanOverlaps.OverlapUndoesResume`).
  Recovery restores revision and definition of every row, but leaves a row disabled that an overlap has
  disabled at the stored revision (`PlanRaces.RecoveryEndsEveryRace`).
- A manual trigger claims a run without moving the cursor. It keeps the window accounting exactly when its
  instant is not itself a window (`Windows.ManualRunKeepsPartitionExactly`); otherwise that window can never
  be claimed by the schedule (`Windows.RunAtCursorBlocksClaims`; `Windows.ManualRunAtCursor` reaches it). A run at
  the cursor is exactly what keeps claims from moving it (`Windows.ClaimsMoveCursorExactly`).
- A command whose claimant stops before completing leaves its key executing for ever
  (`ReceiptRaces.AbandonedForever`; `ReceiptRaces.ClaimGetsAbandoned` is such a run); a claim that
  somebody still holds can be completed (`ReceiptRaces.CompletableExactly`).
- The embedded reconcile disables every definition in one statement and enables those of the snapshot in the
  next. One that stops between the two leaves nothing scheduled until another reconcile
  (`EmbeddedReconcile.StoppedHalfway`); at every other moment a reconciled definition is enabled unless
  somebody has disabled it since (`EmbeddedReconcile.EnabledExactly`).
- A tick counts windows it could not claim as processed (`Ticks.ProcessedCountsNoErrors`).
- A run cancelled between two heartbeats is still delivered downstream; only the recording of it is refused
  (`Ticks.CancelledWhileOut`).

## Model

| member | source | states |
|---|---|---|
| StoredTime.RoundTrip | internal/infrastructure/persistence/database/scheduler/run_store.go:945-951 | parsing the stored text gives the instant back if and only if its year has four digits, for every nanosecond instant |
| StoredTime.TextIsRfc3339 | internal/infrastructure/persistence/database/scheduler/run_store.go:945-951 | the stored text is the RFC 3339 UTC form: fields in their places, at most nine fractional digits without a zero at the end, no fraction at whole seconds |
| StoredTime.KnownDates | internal/infrastructure/persistence/database/scheduler/run_store.go:945-955 | the calendar is the Gregorian one at the epoch, at leap days and at year 10000 |
| StoredTime.FormatInjective | internal/infrastructure/persistence/database/scheduler/run_store.go:945-955 | equal stored texts mean equal instants before year 10000, so cursor equality on text is equality of such instants |
| StoredTime.TextOrderExact | internal/infrastructure/persistence/database/scheduler/run_store.go:945-951 | text order is time order exactly when the later instant lies outside the shadow of the earlier one |
| StoredTime.DifferentSecondsInOrder | internal/infrastructure/persistence/database/scheduler/run_store.go:945-951 | instants in different whole seconds are stored in order |
| StoredTime.StoredAtMostExact | internal/infrastructure/persistence/database/scheduler/run_store.go:344-345 | what the queries' comparison of two stored times decides, for every pair of instants before year 10000 |
| StoredTime.DeadlineWithinOneSecond | internal/infrastructure/persistence/database/scheduler/run_store.go:530 | a stored deadline is never judged passed a full second early and always is a full second late |
| StoredTime.TextMisordersInsideASecond | internal/infrastructure/persistence/database/scheduler/run_store.go:945-951 | a concrete pair of instants that text puts in the wrong order |
| RunInvariants.InvAlways | internal/infrastructure/persistence/database/scheduler/run_store.go:459-740 | the run invariant (token = attempt + cancelled, owner exactly while leased, handles never ahead, completions distinct, events match rows) holds after every history |
| RunInvariants.LostLeaseChangesNothing | internal/infrastructure/persistence/database/scheduler/run_store.go:832-854 | a renew, accept or fail changes nothing when its token is no longer the row's, or the row is not leased to its owner |
| RunInvariants.OldHandlesStayLost | internal/infrastructure/persistence/database/scheduler/run_store.go:529-545 | once a run is taken over or cancelled, no renew, accept or fail with a handle read before ever changes anything again, after any history |
| RunInvariants.TokenCompletesOnce | internal/infrastructure/persistence/database/scheduler/run_store.go:832-854 | over any history at most one accept or fail takes effect per run and fencing token |
| RunInvariants.FailDecidesOnTrueAttempt | internal/infrastructure/persistence/database/scheduler/run_store.go:570-620 | a fail whose lease is live decides retry or dead letter on the row's own attempt count |
| RunInvariants.FinishedStaysFinished | internal/infrastructure/persistence/database/scheduler/run_store.go:713-740 | a succeeded or cancelled run row never changes again |
| RunInvariants.EventLogDecides | internal/infrastructure/persistence/database/scheduler/run_store.go:921-929 | a run's events alone determine its status class; an open dead letter means dead_letter, dead_letter means a dead-letter row, and no run is dead-lettered twice |
| RunInvariants.DeadLetterStays | internal/infrastructure/persistence/database/schema/migrations.go:44-47 | a run's dead-letter row is never removed |
| RunInvariants.FailRecordedExactly | internal/infrastructure/persistence/database/scheduler/run_store.go:570-620 | a fail with a handle the worker has read is recorded if and only if its lease is live and it is not the last attempt of a run that already has a dead letter |
| RunInvariants.RequeuedRunCannotFail | internal/infrastructure/persistence/database/scheduler/run_store.go:607-615 | once a run was dead-lettered, a later last failure changes nothing, after any history |
| RunInvariants.RequeuedRunGetsStuck | internal/infrastructure/persistence/database/scheduler/run_store.go:607-615 | from empty tables, claim, last failure, retry and take-over lead to a live handle whose next failure cannot be recorded |
| RunInvariants.BacklogNeverExceeds | internal/infrastructure/persistence/database/scheduler/run_store.go:69-116 | leased plus retrying runs never exceed the common limit, over any history of committed transactions |
| RunInvariants.TakeOverWithinOneSecond | internal/infrastructure/persistence/database/scheduler/run_store.go:529-545 | a lease is not taken over a full second before it ends, and can be from a full second after |
| RunEffects.ClaimLeases | internal/infrastructure/persistence/database/scheduler/run_store.go:459-527 | a claim takes effect exactly on a window without a run, with room in the backlog and the cursor in place; the run is this worker's first attempt, leased until now plus the time asked for, five minutes if none is |
| RunEffects.ClaimMovesCursor | internal/infrastructure/persistence/database/scheduler/run_store.go:895-917 | the cursor of a claimed definition goes where the offer says, else where the calendar says; a one-time definition stays and is disabled |
| RunEffects.TakeOverWaits | internal/infrastructure/persistence/database/scheduler/run_store.go:529-545 | a run whose lease has not ended and whose retry is not due is not taken over |
| RunEffects.TakeOverLeases | internal/infrastructure/persistence/database/scheduler/run_store.go:529-545 | a take-over is one attempt more under the next token, leased to the taker until now plus the time asked for, five minutes if none is |
| RunEffects.RenewExtends | internal/infrastructure/persistence/database/scheduler/run_store.go:547-565 | the holder's renewal sets the end of the lease and nothing else, anybody else's nothing |
| RunEffects.LeaseIsExclusive | internal/infrastructure/persistence/database/scheduler/run_store.go:529-545 | until a second before a lease ends, over any history without its holder's own operations and a cancellation, the run's row does not change |
| RunEffects.ClaimIsExclusive | internal/infrastructure/persistence/database/scheduler/run_store.go:459-527 | so a claim keeps its run from all others for the lease time it asked for |
| RunEffects.TakeOverIsExclusive | internal/infrastructure/persistence/database/scheduler/run_store.go:529-545 | and so does a take-over |
| RunEffects.RenewalIsExclusive | internal/infrastructure/persistence/database/scheduler/run_store.go:547-565 | and a renewal, until the end it sets |
| RunEffects.AcceptRecords | internal/infrastructure/persistence/database/scheduler/run_store.go:566-569 | an acceptance under a live lease leaves the run succeeded with its receipt, nobody's, with one event |
| RunEffects.FailureRecords | internal/infrastructure/persistence/database/scheduler/run_store.go:570-620 | a failure under a live lease leaves the run waiting for exactly the retry time given below the limit, and dead with an open letter at it; a second letter is never written |
| RunEffects.RetryRequeues | internal/infrastructure/persistence/database/scheduler/run_store.go:661-709 | a dead-lettered run with room in the backlog is due at once and its letter resolved |
| RunEffects.RetryComesDue | internal/infrastructure/persistence/database/scheduler/run_store.go:529-545 | a waiting run can be taken over at its retry time and from a second after it, and not a second before |
| RunEffects.CancelEnds | internal/infrastructure/persistence/database/scheduler/run_store.go:713-740 | a leased or waiting run that is cancelled is nobody's, has no retry time, and its token is raised |
| RunEffects.LetterResolvesOnce | internal/infrastructure/persistence/database/scheduler/run_store.go:797-823 | an open letter is resolved once, with its reason kept |
| RunEffects.JumpMovesCursor | internal/infrastructure/persistence/database/scheduler/run_store.go:437-457 | a jump moves exactly the cursor it expects to the window given, and disables the definition exactly when told to |
| RunEffects.RescheduleSetsCursor | internal/infrastructure/persistence/database/scheduler/run_store.go:318-338 | a reschedule sets the cursor of a known definition to the instant given |
| RunStatements.CommitIsWholeTransaction | internal/infrastructure/persistence/database/scheduler/run_store.go:459-527 | committing what a transaction's statements wrote is the whole transaction applied at the moment of the commit |
| RunStatements.EveryRunIsAHistory | internal/infrastructure/persistence/database/scheduler/run_store.go:459-740 | however statements of concurrent transactions interleave, block, abort or stop, the committed tables are those of the committed transactions one after another |
| RunStatements.BacklogNeverExceedsUnderInterleaving | internal/infrastructure/persistence/database/scheduler/run_store.go:69-116 | the backlog bound holds at every committed state although claim and retry count and write in separate statements and the others do not take the guard row |
| RunStatements.InvariantUnderInterleaving | internal/infrastructure/persistence/database/scheduler/run_store.go:459-740 | the run invariant holds at every committed state of every interleaving |
| QuietTransactions.TransactionAlone | internal/infrastructure/persistence/database/scheduler/run_store.go:459-740 | a transaction that no other comes between ends, statement by statement, with the whole effect of its operation |
| Windows.WindowsStayPartitioned | internal/infrastructure/persistence/database/scheduler/run_store.go:340-379 | under any interleaving of workers with offers of any age, every window from the first cursor on has a run, or was jumped, or is ahead: exactly one of the three |
| WindowStatements.WindowsPartitionedUnderInterleaving | internal/infrastructure/persistence/database/scheduler/run_store.go:459-527 | the same accounting holds at every committed state when the statements of concurrent transactions interleave and stop anywhere |
| Windows.CursorNeverMovesBack | internal/infrastructure/persistence/database/scheduler/run_store.go:895-917 | no step of such a history moves the cursor back |
| Windows.ManualRunKeepsPartitionExactly | internal/application/scheduler/service.go:331-348 | a manual run that takes effect keeps the accounting if and only if its instant is not a window of the schedule |
| Windows.RunAtCursorBlocksClaims | internal/infrastructure/persistence/database/scheduler/run_store.go:475-498 | with a run already at the cursor's window, no history of claims and run operations ever moves the cursor; only a jump, a reschedule or a reconcile can |
| Windows.ClaimsMoveCursorExactly | internal/infrastructure/persistence/database/scheduler/run_store.go:459-527 | claims and run operations can move the cursor of an enabled recurring definition if and only if no run exists at the cursor's window |
| Windows.ManualRunAtCursor | internal/application/scheduler/service.go:331-348 | a manual trigger at the instant of the cursor is claimed, and the scheduled claim of that window then has no effect |
| Windows.OneTimeWindowIsSpent | internal/infrastructure/persistence/database/scheduler/run_store.go:895-917 | a claimed one-time window disables its definition for every later history without a definition write |
| Windows.OffersAreGenuine | internal/infrastructure/persistence/database/scheduler/run_store.go:363-378 | every window of a misfire resolution is offered with the cursor it starts from and its own successor |
| Windows.BatchLeavesCursor | internal/infrastructure/persistence/database/scheduler/run_store.go:363-378 | claiming the first k offers of a batch claims exactly those k windows and leaves the cursor at the first unclaimed one, or at CursorAfter when all are claimed |
| Windows.WindowsIncrease | internal/infrastructure/persistence/database/scheduler/run_store.go:363-378 | the windows of a batch are strictly increasing |
| RunStore.Store.ConfigureTriggerBacklogLimit | internal/infrastructure/persistence/database/scheduler/run_store.go:53-61 | limits from 1 to 1000000 are taken, others refused without effect |
| RunStore.Store.AdvanceCursor | internal/infrastructure/persistence/database/scheduler/run_store.go:895-917 | the cursor moves exactly when row, enabled flag and expected cursor match, to the given or computed successor |
| RunStore.Store.Claim | internal/infrastructure/persistence/database/scheduler/run_store.go:459-527 | a claim is the claim or take-over transaction on the tables, rolled back when the cursor has moved, and says which; a run that was there is returned as it is when read back, after whatever others committed in between |
| RunStore.Store.TakeExpired | internal/infrastructure/persistence/database/scheduler/run_store.go:529-545 | an expired lease or due retry is taken with token and attempt raised, nothing else is; the run returned is read back in a second statement, after whatever others committed in between |
| RunStore.Store.Renew | internal/infrastructure/persistence/database/scheduler/run_store.go:547-565 | only a live lease is extended |
| RunStore.Store.Accept | internal/infrastructure/persistence/database/scheduler/run_store.go:566-569 | only a live lease is completed, with its receipt and event |
| RunStore.Store.Fail | internal/infrastructure/persistence/database/scheduler/run_store.go:570-620 | the failure transaction, after the definition's limit was read in an earlier statement and others may have committed: retry below the limit, dead letter at it, all undone when a dead letter is already there |
| RunStore.Store.Retry | internal/infrastructure/persistence/database/scheduler/run_store.go:661-709 | a dead-lettered run is requeued under the backlog limit and its dead letter resolved |
| RunStore.Store.Cancel | internal/infrastructure/persistence/database/scheduler/run_store.go:713-740 | a pending run is cancelled and its token raised, others refused |
| RunStore.Store.ResolveDeadLetter | internal/infrastructure/persistence/database/scheduler/run_store.go:797-823 | an open dead letter is resolved once |
| RunStore.Store.FastForwardMisfire | internal/infrastructure/persistence/database/scheduler/run_store.go:437-457 | the misfire jump is a compare-and-swap on the cursor |
| RunStore.Store.Reschedule | internal/infrastructure/persistence/database/scheduler/run_store.go:318-338 | only the cursor of a known definition is set |
| RunStore.Store.ScanDue | internal/infrastructure/persistence/database/scheduler/run_store.go:350-379 | the scan offers and fast-forwards row by row while room is left, with others committing before each row is decided |
| RunStore.Store.Due | internal/infrastructure/persistence/database/scheduler/run_store.go:340-413 | due windows first, then retries and expired leases, as the two queries answer, in the room left under the limit, 25 when none is given; the worker's own writes are the recorded jumps, between whatever others commit |
| RunStore.DueWithinLimit | internal/infrastructure/persistence/database/scheduler/run_store.go:350-379 | a scan never offers more windows than the limit |
| RunStore.ScanStaysGenuine | internal/infrastructure/persistence/database/scheduler/run_store.go:350-379 | whatever a scan offers or skips is a lawful step for the window accounting however late it is used |
| RunStore.RetriesOffered | internal/infrastructure/persistence/database/scheduler/run_store.go:381-413 | with room to spare, every run due for retry or take-over whose definition is known is offered at its own window with a zero cursor and the definition read for it, and nothing else is |
| RunStore.ScanTurnsAreSkips | internal/infrastructure/persistence/database/scheduler/run_store.go:350-379 | among the turns of a scan, the worker's own are jumps its resolutions ask for |
| DueScans.WindowsOffered | internal/infrastructure/persistence/database/scheduler/run_store.go:350-379 | a scan offers every window of every row it has room for, in row order, each from its own cursor and the last with the cursor after the batch, and stops early only when there is no room left |
| DueScans.JumpsMadeExactly | internal/infrastructure/persistence/database/scheduler/run_store.go:350-379 | its own writes are exactly the jumps that the rows it decided ask for |
| DueScans.NothingLeftOut | internal/infrastructure/persistence/database/scheduler/run_store.go:340-413 | with room to spare, what is offered is all of these windows and then every run that may be retried or taken over |
| Scanning.WindowsPartitionedByScanning | internal/infrastructure/persistence/database/scheduler/run_store.go:340-413 | the window accounting holds at every committed state when workers only act on what some scan offered them, however old, in any interleaving of statements with crashes; nothing is assumed of the claims |
| Scanning.DueWindowIsRun | internal/infrastructure/persistence/database/scheduler/run_store.go:340-527 | from any state with nothing in flight, scanning a definition whose cursor is to be run and taking the offer up leaves its run leased to the worker and its cursor moved on |
| Scanning.UnclaimedIsPartitioned | internal/infrastructure/persistence/database/scheduler/run_store.go:168-178 | a definition at its first cursor and without runs starts the accounting |
| RunStore.Store.ReplaceRevision | internal/infrastructure/persistence/database/scheduler/run_store.go:134-147 | the first statement of a reconcile: a row of another revision gets revision, definition, enabled flag and cursor |
| RunStore.Store.RefreshRow | internal/infrastructure/persistence/database/scheduler/run_store.go:148-167 | the refresh: definition and enabled flag of a row of the same source, whatever its revision; a plan's row is never enabled by it |
| RunStore.Store.InsertRow | internal/infrastructure/persistence/database/scheduler/run_store.go:168-178 | the insert of a row, which an existing key refuses |
| Projection.StatementsAlone | internal/infrastructure/persistence/database/scheduler/run_store.go:126-188 | the statements of a reconcile that nobody comes between have the effect of the whole |
| RunStore.Store.ReconcileWith | internal/infrastructure/persistence/database/scheduler/run_store.go:126-188 | one definition into one row by the statements above, undisturbed: new revision, same revision, new row, or a key of the other source |
| RunStore.Store.DisableMissing | internal/infrastructure/persistence/database/scheduler/run_store.go:194-215 | two statements: all runtime rows disabled, then the active ones enabled, the second left out when none is |
| RunStore.Store.ApplyDefinitions | internal/infrastructure/persistence/database/scheduler/run_store.go:248-275 | the loop and the disabling of missing rows are one all-or-nothing snapshot application |
| Projection.ApplyRefinesProjection | internal/infrastructure/persistence/database/scheduler/run_store.go:248-275 | applying a snapshot gives row for row what the snapshot stands for, and fails exactly when an enabled definition takes a plan's key |
| Projection.ApplyEnablesExactly | internal/infrastructure/persistence/database/scheduler/run_store.go:194-215 | afterwards the enabled runtime rows are exactly the snapshot's enabled definitions; plan rows are untouched; a kept revision keeps its cursor |
| Projection.ReconcileTwice | internal/infrastructure/persistence/database/scheduler/run_store.go:126-188 | reconciling a definition again changes nothing |
| Projection.SameRevisionKeepsCursor | internal/infrastructure/persistence/database/scheduler/run_store.go:149-164 | a reconcile at the stored revision keeps the cursor and touches no other row |
| Projection.SnapshotRowExactly | internal/infrastructure/persistence/database/scheduler/run_store.go:248-275 | an enabled definition's row after a snapshot, field by field: a new or changed revision starts at the first window of its schedule or at its own first time if that is earlier |
| Projection.OtherRowsExactly | internal/infrastructure/persistence/database/scheduler/run_store.go:194-215 | every definition the snapshot does not enable is disabled at its revision, and plans are left alone |
| Definitions.EncodeDefinitions | internal/infrastructure/persistence/database/scheduler/definition_store.go:436-467 | refused exactly when a key repeats, otherwise key order and the digest of that |
| Definitions.ContentIsUpToOrder | internal/infrastructure/persistence/database/scheduler/definition_store.go:436-467 | two snapshots have one content if and only if they hold the same definitions, in whatever order |
| Definitions.CanonicalIsKeyOrder | internal/infrastructure/persistence/database/scheduler/definition_store.go:436-467 | the canonical form is the definitions that were there, in key order |
| Definitions.PublishThenRead | internal/infrastructure/persistence/database/scheduler/definition_store.go:123-170 | disabling all rows and upserting a snapshot, then reading, gives the snapshot in key order whatever rows there were |
| DefinitionStore.DefinitionStore.BeginSession | internal/infrastructure/persistence/database/scheduler/definition_store.go:172-249 | a session gets the next generation up to the largest, and what was published stays |
| DefinitionStore.DefinitionStore.AcceptFenced | internal/infrastructure/persistence/database/scheduler/definition_store.go:293-404 | a submission is applied, replayed or rejected by fence, generation, revision and content, and only applying moves the cursor |
| DefinitionStore.OpenSessionDisposition | internal/infrastructure/persistence/database/scheduler/definition_store.go:344-374 | under the open fence, exactly when a submission is applied, a replay, stale or a conflict, by session, revision and content |
| DefinitionStore.OtherSubmissionsRejected | internal/infrastructure/persistence/database/scheduler/definition_store.go:344-353 | a submission without a session, without a positive revision or under another fence is rejected, and why |
| DefinitionStore.DefinitionStore.SyncDefinitions | internal/infrastructure/persistence/database/scheduler/definition_store.go:61-170 | validation order, disposition and rows of a publication; anything but applying leaves all rows |
| DefinitionStore.DefinitionStore.DefinitionSnapshot | internal/infrastructure/persistence/database/scheduler/definition_store.go:516-601 | a read returns the canonical definitions or reports inconsistency from snapshot row, rows, versions and cursor, in whatever order the rows arrive |
| DefinitionStore.CanonicalTwice | internal/infrastructure/persistence/database/scheduler/definition_store.go:436-467 | canonical order is stable |
| DefinitionStore.ReadExactly | internal/infrastructure/persistence/database/scheduler/definition_store.go:516-601 | exactly when a read is inconsistent, and what it returns otherwise |
| DefinitionStore.VersionsExactly | internal/infrastructure/persistence/database/scheduler/definition_store.go:516-601 | what the enabled rows say of the schema version: none without rows, one if they agree, mixed exactly if two do not |
| Publication.RunInv | internal/infrastructure/persistence/database/scheduler/definition_store.go:107-170 | the publication invariant holds in every run and cursor and projection only move forward |
| Publication.PublicationsOnlyAdvance | internal/infrastructure/persistence/database/scheduler/definition_store.go:338-404 | publications strictly increase in (generation, revision), and the cursor's generation never exceeds the open one |
| Publication.AcceptsOnlyOpenSession | internal/infrastructure/persistence/database/scheduler/definition_store.go:345-353 | whatever a step accepts carries the fence of the session open at that moment |
| Publication.RetiredSessionsStayRetired | internal/infrastructure/persistence/database/scheduler/definition_store.go:172-249 | after a session is opened nothing of an older one is accepted, in any run |
| Publication.AcceptedRevisionsAreUnique | internal/infrastructure/persistence/database/scheduler/definition_store.go:358-371 | two accepted snapshots of one generation and revision have one fence and content |
| Publication.ReadsAreNeverTorn | internal/infrastructure/persistence/database/scheduler/definition_store.go:516-601 | a read made of separate statements between publications returns exactly one published (fence, revision, content) with its definitions, or an error |
| Publication.ReadsAreNeverUnfenced | internal/infrastructure/persistence/database/scheduler/definition_store.go:590-600 | in the shared deployment no read returns content without a fence |
| Publication.QuietReadReturnsLast | internal/infrastructure/persistence/database/scheduler/definition_store.go:516-601 | a read nobody disturbs returns the last publication |
| Publication.MissedLockNeverProjects | internal/infrastructure/persistence/database/scheduler/run_store.go:278-316 | a projection whose lock update matched no row never gets to write |
| Publication.ProjectionNeverRegresses | internal/infrastructure/persistence/database/scheduler/run_store.go:217-276 | over any run the cursor of the last committed projection never goes back |
| Publication.ProjectionIsCanonical | internal/infrastructure/persistence/database/scheduler/run_store.go:222-276 | every committed projection is of the canonical cursor of its moment and makes the rows exactly the projection of its definitions |
| Publication.ReconcileSuccessIsLasting | internal/application/scheduler/service.go:153-231 | once a publisher's reconcile succeeds, cursor and projection are at or beyond what it submitted, then and after anything else |
| QuietPublication.SessionOpens | internal/infrastructure/persistence/database/scheduler/definition_store.go:172-249 | whoever saw the last generation opens the next one and keeps what is published; anybody else opens nothing |
| QuietPublication.ReconcilesAlone | internal/application/scheduler/service.go:153-231 | from any reachable state in which nobody holds the row, a new submission of the open session is published, read back and projected when nobody comes between, and the rows are what its definitions project |
| Reconciliation.UnreservedSnapshotApplies | internal/application/scheduler/service.go:157-161 | because plan keys are reserved, applying a snapshot to rows that keep to the namespace always succeeds and keeps them so |
| Reconciliation.PlanProjectionKeepsToNamespace | internal/application/scheduler/scheduled_plans.go:371-374 | plans are projected under reserved keys only |
| Reconciliation.SyncedIsRead | internal/infrastructure/persistence/database/scheduler/definition_store.go:516-601 | after an applied or replayed publication a read returns what was submitted, under its cursor |
| Reconciliation.ServesByKey | internal/application/scheduler/service.go:237-283 | the definitions a service serves are those of the snapshot, by key, and no other |
| Reconciliation.SortingKeepsActive | internal/application/scheduler/service.go:273-277 | sorting the active keys does not change what is disabled |
| Reconciliation.Service.ApplyDefinitionSnapshot | internal/infrastructure/persistence/database/scheduler/run_store.go:222-276 | a fenced snapshot is applied only while it is the canonical one |
| Reconciliation.Service.ApplyUnfenced | internal/application/scheduler/service.go:237-277 | the embedded projection equals the all-or-nothing one when it succeeds, and an error leaves the rows reconciled so far |
| EmbeddedReconcile.ReconcileLands | internal/application/scheduler/service.go:237-277 | with claims, jumps, reschedules and plan projections between any two statements, the embedded projection of an acceptable snapshot is never refused, and when it is through every enabled definition has its row at its revision and the rows of all others are disabled |
| EmbeddedReconcile.EnabledExactly | internal/application/scheduler/service.go:237-277 | at every moment of every such run, the row of a definition already reconciled is enabled if and only if nobody has disabled it since and the projection is not between its last two statements |
| EmbeddedReconcile.StoppedHalfway | internal/infrastructure/persistence/database/scheduler/run_store.go:194-215 | a projection that stops between those two statements leaves every definition disabled, whatever others write |
| EmbeddedReconcile.AloneIsApply | internal/application/scheduler/service.go:237-277 | undisturbed, the statements amount to the application of the whole snapshot, and pass through a state with every definition disabled |
| EmbeddedReconcile.RunStoreMayWrite | internal/infrastructure/persistence/database/scheduler/run_store.go:895-917 | what any transaction of the run store does to the definition rows is one of the writes allowed in between |
| EmbeddedReconcile.PlanStatementsMayWrite | internal/infrastructure/persistence/database/scheduler/run_store.go:126-188 | so is every statement of a plan's projection |
| Reconciliation.Service.Converge | internal/application/scheduler/service.go:207-231 | an undisturbed converge projects the canonical snapshot, or says why not |
| Reconciliation.Service.ReconcileSnapshot | internal/application/scheduler/service.go:153-205 | an undisturbed reconcile succeeds exactly for an acceptable submission, and then rows and served definitions are those submitted |
| Plans.NormalizeSettles | internal/application/scheduler/scheduled_plans.go:279-325 | normalising twice is normalising once, and the order of allowed actions does not survive it |
| Plans.StoreIsNextRevision | internal/application/scheduler/scheduled_plans.go:114-233 | a mutation that stores, stores the next revision, keeps identity and creation time, and deletes only as Delete |
| Plans.RepeatIsReplay | internal/application/scheduler/scheduled_plans.go:136-141 | repeating a stored mutation reports the stored plan as a replay |
| Plans.CreateNeverRevives | internal/infrastructure/persistence/database/scheduler/scheduled_plan_store.go:31-74 | a create on a known id changes nothing and reports the plan as it now is, deleted included, or refuses |
| PlanOperations.NormalFormExactly | internal/application/scheduler/scheduled_plans.go:279-325 | the stored body is all that was sent, with the actions in text order and the values the policy left out filled in, and no other body is |
| PlanOperations.UpdateExactly | internal/application/scheduler/scheduled_plans.go:114-154 | an update stores the normal form of what was sent as the next revision and keeps the status; it is a replay exactly when the next revision holds that body; otherwise exactly which refusal |
| PlanOperations.ChangeStatusExactly | internal/application/scheduler/scheduled_plans.go:200-233 | pause and resume change the status only, exactly from which statuses, and exactly which refusal or replay otherwise |
| PlanOperations.DeleteExactly | internal/application/scheduler/scheduled_plans.go:164-198 | delete keeps the plan as a tombstone at the next revision, and exactly which refusal or replay otherwise |
| PlanOperations.CreateExactly | internal/application/scheduler/scheduled_plans.go:34-67 | a create stores the first revision of a new plan with the normal form of what was sent, and answers a known one with the stored plan for the same request only |
| PlanOperations.PlanRowExactly | internal/application/scheduler/scheduled_plans.go:355-401 | a plan's row after its projection, field by field: a new or changed revision starts at its time or at the first window after its last change, enabled as the plan is |
| PlanOperations.UndisturbedCreator | internal/application/scheduler/scheduled_plans.go:34-67 | a creator of the racing machine whom nobody comes between does exactly what a create does |
| PlanProjection.DecimalInjective | internal/application/scheduler/scheduled_plans.go:373 | revision texts are equal only for equal revisions |
| PlanProjection.PlanKeyInjective | internal/application/scheduler/scheduled_plans.go:372 | plan keys are equal only for equal ids |
| PlanProjection.RecoveryRestores | internal/application/scheduler/scheduled_plans.go:327-353 | from any rows, projecting every plan fails exactly when one cannot be projected, and otherwise gives each plan its row and leaves all others |
| PlanProjection.RecoveryNeverOverclaims | internal/infrastructure/persistence/database/scheduler/run_store.go:149-164 | afterwards each row is at its plan's revision and enabled only if the plan is; at an unchanged revision the cursor is kept and a spent row stays spent |
| PlanProjection.RecoveringTwice | internal/application/scheduler/scheduled_plans.go:327-353 | recovering a recovered projection changes nothing |
| PlanProjection.LateProjectionWins | internal/infrastructure/persistence/database/scheduler/run_store.go:134-146 | of two projections of a plan, one after the other, the last decides, even when it is the older revision; projecting the newer again repairs it |
| PlanRaces.RunInv | internal/application/scheduler/scheduled_plans.go:34-233 | the plan invariant holds in every run of concurrent callers, each statement of a projection a step of its own, and version histories only grow |
| PlanRaces.OneWinnerPerRevision | internal/infrastructure/persistence/database/scheduler/scheduled_plan_store.go:138-179 | revisions count up by one per stored write, and each replaced revision has exactly one winner |
| PlanRaces.DeletedIsForever | internal/application/scheduler/scheduled_plans.go:164-198 | no run of creates, replays and mutations changes a deleted plan |
| PlanRaces.AnswersAreStored | internal/infrastructure/persistence/database/scheduler/scheduled_plan_store.go:226-264 | every plan a caller is answered with is exactly a version that was stored |
| PlanRaces.WinnerReadsItsWriteOrLater | internal/infrastructure/persistence/database/scheduler/scheduled_plan_store.go:166-179 | a winning writer reads back its own version or a later one |
| PlanRaces.RowsComeFromVersions | internal/infrastructure/persistence/database/scheduler/run_store.go:126-188 | however the statements of projections interleave, an execution row is at the revision of some version its plan has had, enabled only if that version was, with the definition of some version |
| PlanRaces.RecoveryEndsEveryRace | internal/application/scheduler/scheduled_plans.go:327-353 | after any run, recovery brings every row to its plan's revision and definition and leaves none without a stored plan; a row is enabled exactly if its plan is and it was not already at that revision and disabled |
| PlanOverlaps.StepFaithfulExactly | internal/infrastructure/persistence/database/scheduler/run_store.go:126-188 | a row true to the version of its revision (definition and, unless spent, enabled flag) stays true in a step if and only if the step is not a refresh by a projection of another revision |
| PlanOverlaps.FaithfulThroughoutExactly | internal/infrastructure/persistence/database/scheduler/run_store.go:126-188 | a plan's row is true to its revision throughout a run if and only if no step of the run is such a refresh |
| PlanOverlaps.StepGoesBackExactly | internal/infrastructure/persistence/database/scheduler/run_store.go:134-147 | a step leaves a plan's row at an earlier revision if and only if it is the first statement of a projection, of a plan with a schedule, that finds the row at a later revision than its own |
| PlanOverlaps.NeverLoweredExactly | internal/infrastructure/persistence/database/scheduler/run_store.go:134-147 | over any run, the row of a plan is never at an earlier revision than it has been if and only if no step of the run is such a statement |
| PlanOverlaps.OverlapNeedsAnotherProjection | internal/infrastructure/persistence/database/scheduler/run_store.go:148-167 | such a refresh happens only after a projection of another revision committed between the first statement of its own and it |
| PlanOverlaps.OlderRowUnderNewerPlan | internal/application/scheduler/scheduled_plans.go:200-233 | a run from the start that leaves an enabled row at revision one under a plan paused at revision two |
| PlanOverlaps.OverlapUndoesResume | internal/infrastructure/persistence/database/scheduler/run_store.go:148-167 | a run from the start after which an enabled plan's row, at its own revision, is disabled and has the older definition, and projecting the plan again does not enable it |
| Paging.CursorAdvances | internal/application/scheduler/scheduled_plans.go:344-351 | a full page moves the cursor strictly forward and leaves behind it exactly the rest |
| Paging.PagesAreComplete | internal/infrastructure/persistence/database/scheduler/scheduled_plan_store.go:81-133 | following cursors shows everything behind the first one once, in order, for any page size |
| PlanService.ListingShowsEveryPlanOnce | internal/application/scheduler/scheduled_plans.go:88-112 | an owner who follows the cursors of a listing sees each listable plan exactly once |
| PlanService.RepeatedMutation | internal/application/scheduler/scheduled_plans.go:114-233 | repeating a mutation that was stored and projected, after any moves of cursors, changes neither plans nor rows and answers with the same plan as a replay |
| PlanService.UndisturbedCaller | internal/application/scheduler/scheduled_plans.go:114-233 | a caller of the racing machine whom nobody comes between does exactly what the operation says |
| PlanService.HydrateThen | internal/application/scheduler/scheduled_plans.go:333-352 | hydrating page after page is hydrating in one pass |
| PlanService.HydrationRecovers | internal/application/scheduler/scheduled_plans.go:327-353 | a pass completes exactly when every plan can be projected, and then recovers all rows and would change nothing again |
| PlanService.PlanStore.Create | internal/application/scheduler/scheduled_plans.go:34-67 | insert or keep, compare, project: stored rows, states and receipt |
| PlanService.PlanStore.ReplacePlan | internal/infrastructure/persistence/database/scheduler/scheduled_plan_store.go:138-179 | the write happens exactly under the expected revision and owner, and is read back |
| PlanService.PlanStore.Update | internal/application/scheduler/scheduled_plans.go:114-154 | the update's decision, write, projection and receipt |
| PlanService.PlanStore.ChangeStatus | internal/application/scheduler/scheduled_plans.go:200-233 | the same for pause and resume, with their status rules |
| PlanService.PlanStore.Delete | internal/application/scheduler/scheduled_plans.go:164-198 | the same for delete and its replays |
| PlanService.PlanStore.Project | internal/application/scheduler/scheduled_plans.go:355-401 | a plan's definition, first cursor and enabled flag reach its execution row, or nothing changes |
| PlanService.PlanStore.List | internal/infrastructure/persistence/database/scheduler/scheduled_plan_store.go:81-133 | one page of an owner's plans, with a next cursor exactly when more follow |
| PlanService.PlanStore.HydratePlans | internal/application/scheduler/scheduled_plans.go:327-353 | the paging loop ends, projects each stored plan once in id order up to the first failure, and its check for a stuck cursor never fires |
| Receipts.IdentityIsTheCommand | internal/transport/http/module/adapter.go:176-211 | with one-line method, reason and confirmation, equal action, resource and hash mean the same command |
| Receipts.HashAloneConfuses | internal/transport/http/module/adapter.go:202-210 | two different commands can share a hash text; only the resource comparison tells them apart |
| Receipts.BufferedResponse.Serve | internal/transport/http/module/adapter.go:213-236 | the first header counts unless bytes came first, and all bytes count |
| Receipts.CommandReceiptStore.ClaimCommand | internal/infrastructure/persistence/database/scheduler/command_receipt_store.go:35-59 | a complete identity claims a new key, or finds the receipt stored under it |
| Receipts.CommandReceiptStore.CompleteCommand | internal/infrastructure/persistence/database/scheduler/command_receipt_store.go:61-85 | only an executing receipt of the same hash is completed |
| Receipts.CommandReceiptStore.WithReceipt | internal/transport/http/module/adapter.go:118-172 | an undisturbed request runs its handler exactly when its key is new, and is otherwise answered from the receipt |
| ReceiptRaces.RunInv | internal/transport/http/module/adapter.go:118-172 | the receipt invariant holds in every run, and completed receipts never change |
| ReceiptRaces.RunsAtMostOnce | internal/transport/http/module/adapter.go:162-170 | under one key a handler is started at most once, over any interleaving, failed statement and crash |
| ReceiptRaces.ReplaysAreExact | internal/transport/http/module/adapter.go:145-160 | all who are given a response under one key are given the same status and body, for the same command |
| ReceiptRaces.AnsweredAlone | internal/transport/http/module/adapter.go:118-172 | a request nobody comes between runs its handler exactly if its key is well formed and new, and is otherwise given the recorded response, or told that it is under way, or that the key is another command's |
| ReceiptRaces.RepeatsAreReplayed | internal/transport/http/module/adapter.go:118-172 | once run, the same request is given the same response whatever happens in between, and nothing runs for it |
| ReceiptRaces.OthersNeverRun | internal/transport/http/module/adapter.go:146-149 | a request whose action, resource or hash differs from the receipt's never runs and is never given a response |
| ReceiptRaces.CompletedIsForever | internal/infrastructure/persistence/database/scheduler/command_receipt_store.go:61-85 | a recorded response is never replaced |
| ReceiptRaces.AbandonedForever | internal/transport/http/module/adapter.go:150-153 | a claim whose holder is gone stays executing: nothing runs under its key again and nobody is given a response |
| ReceiptRaces.CompletableExactly | internal/transport/http/module/adapter.go:118-172 | an executing receipt is completed by some run from here if and only if it is not abandoned, that is, somebody still holds it |
| ReceiptRaces.ClaimGetsAbandoned | internal/transport/http/module/adapter.go:118-172 | for every command, a run in which its claimant stops and the repeated request is told it is in progress, with no handler run |
| Lifecycle.Worker.Start | internal/application/scheduler/service.go:475-514 | a start is refused, joins the live worker, or makes a new generation, which alone takes the configuration |
| Lifecycle.Worker.WorkerExit | internal/application/scheduler/service.go:518-528 | an exit clears its own generation only and closes its channel |
| Lifecycle.Worker.BeginClose | internal/application/scheduler/service.go:543-551 | the first close cancels, and every close remembers the worker to wait for |
| Lifecycle.OneWorker | internal/application/scheduler/service.go:475-514 | at most one worker is live in every run, and it is the one callers join |
| Lifecycle.ChannelsCloseOnce | internal/application/scheduler/service.go:518-528 | every channel made is the live worker's or was closed exactly once |
| Lifecycle.JoinedCallersShareTheWorker | internal/application/scheduler/service.go:483-495 | callers whose channel is still open all hold the live worker's channel |
| Lifecycle.ClosedForGood | internal/application/scheduler/service.go:543-564 | once a close returned without error no worker is live or ever starts, and starts are answered with closed channels |
| Lifecycle.RestartsExactly | internal/application/scheduler/service.go:475-514 | in every reachable state, a start makes a new worker if and only if it is asked for, fits, nothing is closed or cancelled and none is live |
| Lifecycle.StartAnswers | internal/application/scheduler/service.go:475-514 | in every reachable state, what a start is answered with: a closed channel when refused, the live worker's open channel when one is live, and otherwise the open channel of a new one |
| Lifecycle.CloseReturns | internal/application/scheduler/service.go:543-564 | an undisturbed close cancels, waits for the live worker's exit and returns without error, or with one when its time runs out first |
| Dispatching.Service.DispatchClaimed | internal/application/scheduler/service.go:384-428 | a claimed run is accepted, failed or left alone as the reply, the heartbeat and the lease say, also when the lease was lost unnoticed while it was out |
| Dispatching.Service.KeepAlive | internal/application/scheduler/service.go:391-406 | the heartbeat renews while the run is out and others act, and stops at the first renewal that fails or finds the lease gone |
| Heartbeats.ClaimsExactly | internal/application/scheduler/service.go:376-382 | a dispatch goes on with exactly the windows that are free and the runs that are up for grabs, and tells a full backlog from a window that is taken |
| Heartbeats.ClaimedRow | internal/application/scheduler/service.go:376-382 | a free window becomes this worker's run, leased for its lease time from the moment of the claim |
| Heartbeats.TakenRowRead | internal/application/scheduler/service.go:376-382 | a run taken over is handed on as it is when read back |
| Heartbeats.NextOut | internal/application/scheduler/service.go:391-406 | each heartbeat of a lease that is held moves its end to the lease time from then; one that fails or finds it gone gives it up |
| Heartbeats.LostExactly | internal/application/scheduler/service.go:391-414 | a dispatch ends as lease lost if and only if its run had an owner and some heartbeat failed or found the lease gone |
| Dispatching.Service.Dispatch | internal/application/scheduler/service.go:376-382 | claim, then hand over what was claimed, with others acting before the claim, before its read-back, while the run is out and between the statements that record a failure |
| Dispatching.Service.DispatchAll | internal/application/scheduler/service.go:314-329 | offers in turn, an error not stopping the others; the count and the first error are those of the items' verdicts |
| Dispatching.Service.Tick | internal/application/scheduler/service.go:306-329 | the due query and then all its offers in turn, with others acting between the statements of the query and inside every item |
| Ticks.ProcessedCountsNoErrors | internal/application/scheduler/service.go:317-328 | what is processed is exactly the items that were dispatched or not claimed, and the first error is the earliest of the others |
| Ticks.TickIsHistory | internal/application/scheduler/service.go:306-329 | a whole tick, the jumps of its due scan and then its items, together with what others do in it, is a history of the run tables, so every property of histories holds across it |
| Ticks.VerdictsMean | internal/application/scheduler/service.go:384-428 | each verdict of a tick says what was recorded, in both directions: a receipt under a live lease succeeds the run and is Dispatched; without a receipt the failure is recorded, to come back at its retry time below the definition's limit, dead with an open letter at it, unless the lease is gone or a letter is there; anything else changes nothing |
| Ticks.NothingCompletedBefore | internal/application/scheduler/service.go:384-428 | until the outcome is recorded this worker completes and fails nothing |
| Ticks.CancelledWhileOut | internal/application/scheduler/service.go:409-427 | a run cancelled between two heartbeats is delivered and then not accepted |
| Ticks.DispatchedStaysSucceeded | internal/application/scheduler/service.go:384-428 | a run reported dispatched has succeeded with its receipt, at the end of the tick, others' operations included, and after anything later |

## Left out

- HTTP routing, JSON, bearer authentication, the remote transport, read-only handlers and projections of results: plumbing around the protocol.
- The HTTP executor, request signing and the gateway adapter: a dispatch is a given outcome (`Dispatching.Reply`), and so are the loss of a lease and a handler's writes.
- Recurrence, misfire and business-calendar arithmetic and the retry delay: parameters with the contracts stated above.
- Validation that lives in the SDK packages (definition, schedule, owner and plan validation), trimming and identifier normalisation: values are taken as already valid and trimmed; a created plan is taken to be enabled, disabled or paused, never deleted.
- Digests: collision-free; the truncation of plan ids to 128 bits is not modelled.
- The database: statements read committed rows, an update locks its row to the end of its transaction, text columns compare bytewise, and a unique key refuses a second insert. Deadlock detection, statement timeouts and other isolation levels are not modelled.
- Columns that no branch reads: created and updated times of runs, metadata, target and window text, source names, the labels of events, and the clash of two event ids made in one nanosecond.
- Times before year 1 and parsing of texts the store never writes (offsets other than Z).
- Module mode lets revisions restart by design, so the monotone claims are about the shared deployment.
- Reconciliation.Service.ApplyUnfenced: undisturbed; among others it is `EmbeddedReconcile`.
- Bounds on retry loops (64 attempts in publication and converge) and context deadlines: a client of the machines may go on as long as it likes and may stop anywhere.
- Definitions published before snapshot rows existed: the read of such rows is in `DefinitionStore.ReadSnapshot`, their migration is not.
- In `RunStatements`, writes of definition rows are single statements (`WriteState`). The transaction that projects a snapshot of the shared deployment is in `Publication`; what commits statement by statement is in `PlanRaces` (the projection of a plan) and in `EmbeddedReconcile` (the snapshot of the embedded mode, one reconcile at a time).
- DefinitionStore.DefinitionStore.BeginSession: nobody else writes between its statements, so its compare-and-swap never misses; the miss and the retry are the `Observed` phases of `Publication`.
- DefinitionStore.DefinitionStore.AcceptFenced: undisturbed in the same way; the miss at the end is in `Publication`.
- DefinitionStore.DefinitionStore.SyncDefinitions: undisturbed in the same way, so its retry loop makes one attempt.
- DefinitionStore.DefinitionStore.DefinitionSnapshot: stored schema versions are numbers, so a version text that is no number has no outcome.
- Reconciliation.Service.Converge: one service with nobody else publishing, so its first attempt decides; the retrying loop among other publishers is the `Converging` phases of `Publication`.
- Reconciliation.Service.ReconcileSnapshot: nobody publishes between its publication and its projection; with others it is `Publication.ReconcileSuccessIsLasting`.
- Plans.NormalizeSettles: trimming, the default timezone of a schedule and canonical input JSON are not modelled.
- RunStore.Store.ReconcileWith: nobody comes between its statements; with others they are the phases of `PlanRaces` and `EmbeddedReconcile`.
- PlanProjection.LateProjectionWins: projections one after the other; overlapping ones, and whole runs, are in `PlanOverlaps`.
- Response headers other than the status, and the headers of a replay.
- The worker loop's polling interval and heartbeat clock; liveness in general: nothing here says that something happens eventually.
