/** The rows of the run store and what each of its transactions does to them once committed.
    A transaction is a guard (when it takes effect) and an effect; a guard that fails leaves the
    tables as they were, which is also what a crash before the commit does. */
module RunTables {
  import opened Options
  import opened StoredTime

  // ---------- rows ----------

  datatype Status = Leased | Retrying | Succeeded | DeadLettered | Cancelled | Failed

  /** The window of a definition: the run id is a digest of exactly these two. */
  datatype RunId = RunId(key: string, at: Instant)

  datatype Run = Run(revision: string, status: Status, attempt: int, owner: Option<string>, expires: Option<Instant>,
                     token: int, nextRetry: Option<Instant>, receipt: Option<string>, lastError: Option<string>)

  datatype DeadLetter = DeadLetter(reason: string, resolved: bool)

  datatype EventKind = LeaseAcquired | Accepted | RetryScheduled | DeadLetteredEvent | CancelledEvent | DeadLetterResolved

  datatype Event = Event(run: RunId, kind: EventKind)

  datatype Schedule = Schedule(once: bool, rule: string)

  datatype Definition = Definition(key: string, revision: string, enabled: bool, schedule: Schedule,
                                   maxAttempts: int, initialNextRun: Instant, body: string)

  datatype Source = RuntimeDefinition | ScheduledPlan

  datatype DefState = DefState(source: Source, revision: string, enabled: bool, definition: Definition, nextRun: Instant,
                               lastRun: Option<Instant>, lastStatus: string, snapshotRevision: int)

  type States = map<string, DefState>

  datatype Db = Db(runs: map<RunId, Run>, states: States, deadLetters: map<RunId, DeadLetter>, events: seq<Event>)

  /** Recurrence arithmetic, which the repository takes from elsewhere. */
  datatype Calendar = Calendar(next: (Schedule, Instant) -> Instant)

  ghost predicate Lawful(cal: Calendar) {
    forall s: Schedule, t: Instant :: !s.once ==> cal.next(s, t) > t
  }

  /** What a worker remembers of a run it claimed or read. */
  datatype Handle = Handle(id: RunId, owner: string, token: int, attempt: int)

  function HandleOf(id: RunId, run: Run): Handle {
    Handle(id, if run.owner.Some? then run.owner.value else "", run.token, run.attempt)
  }

  /** A window offered for claiming; a zero cursor means the claim does not move the cursor. */
  datatype DueTrigger = DueTrigger(definition: Definition, scheduledFor: Instant, expectedCursor: Instant, nextRunAt: Instant)

  function IdOf(due: DueTrigger): RunId {
    RunId(due.definition.key, due.scheduledFor)
  }

  // ---------- capacity ----------

  predicate IsPending(run: Run) {
    run.status == Leased || run.status == Retrying
  }

  function Pending(runs: map<RunId, Run>): set<RunId> {
    set id | id in runs && IsPending(runs[id])
  }

  // ---------- claiming a window ----------

  const FIVE_MINUTES: int := 300 * SECOND

  function LeaseEnd(now: Instant, ttl: int): Instant {
    now + (if ttl <= 0 then FIVE_MINUTES else ttl)
  }

  function NewRun(due: DueTrigger, worker: string, ttl: int, now: Instant): Run {
    Run(due.definition.revision, Leased, 1, Some(worker), Some(LeaseEnd(now, ttl)), 1, None, None, None)
  }

  predicate AtCursor(states: States, key: string, expected: Instant) {
    key in states && states[key].enabled && states[key].nextRun == expected
  }

  function AdvanceTarget(cal: Calendar, d: Definition, scheduled: Instant, next: Instant): Instant {
    var target := if next == 0 && !d.schedule.once then cal.next(d.schedule, scheduled) else next;
    if target == 0 then scheduled else target
  }

  function AdvancedRow(cal: Calendar, row: DefState, d: Definition, scheduled: Instant, next: Instant): DefState {
    row.(nextRun := AdvanceTarget(cal, d, scheduled, next), lastRun := Some(scheduled), lastStatus := "leased",
         enabled := row.enabled && !d.schedule.once)
  }

  predicate MovesCursor(due: DueTrigger) {
    due.expectedCursor != 0
  }

  predicate ClaimAdmits(db: Db, due: DueTrigger, limit: int) {
    && IdOf(due) !in db.runs
    && |Pending(db.runs)| < limit
    && (MovesCursor(due) ==> AtCursor(db.states, due.definition.key, due.expectedCursor))
  }

  function ClaimEffect(cal: Calendar, db: Db, due: DueTrigger, worker: string, ttl: int, now: Instant): Db
    requires MovesCursor(due) ==> due.definition.key in db.states
  {
    var key := due.definition.key;
    db.(runs := db.runs[IdOf(due) := NewRun(due, worker, ttl, now)],
        states := if MovesCursor(due)
                  then db.states[key := AdvancedRow(cal, db.states[key], due.definition, due.expectedCursor, due.nextRunAt)]
                  else db.states,
        events := db.events + [Event(IdOf(due), LeaseAcquired)])
  }

  // ---------- leases ----------

  predicate Takeable(run: Run, now: Instant) {
    || (run.status == Leased && run.expires.Some? && StoredAtMost(run.expires.value, now))
    || (run.status == Retrying && run.nextRetry.Some? && StoredAtMost(run.nextRetry.value, now))
  }

  function TakenRun(run: Run, worker: string, ttl: int, now: Instant): Run {
    run.(status := Leased, owner := Some(worker), expires := Some(LeaseEnd(now, ttl)),
         token := run.token + 1, attempt := run.attempt + 1)
  }

  predicate LiveLease(runs: map<RunId, Run>, h: Handle) {
    h.id in runs && runs[h.id].owner == Some(h.owner) && runs[h.id].token == h.token && runs[h.id].status == Leased
  }

  function AcceptedRun(run: Run, receipt: string): Run {
    run.(status := Succeeded, receipt := Some(receipt), lastError := None, owner := None, expires := None)
  }

  // ---------- failure, retry, cancel, dead letters ----------

  /** The attempts a definition allows, three when it is unknown or does not say. */
  function AllowedAttempts(states: States, key: string): int {
    if key in states && states[key].definition.maxAttempts > 0 then states[key].definition.maxAttempts else 3
  }

  predicate IsTerminal(h: Handle, maxAttempts: int) {
    h.attempt >= maxAttempts
  }

  function FailedRun(run: Run, terminal: bool, reason: string, retryAt: Instant): Run {
    run.(status := if terminal then DeadLettered else Retrying, lastError := Some(reason), owner := None, expires := None,
         nextRetry := if terminal then None else Some(retryAt))
  }

  predicate FailAdmits(db: Db, h: Handle, maxAttempts: int) {
    LiveLease(db.runs, h) && (IsTerminal(h, maxAttempts) ==> h.id !in db.deadLetters)
  }

  function FailEffect(db: Db, h: Handle, maxAttempts: int, reason: string, retryAt: Instant): Db
    requires h.id in db.runs
  {
    var terminal := IsTerminal(h, maxAttempts);
    db.(runs := db.runs[h.id := FailedRun(db.runs[h.id], terminal, reason, retryAt)],
        deadLetters := if terminal then db.deadLetters[h.id := DeadLetter(reason, false)] else db.deadLetters,
        events := db.events + [Event(h.id, if terminal then DeadLetteredEvent else RetryScheduled)])
  }

  predicate IsRetryable(runs: map<RunId, Run>, id: RunId) {
    id in runs && (runs[id].status == Failed || runs[id].status == DeadLettered)
  }

  function RequeuedRun(run: Run, now: Instant): Run {
    run.(status := Retrying, nextRetry := Some(now), owner := None, expires := None)
  }

  predicate IsOpen(letters: map<RunId, DeadLetter>, id: RunId) {
    id in letters && !letters[id].resolved
  }

  function Resolve(letters: map<RunId, DeadLetter>, id: RunId): map<RunId, DeadLetter> {
    if IsOpen(letters, id) then letters[id := letters[id].(resolved := true)] else letters
  }

  predicate RetryAdmits(db: Db, id: RunId, limit: int) {
    IsRetryable(db.runs, id) && |Pending(db.runs)| < limit
  }

  function RetryEffect(db: Db, id: RunId, now: Instant): Db
    requires id in db.runs
  {
    db.(runs := db.runs[id := RequeuedRun(db.runs[id], now)], deadLetters := Resolve(db.deadLetters, id),
        events := db.events + [Event(id, RetryScheduled)])
  }

  predicate CancelAdmits(db: Db, id: RunId) {
    id in db.runs && IsPending(db.runs[id])
  }

  function CancelledRun(run: Run): Run {
    run.(status := Cancelled, nextRetry := None, owner := None, expires := None, token := run.token + 1)
  }

  // ---------- cursors ----------

  function FastForwardedRow(row: DefState, expected: Instant, next: Instant, disable: bool): DefState {
    row.(nextRun := if next == 0 then expected else next, lastRun := Some(expected), lastStatus := "misfire_skipped",
         enabled := row.enabled && !disable)
  }

  // ---------- the committed transactions ----------

  datatype Op =
    | Claim(due: DueTrigger, worker: string, ttl: int, now: Instant, limit: int)
    | TakeExpired(id: RunId, worker: string, ttl: int, now: Instant)
    | Read(id: RunId)
    | Renew(handle: Handle, expires: Instant)
    | Accept(handle: Handle, receipt: string)
    | Fail(handle: Handle, maxAttempts: int, reason: string, retryAt: Instant)
    | Retry(id: RunId, now: Instant, limit: int)
    | Cancel(id: RunId)
    | ResolveDeadLetter(id: RunId)
    | FastForward(key: string, expected: Instant, next: Instant, disable: bool)
    | Reschedule(key: string, next: Instant)
    | WriteState(key: string, row: DefState)

  function Tables(cal: Calendar, db: Db, op: Op): Db {
    match op
    case Claim(due, worker, ttl, now, limit) =>
      if ClaimAdmits(db, due, limit) then ClaimEffect(cal, db, due, worker, ttl, now) else db
    case TakeExpired(id, worker, ttl, now) =>
      if id in db.runs && Takeable(db.runs[id], now)
      then db.(runs := db.runs[id := TakenRun(db.runs[id], worker, ttl, now)]) else db
    case Read(id) => db
    case Renew(h, expires) =>
      if LiveLease(db.runs, h) then db.(runs := db.runs[h.id := db.runs[h.id].(expires := Some(expires))]) else db
    case Accept(h, receipt) =>
      if LiveLease(db.runs, h)
      then db.(runs := db.runs[h.id := AcceptedRun(db.runs[h.id], receipt)], events := db.events + [Event(h.id, Accepted)])
      else db
    case Fail(h, maxAttempts, reason, retryAt) =>
      if FailAdmits(db, h, maxAttempts) then FailEffect(db, h, maxAttempts, reason, retryAt) else db
    case Retry(id, now, limit) =>
      if RetryAdmits(db, id, limit) then RetryEffect(db, id, now) else db
    case Cancel(id) =>
      if CancelAdmits(db, id)
      then db.(runs := db.runs[id := CancelledRun(db.runs[id])], events := db.events + [Event(id, CancelledEvent)])
      else db
    case ResolveDeadLetter(id) =>
      if IsOpen(db.deadLetters, id)
      then db.(deadLetters := Resolve(db.deadLetters, id), events := db.events + [Event(id, DeadLetterResolved)])
      else db
    case FastForward(key, expected, next, disable) =>
      if AtCursor(db.states, key, expected)
      then db.(states := db.states[key := FastForwardedRow(db.states[key], expected, next, disable)]) else db
    case Reschedule(key, next) =>
      if key != "" && key in db.states && next != 0 then db.(states := db.states[key := db.states[key].(nextRun := next)]) else db
    case WriteState(key, row) => db.(states := db.states[key := row])
  }

  // ---------- many workers over one set of tables ----------

  /** The tables, every handle any worker has ever read, and every completion (run, token) that
      took effect. */
  datatype World = World(db: Db, held: set<Handle>, completions: seq<(RunId, int)>)

  /** A worker completes only a run it claimed or read. */
  predicate Enabled(w: World, op: Op) {
    match op
    case Renew(h, _) => h in w.held
    case Accept(h, _) => h in w.held
    case Fail(h, _, _, _) => h in w.held
    case _ => true
  }

  predicate Completes(w: World, op: Op) {
    && Enabled(w, op)
    && match op
       case Accept(h, _) => LiveLease(w.db.runs, h)
       case Fail(h, maxAttempts, _, _) => FailAdmits(w.db, h, maxAttempts)
       case _ => false
  }

  function Learned(cal: Calendar, db: Db, op: Op): set<Handle> {
    match op
    case Read(id) => if id in db.runs then {HandleOf(id, db.runs[id])} else {}
    case Claim(due, worker, ttl, now, limit) =>
      if ClaimAdmits(db, due, limit) then {HandleOf(IdOf(due), NewRun(due, worker, ttl, now))} else {}
    case _ => {}
  }

  function Next(cal: Calendar, w: World, op: Op): World {
    if !Enabled(w, op) then w else
      World(Tables(cal, w.db, op), w.held + Learned(cal, w.db, op),
            if Completes(w, op) then w.completions + [(op.handle.id, op.handle.token)] else w.completions)
  }

  /** Any number of workers, in any order, each possibly stopping anywhere. */
  function History(cal: Calendar, w: World, ops: seq<Op>): World {
    if |ops| == 0 then w else Next(cal, History(cal, w, ops[..|ops| - 1]), ops[|ops| - 1])
  }
}
