/** What each transaction of the run store leaves behind, row by row and field by field, and what that
    means for whoever comes next: how long a lease keeps others out, and when a retry comes due. */
module RunEffects {
  import opened Options
  import opened StoredTime
  import opened RunTables
  import opened RunInvariants
  import TextOrder

  /** Nothing but one run has changed, and one event is new. */
  predicate OnlyRun(db: Db, db': Db, id: RunId, kind: EventKind) {
    && id in db'.runs && db'.runs == db.runs[id := db'.runs[id]]
    && db'.states == db.states && db'.deadLetters == db.deadLetters && db'.events == db.events + [Event(id, kind)]
  }

  // ---------- claiming ----------

  /** A window is free: it has no run, there is room in the backlog, and the cursor, if it is to move,
      is where the offer says, on an enabled definition. */
  predicate IsFree(db: Db, due: DueTrigger, limit: int) {
    var d := due.definition;
    && RunId(d.key, due.scheduledFor) !in db.runs
    && |set id | id in db.runs && (db.runs[id].status == Leased || db.runs[id].status == Retrying)| < limit
    && (due.expectedCursor != 0 ==> d.key in db.states && db.states[d.key].enabled && db.states[d.key].nextRun == due.expectedCursor)
  }

  /** A claim takes a free window and no other.  The run is leased to the worker as its first attempt,
      for as long as asked, or five minutes. */
  lemma {:induction false} ClaimLeases(cal: Calendar, db: Db, due: DueTrigger, worker: string, ttl: int, now: Instant, limit: int)
    ensures var db', id := Tables(cal, db, Claim(due, worker, ttl, now, limit)), RunId(due.definition.key, due.scheduledFor);
      if !IsFree(db, due, limit) then db' == db else
        && id in db'.runs && db'.runs == db.runs[id := db'.runs[id]]
        && db'.deadLetters == db.deadLetters && db'.events == db.events + [Event(id, LeaseAcquired)]
        && var run := db'.runs[id];
        && run.status == Leased && run.owner == Some(worker) && run.token == 1 && run.attempt == 1
        && run.revision == due.definition.revision
        && run.expires == Some(if ttl > 0 then now + ttl else now + 300_000_000_000)
        && run.nextRetry == None && run.receipt == None && run.lastError == None
  {
    assert Pending(db.runs) == set id | id in db.runs && (db.runs[id].status == Leased || db.runs[id].status == Retrying);
  }

  /** Its cursor goes where the offer says; an offer that does not say leaves it to the calendar, and a
      one-time definition where it is, disabled. */
  lemma {:induction false} ClaimMovesCursor(cal: Calendar, db: Db, due: DueTrigger, worker: string, ttl: int, now: Instant, limit: int)
    requires IsFree(db, due, limit)
    ensures var states', d := Tables(cal, db, Claim(due, worker, ttl, now, limit)).states, due.definition;
      if due.expectedCursor == 0 then states' == db.states else
        && d.key in states' && states' == db.states[d.key := states'[d.key]]
        && var row, row' := db.states[d.key], states'[d.key];
        && row'.source == row.source && row'.revision == row.revision && row'.definition == row.definition
        && row'.snapshotRevision == row.snapshotRevision
        && row'.lastRun == Some(due.expectedCursor) && (row'.enabled <==> !d.schedule.once)
        && (due.nextRunAt != 0 ==> row'.nextRun == due.nextRunAt)
        && (due.nextRunAt == 0 && d.schedule.once ==> row'.nextRun == row.nextRun)
        && var following := cal.next(d.schedule, due.expectedCursor);
           due.nextRunAt == 0 && !d.schedule.once && following != 0 ==> row'.nextRun == following
  {
    assert Pending(db.runs) == set id | id in db.runs && (db.runs[id].status == Leased || db.runs[id].status == Retrying);
  }

  // ---------- taking over and renewing ----------

  /** A run is up for grabs: its lease has ended or its retry is due, as stored times compare. */
  predicate UpForGrabs(db: Db, id: RunId, now: Instant) {
    && id in db.runs
    && var run := db.runs[id];
       || (run.status == Leased && run.expires.Some? && StoredAtMost(run.expires.value, now))
       || (run.status == Retrying && run.nextRetry.Some? && StoredAtMost(run.nextRetry.value, now))
  }

  lemma {:induction false} TakeOverWaits(cal: Calendar, db: Db, id: RunId, worker: string, ttl: int, now: Instant)
    requires !UpForGrabs(db, id, now)
    ensures Tables(cal, db, TakeExpired(id, worker, ttl, now)) == db
  {
  }

  lemma {:induction false} TakesOver(cal: Calendar, db: Db, id: RunId, worker: string, ttl: int, now: Instant) returns (db': Db)
    requires UpForGrabs(db, id, now)
    ensures db' == Tables(cal, db, TakeExpired(id, worker, ttl, now)) == db.(runs := db.runs[id := TakenRun(db.runs[id], worker, ttl, now)])
  {
    db' := Tables(cal, db, TakeExpired(id, worker, ttl, now));
  }

  lemma {:induction false} TakenRow(run: Run, worker: string, ttl: int, now: Instant)
    ensures TakenRun(run, worker, ttl, now)
            == run.(status := Leased, owner := Some(worker), token := run.token + 1, attempt := run.attempt + 1,
                    expires := Some(if ttl > 0 then now + ttl else now + 300_000_000_000))
  {
  }

  /** Taking over is one more attempt under a new token, and a lease of the taker's own. */
  lemma {:induction false} TakeOverLeases(cal: Calendar, db: Db, id: RunId, worker: string, ttl: int, now: Instant)
    requires UpForGrabs(db, id, now)
    ensures var run := db.runs[id];
      Tables(cal, db, TakeExpired(id, worker, ttl, now))
      == db.(runs := db.runs[id := run.(status := Leased, owner := Some(worker), token := run.token + 1, attempt := run.attempt + 1,
                                        expires := Some(if ttl > 0 then now + ttl else now + 300_000_000_000))])
  {
    var db' := TakesOver(cal, db, id, worker, ttl, now);
    TakenRow(db.runs[id], worker, ttl, now);
  }

  /** The worker that holds the lease moves its end, and nobody else does. */
  lemma {:induction false} RenewExtends(cal: Calendar, db: Db, h: Handle, end: Instant)
    ensures var db' := Tables(cal, db, Renew(h, end));
      if h.id in db.runs && db.runs[h.id].status == Leased && db.runs[h.id].owner == Some(h.owner) && db.runs[h.id].token == h.token
      then db' == db.(runs := db.runs[h.id := db.runs[h.id].(expires := Some(end))])
      else db' == db
  {
  }

  /** An operation that can do something to a run while a worker holds it until the given end: one by
      its holder, a cancellation, or a take-over less than a second before the end, or later. */
  predicate Interferes(h: Handle, end: Instant, op: Op) {
    match op
    case TakeExpired(id, _, _, now) => id == h.id && (now >= YEAR_10000 || now + SECOND > end)
    case Renew(g, _) => g.id == h.id && g.owner == h.owner && g.token == h.token
    case Accept(g, _) => g.id == h.id && g.owner == h.owner && g.token == h.token
    case Fail(g, _, _, _) => g.id == h.id && g.owner == h.owner && g.token == h.token
    case Cancel(id) => id == h.id
    case _ => false
  }

  predicate HeldUntil(db: Db, h: Handle, end: Instant) {
    && h.id in db.runs && db.runs[h.id].status == Leased && db.runs[h.id].owner == Some(h.owner) && db.runs[h.id].token == h.token
    && db.runs[h.id].expires == Some(end)
  }

  lemma {:induction false} HeldStep(cal: Calendar, w: World, h: Handle, end: Instant, op: Op)
    requires HeldUntil(w.db, h, end) && end < YEAR_10000 && !Interferes(h, end, op)
    ensures var db' := Next(cal, w, op).db; h.id in db'.runs && db'.runs[h.id] == w.db.runs[h.id]
  {
    if op.TakeExpired? && op.id == h.id { DeadlineWithinOneSecond(end, op.now); }
  }

  /** A lease is exclusive: until a second before its end, whatever all others do, the run stays with
      its holder, row unchanged, unless it is cancelled. */
  lemma {:induction false} LeaseIsExclusive(cal: Calendar, w: World, h: Handle, end: Instant, ops: seq<Op>)
    requires HeldUntil(w.db, h, end) && end < YEAR_10000
    requires forall i :: 0 <= i < |ops| ==> !Interferes(h, end, ops[i])
    ensures var db' := History(cal, w, ops).db; h.id in db'.runs && db'.runs[h.id] == w.db.runs[h.id]
  {
    if |ops| > 0 {
      LeaseIsExclusive(cal, w, h, end, ops[..|ops| - 1]);
      HeldStep(cal, History(cal, w, ops[..|ops| - 1]), h, end, ops[|ops| - 1]);
    }
  }

  /** So a claim keeps its window for the time it asked for, five minutes if it did not say. */
  lemma {:induction false} ClaimIsExclusive(cal: Calendar, w: World, due: DueTrigger, worker: string, ttl: int, now: Instant, limit: int, ops: seq<Op>)
    requires IsFree(w.db, due, limit)
    requires var end := if ttl > 0 then now + ttl else now + 300_000_000_000;
      && end < YEAR_10000
      && forall i :: 0 <= i < |ops| ==> !Interferes(Handle(RunId(due.definition.key, due.scheduledFor), worker, 1, 1), end, ops[i])
    ensures var id, db' := RunId(due.definition.key, due.scheduledFor), History(cal, Next(cal, w, Claim(due, worker, ttl, now, limit)), ops).db;
      && id in db'.runs && db'.runs[id].status == Leased && db'.runs[id].owner == Some(worker)
      && db'.runs[id].token == 1 && db'.runs[id].attempt == 1
  {
    ClaimLeases(cal, w.db, due, worker, ttl, now, limit);
    LeaseIsExclusive(cal, Next(cal, w, Claim(due, worker, ttl, now, limit)), Handle(RunId(due.definition.key, due.scheduledFor), worker, 1, 1),
                     if ttl > 0 then now + ttl else now + 300_000_000_000, ops);
  }

  /** And a take-over or a renewal keeps the run as long. */
  lemma {:induction false} TakeOverIsExclusive(cal: Calendar, w: World, id: RunId, worker: string, ttl: int, now: Instant, ops: seq<Op>)
    requires UpForGrabs(w.db, id, now)
    requires var end := if ttl > 0 then now + ttl else now + 300_000_000_000;
      && end < YEAR_10000
      && forall i :: 0 <= i < |ops| ==> !Interferes(Handle(id, worker, w.db.runs[id].token + 1, w.db.runs[id].attempt + 1), end, ops[i])
    ensures var db' := History(cal, Next(cal, w, TakeExpired(id, worker, ttl, now)), ops).db;
      && id in db'.runs && db'.runs[id].status == Leased && db'.runs[id].owner == Some(worker)
      && db'.runs[id].token == w.db.runs[id].token + 1 && db'.runs[id].attempt == w.db.runs[id].attempt + 1
  {
    TakeOverLeases(cal, w.db, id, worker, ttl, now);
    LeaseIsExclusive(cal, Next(cal, w, TakeExpired(id, worker, ttl, now)), Handle(id, worker, w.db.runs[id].token + 1, w.db.runs[id].attempt + 1),
                     if ttl > 0 then now + ttl else now + 300_000_000_000, ops);
  }

  lemma {:induction false} RenewalIsExclusive(cal: Calendar, w: World, h: Handle, end: Instant, ops: seq<Op>)
    requires h in w.held && LiveLease(w.db.runs, h) && end < YEAR_10000
    requires forall i :: 0 <= i < |ops| ==> !Interferes(h, end, ops[i])
    ensures var db' := History(cal, Next(cal, w, Renew(h, end)), ops).db;
      h.id in db'.runs && db'.runs[h.id] == w.db.runs[h.id].(expires := Some(end))
  {
    RenewExtends(cal, w.db, h, end);
    LeaseIsExclusive(cal, Next(cal, w, Renew(h, end)), h, end, ops);
  }

  // ---------- finishing ----------

  lemma {:induction false} AcceptRecords(cal: Calendar, db: Db, h: Handle, receipt: string)
    ensures var db' := Tables(cal, db, Accept(h, receipt));
      if !LiveLease(db.runs, h) then db' == db else
        && OnlyRun(db, db', h.id, Accepted)
        && db'.runs[h.id] == db.runs[h.id].(status := Succeeded, receipt := Some(receipt), lastError := None, owner := None, expires := None)
  {
  }

  /** A failure below the limit comes back at the time given; at the limit the run is dead, with an open
      letter, unless it has a letter already, and then nothing happens. */
  lemma {:induction false} FailureRecords(cal: Calendar, db: Db, h: Handle, limit: int, reason: string, retryAt: Instant)
    ensures var db' := Tables(cal, db, Fail(h, limit, reason, retryAt));
      if !LiveLease(db.runs, h) || (h.attempt >= limit && h.id in db.deadLetters) then db' == db else
        && h.id in db'.runs && db'.runs == db.runs[h.id := db'.runs[h.id]] && db'.states == db.states
        && var run, run' := db.runs[h.id], db'.runs[h.id];
        && run'.lastError == Some(reason) && run'.owner == None && run'.expires == None
        && run'.token == run.token && run'.attempt == run.attempt && run'.receipt == run.receipt && run'.revision == run.revision
        && if h.attempt < limit then
             && run'.status == Retrying && run'.nextRetry == Some(retryAt)
             && db'.deadLetters == db.deadLetters && db'.events == db.events + [Event(h.id, RetryScheduled)]
           else
             && run'.status == DeadLettered && run'.nextRetry == None
             && db'.deadLetters == db.deadLetters[h.id := DeadLetter(reason, false)] && db'.events == db.events + [Event(h.id, DeadLetteredEvent)]
  {
  }

  /** A dead-lettered run that is requeued with room in the backlog is due at once, and its letter, if
      open, is resolved. */
  lemma {:induction false} RetryRequeues(cal: Calendar, db: Db, id: RunId, now: Instant, limit: int)
    ensures var db' := Tables(cal, db, Retry(id, now, limit));
      var room := |set i | i in db.runs && (db.runs[i].status == Leased || db.runs[i].status == Retrying)| < limit;
      if id !in db.runs || (db.runs[id].status != DeadLettered && db.runs[id].status != Failed) || !room then db' == db else
        && db'.runs == db.runs[id := db.runs[id].(status := Retrying, nextRetry := Some(now), owner := None, expires := None)]
        && db'.states == db.states && db'.events == db.events + [Event(id, RetryScheduled)]
        && db'.deadLetters == (if id in db.deadLetters then db.deadLetters[id := db.deadLetters[id].(resolved := true)] else db.deadLetters)
  {
    assert Pending(db.runs) == set i | i in db.runs && (db.runs[i].status == Leased || db.runs[i].status == Retrying);
    if id in db.deadLetters && db.deadLetters[id].resolved {
      assert db.deadLetters[id].(resolved := true) == db.deadLetters[id];
      assert db.deadLetters[id := db.deadLetters[id]] == db.deadLetters;
    }
  }

  /** A waiting run is taken over from the second after its retry is due, and not before the last second
      before it. */
  lemma {:induction false} RetryComesDue(cal: Calendar, db: Db, id: RunId, due: Instant, worker: string, ttl: int, now: Instant)
    requires id in db.runs && db.runs[id].status == Retrying && db.runs[id].nextRetry == Some(due)
    requires due < YEAR_10000 && now < YEAR_10000
    ensures var db' := Tables(cal, db, TakeExpired(id, worker, ttl, now));
      && (now + SECOND <= due ==> db' == db)
      && (now >= due + SECOND || now == due ==>
            && id in db'.runs && db'.runs[id].status == Leased && db'.runs[id].owner == Some(worker)
            && db'.runs[id].attempt == db.runs[id].attempt + 1)
  {
    DeadlineWithinOneSecond(due, now);
    TextOrder.Irreflexive(FormatTime(now));
  }

  /** A cancelled run is nobody's and comes back for nobody. */
  lemma {:induction false} CancelEnds(cal: Calendar, db: Db, id: RunId)
    ensures var db' := Tables(cal, db, Cancel(id));
      if id !in db.runs || (db.runs[id].status != Leased && db.runs[id].status != Retrying) then db' == db else
        && OnlyRun(db, db', id, CancelledEvent)
        && db'.runs[id] == db.runs[id].(status := Cancelled, nextRetry := None, owner := None, expires := None, token := db.runs[id].token + 1)
  {
  }

  lemma {:induction false} LetterResolvesOnce(cal: Calendar, db: Db, id: RunId)
    ensures var db' := Tables(cal, db, ResolveDeadLetter(id));
      if id !in db.deadLetters || db.deadLetters[id].resolved then db' == db else
        && db'.runs == db.runs && db'.states == db.states && db'.events == db.events + [Event(id, DeadLetterResolved)]
        && db'.deadLetters == db.deadLetters[id := DeadLetter(db.deadLetters[id].reason, true)]
  {
  }

  // ---------- cursors ----------

  /** A jump moves the cursor it expects to the window given, or leaves it, and disables when told to. */
  lemma {:induction false} JumpMovesCursor(cal: Calendar, db: Db, key: string, expected: Instant, next: Instant, disable: bool)
    ensures var db' := Tables(cal, db, FastForward(key, expected, next, disable));
      if key !in db.states || !db.states[key].enabled || db.states[key].nextRun != expected then db' == db else
        && key in db'.states && db' == db.(states := db.states[key := db'.states[key]])
        && var row, row' := db.states[key], db'.states[key];
        && row' == row.(nextRun := row'.nextRun, lastRun := Some(expected), lastStatus := row'.lastStatus, enabled := !disable)
        && row'.nextRun == if next != 0 then next else expected
  {
  }

  /** A reschedule sets the cursor of a known definition, and nothing else. */
  lemma {:induction false} RescheduleSetsCursor(cal: Calendar, db: Db, key: string, next: Instant)
    ensures var db' := Tables(cal, db, Reschedule(key, next));
      if key == "" || next == 0 || key !in db.states then db' == db
      else db' == db.(states := db.states[key := db.states[key].(nextRun := next)])
  {
  }
}
