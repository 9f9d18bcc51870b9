/** What every history of committed transactions keeps, whoever runs them and wherever they stop:
    fencing, the event log, dead letters and the backlog limit. */
module RunInvariants {
  import opened Options
  import TextOrder
  import opened StoredTime
  import opened RunTables

  // ---------- the event log decides the status ----------

  datatype StatusClass = Unclaimed | PendingRun | SucceededRun | DeadRun | CancelledRunClass

  function ClassOfStatus(s: Status): StatusClass {
    match s
    case Leased => PendingRun
    case Retrying => PendingRun
    case Succeeded => SucceededRun
    case DeadLettered => DeadRun
    case Cancelled => CancelledRunClass
    case Failed => DeadRun
  }

  /** The class of a run, from its events alone. */
  function ClassFromEvents(events: seq<Event>, id: RunId): StatusClass {
    if |events| == 0 then Unclaimed else
      var before, e := ClassFromEvents(events[..|events| - 1], id), events[|events| - 1];
      if e.run != id then before else
        match e.kind
        case LeaseAcquired => PendingRun
        case Accepted => SucceededRun
        case RetryScheduled => PendingRun
        case DeadLetteredEvent => DeadRun
        case CancelledEvent => CancelledRunClass
        case DeadLetterResolved => before
  }

  function ClassOfRun(runs: map<RunId, Run>, id: RunId): StatusClass {
    if id in runs then ClassOfStatus(runs[id].status) else Unclaimed
  }

  function DeathCount(events: seq<Event>, id: RunId): nat {
    if |events| == 0 then 0 else
      DeathCount(events[..|events| - 1], id) +
      (if events[|events| - 1] == Event(id, DeadLetteredEvent) then 1 else 0)
  }

  lemma {:induction false} AppendEvent(events: seq<Event>, e: Event, id: RunId)
    ensures ClassFromEvents(events + [e], id) ==
      if e.run != id || e.kind == DeadLetterResolved then ClassFromEvents(events, id)
      else match e.kind
           case LeaseAcquired => PendingRun
           case Accepted => SucceededRun
           case RetryScheduled => PendingRun
           case DeadLetteredEvent => DeadRun
           case CancelledEvent => CancelledRunClass
           case DeadLetterResolved => ClassFromEvents(events, id)
    ensures DeathCount(events + [e], id) == DeathCount(events, id) + if e == Event(id, DeadLetteredEvent) then 1 else 0
  {
    assert (events + [e])[..|events|] == events;
  }

  // ---------- the invariant ----------

  /** One run row: the token counts claims, take-overs and the cancellation. */
  predicate RowOk(run: Run) {
    && run.attempt >= 1
    && run.token == run.attempt + (if run.status == Cancelled then 1 else 0)
    && (run.owner.Some? <==> run.status == Leased)
    && run.status != Failed
  }

  /** A remembered handle is never ahead of the row, and is behind or exact about the attempt. */
  predicate HandleOk(runs: map<RunId, Run>, h: Handle) {
    && h.id in runs
    && h.token <= runs[h.id].token
    && (h.token == h.attempt || (h.token == h.attempt + 1 && runs[h.id].status == Cancelled))
  }

  predicate CompletionOk(runs: map<RunId, Run>, c: (RunId, int)) {
    && c.0 in runs
    && c.1 <= runs[c.0].token
    && (c.1 == runs[c.0].token ==> runs[c.0].status != Leased)
  }

  predicate LettersOk(db: Db, id: RunId) {
    && (id in db.deadLetters ==> id in db.runs)
    && (IsOpen(db.deadLetters, id) ==> id in db.runs && db.runs[id].status == DeadLettered)
    && (id in db.runs && db.runs[id].status == DeadLettered ==> id in db.deadLetters)
    && DeathCount(db.events, id) == (if id in db.deadLetters then 1 else 0)
  }

  ghost predicate Inv(w: World) {
    && (forall id :: id in w.db.runs ==> RowOk(w.db.runs[id]))
    && (forall h :: h in w.held ==> HandleOk(w.db.runs, h))
    && (forall i :: 0 <= i < |w.completions| ==> CompletionOk(w.db.runs, w.completions[i]))
    && (forall i, j :: 0 <= i < j < |w.completions| ==> w.completions[i] != w.completions[j])
    && (forall id :: EventsMatch(w.db, id))
  }

  /** Empty tables, any definition rows. */
  function Fresh(states: States): World {
    World(Db(map[], states, map[], []), {}, [])
  }

  lemma {:induction false} FreshInv(states: States)
    ensures Inv(Fresh(states))
  {
  }

  // ---------- one step ----------

  /** The only row a step may touch. */
  function Target(op: Op): Option<RunId> {
    match op
    case Claim(due, _, _, _, _) => Some(IdOf(due))
    case TakeExpired(id, _, _, _) => Some(id)
    case Renew(h, _) => Some(h.id)
    case Accept(h, _) => Some(h.id)
    case Fail(h, _, _, _) => Some(h.id)
    case Retry(id, _, _) => Some(id)
    case Cancel(id) => Some(id)
    case ResolveDeadLetter(id) => Some(id)
    case _ => None
  }

  lemma {:induction false} OtherRowsKept(cal: Calendar, db: Db, op: Op, id: RunId)
    requires Target(op) != Some(id)
    ensures var db' := Tables(cal, db, op);
      && (id in db'.runs <==> id in db.runs)
      && (id in db.runs ==> db'.runs[id] == db.runs[id])
      && (id in db'.deadLetters <==> id in db.deadLetters)
      && (id in db.deadLetters ==> db'.deadLetters[id] == db.deadLetters[id])
  {
  }

  lemma {:induction false} RowStep(cal: Calendar, db: Db, op: Op, id: RunId)
    requires id in db.runs ==> RowOk(db.runs[id])
    ensures var db' := Tables(cal, db, op);
      && (id in db.runs ==> id in db'.runs)
      && (id in db'.runs ==> RowOk(db'.runs[id]))
      && (id in db.runs ==> db.runs[id].token <= db'.runs[id].token)
      && (id in db.runs ==> db.runs[id].attempt <= db'.runs[id].attempt)
      && (id in db.runs && db.runs[id].status == Cancelled ==> db'.runs[id] == db.runs[id])
      && (id in db.runs && db.runs[id].status == Succeeded ==> db'.runs[id] == db.runs[id])
      && (id in db.runs && db'.runs[id].status == Leased && db.runs[id].status != Leased ==> db'.runs[id].token > db.runs[id].token)
  {
  }

  predicate EventsMatch(db: Db, id: RunId) {
    ClassFromEvents(db.events, id) == ClassOfRun(db.runs, id) && LettersOk(db, id)
  }

  /** The event a step writes, if it takes effect and writes one. */
  function Emitted(db: Db, op: Op): Option<Event> {
    match op
    case Claim(due, _, _, _, limit) => if ClaimAdmits(db, due, limit) then Some(Event(IdOf(due), LeaseAcquired)) else None
    case Accept(h, _) => if LiveLease(db.runs, h) then Some(Event(h.id, Accepted)) else None
    case Fail(h, max, _, _) =>
      if FailAdmits(db, h, max) then Some(Event(h.id, if IsTerminal(h, max) then DeadLetteredEvent else RetryScheduled)) else None
    case Retry(id, _, limit) => if RetryAdmits(db, id, limit) then Some(Event(id, RetryScheduled)) else None
    case Cancel(id) => if CancelAdmits(db, id) then Some(Event(id, CancelledEvent)) else None
    case ResolveDeadLetter(id) => if IsOpen(db.deadLetters, id) then Some(Event(id, DeadLetterResolved)) else None
    case _ => None
  }

  lemma {:induction false} EventStep(cal: Calendar, db: Db, op: Op, id: RunId)
    requires id in db.runs ==> RowOk(db.runs[id])
    requires EventsMatch(db, id)
    ensures EventsMatch(Tables(cal, db, op), id)
  {
    if Emitted(db, op).Some? {
      AppendEvent(db.events, Emitted(db, op).value, id);
    }
    if Target(op) != Some(id) { OtherRowsKept(cal, db, op, id); } else { TargetEventStep(cal, db, op, id); }
  }

  lemma {:induction false} TargetEventStep(cal: Calendar, db: Db, op: Op, id: RunId)
    requires id in db.runs ==> RowOk(db.runs[id])
    requires EventsMatch(db, id) && Target(op) == Some(id)
    ensures EventsMatch(Tables(cal, db, op), id)
  {
    if Emitted(db, op).Some? { AppendEvent(db.events, Emitted(db, op).value, id); }
    match op
    case Claim(due, _, _, _, _) =>
    case Fail(h, _, _, _) =>
    case Retry(_, _, _) =>
    case ResolveDeadLetter(_) =>
    case _ =>
  }

  lemma {:induction false} CompletionStep(cal: Calendar, w: World, op: Op)
    requires Inv(w) && Completes(w, op)
    ensures var c := (op.handle.id, op.handle.token);
      && c !in w.completions
      && CompletionOk(Next(cal, w, op).db.runs, c)
  {
  }

  lemma {:induction false} InvStep(cal: Calendar, w: World, op: Op)
    requires Inv(w)
    ensures Inv(Next(cal, w, op))
  {
    if Enabled(w, op) {
      var w' := Next(cal, w, op);
      forall id ensures id in w'.db.runs ==> RowOk(w'.db.runs[id])
        ensures EventsMatch(w'.db, id)
      {
        RowStep(cal, w.db, op, id);
        EventStep(cal, w.db, op, id);
      }
      forall h | h in w'.held ensures HandleOk(w'.db.runs, h) {
        RowStep(cal, w.db, op, h.id);
      }
      if Completes(w, op) { CompletionStep(cal, w, op); }
      forall i | 0 <= i < |w'.completions| ensures CompletionOk(w'.db.runs, w'.completions[i]) {
        if i < |w.completions| {
          RowStep(cal, w.db, op, w.completions[i].0);
        }
      }
    }
  }

  // ---------- whole histories ----------

  lemma {:induction false} InvAlways(cal: Calendar, w: World, ops: seq<Op>)
    requires Inv(w)
    ensures Inv(History(cal, w, ops))
  {
    if |ops| > 0 {
      InvAlways(cal, w, ops[..|ops| - 1]);
      InvStep(cal, History(cal, w, ops[..|ops| - 1]), ops[|ops| - 1]);
    }
  }

  /** A handle whose token is no longer the row's, or whose run is not leased to its owner, can
      neither renew, accept nor fail: the attempt changes nothing. */
  lemma {:induction false} LostLeaseChangesNothing(cal: Calendar, w: World, op: Op)
    requires op.Renew? || op.Accept? || op.Fail?
    requires var h := op.handle;
      h.id !in w.db.runs || w.db.runs[h.id].token != h.token || w.db.runs[h.id].owner != Some(h.owner) || w.db.runs[h.id].status != Leased
    ensures Next(cal, w, op) == w
  {
  }

  /** A take-over or a cancellation is enough for that: afterwards every handle read before is lost,
      for good. */
  lemma {:induction false} OldHandlesStayLost(cal: Calendar, w: World, fence: Op, ops: seq<Op>, h: Handle, late: Op)
    requires Inv(w) && h in w.held && (fence.TakeExpired? || fence.Cancel?) && fence.id == h.id
    requires Next(cal, w, fence) != w && (late.Renew? || late.Accept? || late.Fail?) && late.handle == h
    ensures var w' := History(cal, Next(cal, w, fence), ops); Next(cal, w', late) == w'
  {
    InvStep(cal, w, fence);
    var v := Next(cal, w, fence);
    assert HandleOk(w.db.runs, h);
    TokensOnlyGrow(cal, v, ops, h.id);
    LostLeaseChangesNothing(cal, History(cal, v, ops), late);
  }

  lemma {:induction false} TokensOnlyGrow(cal: Calendar, w: World, ops: seq<Op>, id: RunId)
    requires Inv(w) && id in w.db.runs
    ensures var w' := History(cal, w, ops); id in w'.db.runs && w'.db.runs[id].token >= w.db.runs[id].token
  {
    if |ops| > 0 {
      var init := ops[..|ops| - 1];
      TokensOnlyGrow(cal, w, init, id);
      InvAlways(cal, w, init);
      RowStep(cal, History(cal, w, init).db, ops[|ops| - 1], id);
    }
  }

  /** For each run and fencing token at most one accept or fail ever takes effect. */
  lemma {:induction false} TokenCompletesOnce(cal: Calendar, states: States, ops: seq<Op>, i: nat, j: nat)
    requires i < j < |History(cal, Fresh(states), ops).completions|
    ensures History(cal, Fresh(states), ops).completions[i] != History(cal, Fresh(states), ops).completions[j]
  {
    FreshInv(states);
    InvAlways(cal, Fresh(states), ops);
  }

  /** A failure whose lease still holds decides between retry and dead letter on the attempt the
      row really is at, however old the worker's copy. */
  lemma {:induction false} FailDecidesOnTrueAttempt(cal: Calendar, states: States, ops: seq<Op>, h: Handle)
    requires h in History(cal, Fresh(states), ops).held
    requires LiveLease(History(cal, Fresh(states), ops).db.runs, h)
    ensures h.attempt == History(cal, Fresh(states), ops).db.runs[h.id].attempt
  {
    FreshInv(states);
    InvAlways(cal, Fresh(states), ops);
  }

  /** Succeeded and cancelled are final: the row never changes again. */
  lemma {:induction false} FinishedStaysFinished(cal: Calendar, w: World, ops: seq<Op>, id: RunId)
    requires Inv(w)
    requires id in w.db.runs && (w.db.runs[id].status == Succeeded || w.db.runs[id].status == Cancelled)
    ensures var w' := History(cal, w, ops); id in w'.db.runs && w'.db.runs[id] == w.db.runs[id]
  {
    if |ops| > 0 {
      var init := ops[..|ops| - 1];
      FinishedStaysFinished(cal, w, init, id);
      InvAlways(cal, w, init);
      RowStep(cal, History(cal, w, init).db, ops[|ops| - 1], id);
    }
  }

  /** At every moment the event log alone tells whether a run is unclaimed, pending, succeeded,
      dead or cancelled; no run is ever dead-lettered twice. */
  lemma {:induction false} EventLogDecides(cal: Calendar, states: States, ops: seq<Op>, id: RunId)
    ensures var db := History(cal, Fresh(states), ops).db;
      && ClassFromEvents(db.events, id) == ClassOfRun(db.runs, id)
      && (IsOpen(db.deadLetters, id) ==> ClassOfRun(db.runs, id) == DeadRun)
      && (ClassOfRun(db.runs, id) == DeadRun ==> id in db.deadLetters)
      && DeathCount(db.events, id) == (if id in db.deadLetters then 1 else 0)
  {
    FreshInv(states);
    InvAlways(cal, Fresh(states), ops);
    MatchedEvents(History(cal, Fresh(states), ops), id);
  }

  lemma {:induction false} MatchedEvents(w: World, id: RunId)
    requires Inv(w)
    ensures EventsMatch(w.db, id)
    ensures IsOpen(w.db.deadLetters, id) ==> ClassOfRun(w.db.runs, id) == DeadRun
    ensures ClassOfRun(w.db.runs, id) == DeadRun ==> id in w.db.deadLetters
  {
  }

  /** A run that has a dead-letter row keeps it, with its reason, and its attempts only grow. */
  lemma {:induction false} DeadLetterStays(cal: Calendar, w: World, ops: seq<Op>, id: RunId)
    requires Inv(w) && id in w.db.deadLetters
    ensures var w' := History(cal, w, ops);
      && id in w'.db.deadLetters && w'.db.deadLetters[id].reason == w.db.deadLetters[id].reason
      && id in w.db.runs && id in w'.db.runs && w'.db.runs[id].attempt >= w.db.runs[id].attempt
  {
    assert EventsMatch(w.db, id);
    if |ops| > 0 {
      var init := ops[..|ops| - 1];
      DeadLetterStays(cal, w, init, id);
      InvAlways(cal, w, init);
      var before := History(cal, w, init);
      RowStep(cal, before.db, ops[|ops| - 1], id);
      OneDeadLetterStep(cal, before, ops[|ops| - 1], id);
    }
  }

  lemma {:induction false} OneDeadLetterStep(cal: Calendar, w: World, op: Op, id: RunId)
    requires id in w.db.deadLetters
    ensures var db' := Next(cal, w, op).db; id in db'.deadLetters && db'.deadLetters[id].reason == w.db.deadLetters[id].reason
  {
  }

  /** A failure is recorded exactly if its lease is live and it is not the last attempt of a run that
      already has a dead-letter row; then the whole transaction aborts. */
  lemma {:induction false} FailRecordedExactly(cal: Calendar, w: World, h: Handle, maxAttempts: int, reason: string, retryAt: Instant)
    requires h in w.held
    ensures Next(cal, w, Fail(h, maxAttempts, reason, retryAt)) != w
      <==> LiveLease(w.db.runs, h) && (h.attempt < maxAttempts || h.id !in w.db.deadLetters)
  {
    var op := Fail(h, maxAttempts, reason, retryAt);
    if FailAdmits(w.db, h, maxAttempts) {
      assert |Next(cal, w, op).completions| == |w.completions| + 1;
    }
  }

  /** So once a run was dead-lettered at its attempt limit and requeued, no later failure of it is
      ever recorded: it stays leased or retrying until it succeeds or is cancelled. */
  lemma {:induction false} RequeuedRunCannotFail(cal: Calendar, w: World, ops: seq<Op>, h: Handle, maxAttempts: int, reason: string, retryAt: Instant)
    requires Inv(w) && h.id in w.db.deadLetters && h.id in w.db.runs && w.db.runs[h.id].attempt >= maxAttempts
    ensures var w' := History(cal, w, ops); Next(cal, w', Fail(h, maxAttempts, reason, retryAt)) == w'
  {
    InvAlways(cal, w, ops);
    DeadLetterStays(cal, w, ops, h.id);
    var w' := History(cal, w, ops);
    if h in w'.held && LiveLease(w'.db.runs, h) { assert HandleOk(w'.db.runs, h); }
  }

  lemma {:induction false} HistoryOf(cal: Calendar, w: World, ops: seq<Op>, op: Op)
    ensures History(cal, w, ops + [op]) == Next(cal, History(cal, w, ops), op)
  {
    assert (ops + [op])[..|ops|] == ops;
  }

  /** A run with one attempt allowed is claimed on empty tables and fails. */
  lemma {:induction false} FailingOnce(cal: Calendar, states: States, due: DueTrigger, worker: string, ttl: int, now: Instant, reason: string)
    returns (ops: seq<Op>)
    requires MovesCursor(due) ==> AtCursor(states, due.definition.key, due.expectedCursor)
    ensures var id, db := IdOf(due), History(cal, Fresh(states), ops).db;
      && id in db.runs && db.runs[id].status == DeadLettered && db.runs[id].attempt == 1
      && id in db.deadLetters && Pending(db.runs) == {}
  {
    var id, w0 := IdOf(due), Fresh(states);
    assert Pending(w0.db.runs) == {};
    ops := [] + [Claim(due, worker, ttl, now, 1)];
    HistoryOf(cal, w0, [], Claim(due, worker, ttl, now, 1));
    var w1, first := History(cal, w0, ops), Handle(id, worker, 1, 1);
    assert first in w1.held && LiveLease(w1.db.runs, first);
    HistoryOf(cal, w0, ops, Fail(first, 1, reason, now));
    ops := ops + [Fail(first, 1, reason, now)];
    assert History(cal, w0, ops).db.runs.Keys == {id};
  }

  /** And that happens: from empty tables, a run with one attempt allowed is claimed, fails, is
      requeued and taken over; its new holder has a live lease and cannot record a failure. */
  lemma {:induction false} RequeuedRunGetsStuck(cal: Calendar, states: States, due: DueTrigger, worker: string, ttl: int, now: Instant, reason: string)
    returns (ops: seq<Op>, h: Handle)
    requires MovesCursor(due) ==> AtCursor(states, due.definition.key, due.expectedCursor)
    ensures var w := History(cal, Fresh(states), ops);
      && h in w.held && LiveLease(w.db.runs, h) && h.id in w.db.deadLetters && h.attempt == 2
      && Next(cal, w, Fail(h, 1, reason, now)) == w
  {
    var id, w0 := IdOf(due), Fresh(states);
    ops := FailingOnce(cal, states, due, worker, ttl, now, reason);
    HistoryOf(cal, w0, ops, Retry(id, now, 1));
    ops := ops + [Retry(id, now, 1)];
    ops, h := TakingOver(cal, w0, ops, id, worker, ttl, now);
    FailAgain(cal, History(cal, w0, ops), h, reason, now);
  }

  lemma {:induction false} TakingOver(cal: Calendar, w0: World, ops0: seq<Op>, id: RunId, worker: string, ttl: int, now: Instant)
    returns (ops: seq<Op>, h: Handle)
    requires var w := History(cal, w0, ops0);
      id in w.db.runs && w.db.runs[id].status == Retrying && w.db.runs[id].nextRetry == Some(now)
    ensures var w, w' := History(cal, w0, ops0), History(cal, w0, ops);
      && h in w'.held && h.id == id && h.attempt == w.db.runs[id].attempt + 1
      && LiveLease(w'.db.runs, h) && w'.db.deadLetters == w.db.deadLetters
  {
    var w := History(cal, w0, ops0);
    TextOrder.Irreflexive(FormatTime(now));
    HistoryOf(cal, w0, ops0, TakeExpired(id, worker, ttl, now));
    ops := ops0 + [TakeExpired(id, worker, ttl, now)];
    HistoryOf(cal, w0, ops, Read(id));
    ops := ops + [Read(id)];
    h := HandleOf(id, TakenRun(w.db.runs[id], worker, ttl, now));
  }

  lemma {:induction false} FailAgain(cal: Calendar, w: World, h: Handle, reason: string, retryAt: Instant)
    requires h.id in w.db.deadLetters && h.attempt == 2
    ensures Next(cal, w, Fail(h, 1, reason, retryAt)) == w
  {
  }

  // ---------- the backlog limit ----------

  predicate LimitAtMost(op: Op, limit: int) {
    match op
    case Claim(_, _, _, _, l) => l <= limit
    case Retry(_, _, l) => l <= limit
    case _ => true
  }

  lemma {:induction false} PendingGrowsByOne(runs: map<RunId, Run>, runs': map<RunId, Run>, id: RunId)
    requires forall k :: k in runs' && k != id ==> k in runs && runs'[k] == runs[k]
    ensures |Pending(runs')| <= |Pending(runs)| + 1
    ensures (id in runs && IsPending(runs[id])) || id !in runs' || !IsPending(runs'[id]) ==> |Pending(runs')| <= |Pending(runs)|
  {
    assert Pending(runs') <= Pending(runs) + {id};
    SubsetSize(Pending(runs'), Pending(runs) + {id});
    if (id in runs && IsPending(runs[id])) || id !in runs' || !IsPending(runs'[id]) {
      assert Pending(runs') <= Pending(runs);
      SubsetSize(Pending(runs'), Pending(runs));
    }
  }

  lemma {:induction false} SubsetSize<T>(a: set<T>, b: set<T>)
    requires a <= b
    ensures |a| <= |b|
  {
    if a != {} {
      var x :| x in a;
      SubsetSize(a - {x}, b - {x});
    }
  }

  lemma {:induction false} PendingStep(cal: Calendar, db: Db, op: Op, limit: int)
    requires |Pending(db.runs)| <= limit && LimitAtMost(op, limit)
    ensures |Pending(Tables(cal, db, op).runs)| <= limit
  {
    if Target(op).Some? {
      PendingGrowsByOne(db.runs, Tables(cal, db, op).runs, Target(op).value);
    }
  }

  /** With a common limit the leased and retrying runs never exceed it. */
  lemma {:induction false} BacklogNeverExceeds(cal: Calendar, w: World, ops: seq<Op>, limit: int)
    requires |Pending(w.db.runs)| <= limit
    requires forall i :: 0 <= i < |ops| ==> LimitAtMost(ops[i], limit)
    ensures |Pending(History(cal, w, ops).db.runs)| <= limit
  {
    if |ops| > 0 {
      BacklogNeverExceeds(cal, w, ops[..|ops| - 1], limit);
      PendingStep(cal, History(cal, w, ops[..|ops| - 1]).db, ops[|ops| - 1], limit);
    }
  }

  // ---------- take-over ----------

  /** A leased run is never taken over a full second before its lease ends, and always can be a
      full second after. */
  lemma {:induction false} TakeOverWithinOneSecond(cal: Calendar, db: Db, id: RunId, worker: string, ttl: int, now: Instant)
    requires id in db.runs && db.runs[id].status == Leased && db.runs[id].expires.Some?
    requires db.runs[id].expires.value < YEAR_10000 && now < YEAR_10000
    ensures var end, db' := db.runs[id].expires.value, Tables(cal, db, TakeExpired(id, worker, ttl, now));
      && (db' != db ==> end < now + SECOND)
      && (now >= end + SECOND ==> db' != db && db'.runs[id].owner == Some(worker) && db'.runs[id].token == db.runs[id].token + 1)
  {
    DeadlineWithinOneSecond(db.runs[id].expires.value, now);
    if Takeable(db.runs[id], now) {
      assert Tables(cal, db, TakeExpired(id, worker, ttl, now)).runs[id] != db.runs[id];
    }
  }
}
