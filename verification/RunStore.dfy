/** The run store itself: one worker's methods over the tables, statement by statement.  A failed
    transaction puts back what it had written. */
module RunStore {
  import opened Options
  import opened StoredTime
  import opened RunTables
  import opened Projection
  import opened Turns
  import opened Windows

  datatype ClaimResult = Claimed(run: Handle) | NotClaimed(run: Handle) | CursorMoved | BacklogFull

  datatype StoreError = LeaseLost | AlreadyDeadLettered | NotRetryable | NotCancellable | NotOpen | NotFound
                      | LimitOutOfRange | RunBacklogFull | NotReconciled | SourceConflict

  datatype Outcome = Done | Refused(error: StoreError)

  /** A due row as the query returned it. */
  datatype DueRow = DueRow(definition: Definition, cursor: Instant)

  /** The misfire rules, which the repository takes from elsewhere. */
  type Misfire = (Definition, Instant, Instant, nat) -> Resolution

  /** What is decided for a row: nothing once there is no room. */
  function Decided(resolve: Misfire, row: DueRow, now: Instant, room: int): Resolution {
    if room <= 0 then Resolution([], 0, false) else resolve(row.definition, row.cursor, now, room)
  }

  /** What scanning the first n rows offers while there is room. */
  function OffersUpTo(resolve: Misfire, rows: seq<DueRow>, now: Instant, size: int, n: nat): seq<DueTrigger>
    requires n <= |rows|
  {
    if n == 0 then [] else
      var before := OffersUpTo(resolve, rows, now, size, n - 1);
      before + Offers(rows[n - 1].definition, Decided(resolve, rows[n - 1], now, size - |before|))
  }

  function DueOffers(resolve: Misfire, rows: seq<DueRow>, now: Instant, size: int): seq<DueTrigger> {
    OffersUpTo(resolve, rows, now, size, |rows|)
  }

  function RowSkips(row: DueRow, r: Resolution): seq<Op> {
    if |r.windows| == 0 && (r.cursorAfter != 0 || r.disable)
    then [FastForward(row.definition.key, row.cursor, r.cursorAfter, r.disable)] else []
  }

  /** The rows it fast-forwards instead. */
  function SkipsUpTo(resolve: Misfire, rows: seq<DueRow>, now: Instant, size: int, n: nat): seq<Op>
    requires n <= |rows|
  {
    if n == 0 then [] else
      SkipsUpTo(resolve, rows, now, size, n - 1)
      + RowSkips(rows[n - 1], Decided(resolve, rows[n - 1], now, size - |OffersUpTo(resolve, rows, now, size, n - 1)|))
  }

  function DueSkips(resolve: Misfire, rows: seq<DueRow>, now: Instant, size: int): seq<Op> {
    SkipsUpTo(resolve, rows, now, size, |rows|)
  }

  function RetryOffer(db: Db, id: RunId): seq<DueTrigger> {
    if id.key in db.states then [DueTrigger(db.states[id.key].definition, id.at, 0, 0)] else []
  }

  /** Runs to retry, each with its definition as it is when it is read; before each read others may
      commit what is given for it. */
  function RetryOffers(cal: Calendar, db: Db, ids: seq<RunId>, lookups: nat -> seq<Op>, i: nat): seq<DueTrigger>
    decreases |ids|
  {
    if |ids| == 0 then [] else
      var here := After(cal, db, lookups(i));
      RetryOffer(here, ids[0]) + RetryOffers(cal, here, ids[1..], lookups, i + 1)
  }

  function Rows(states: States, keys: seq<string>): seq<DueRow>
    requires forall i :: 0 <= i < |keys| ==> keys[i] in states
  {
    seq(|keys|, i requires 0 <= i < |keys| => DueRow(states[keys[i]].definition, states[keys[i]].nextRun))
  }

  /** The engine's answer to the due query: distinct due rows in text order of their cursors, all of
      them if fewer than the limit. */
  ghost predicate AnswersDue(states: States, now: Instant, limit: int, keys: seq<string>) {
    && |keys| <= limit
    && (forall i :: 0 <= i < |keys| ==> keys[i] in states && states[keys[i]].enabled && StoredAtMost(states[keys[i]].nextRun, now))
    && (forall i, j :: 0 <= i < j < |keys| ==> keys[i] != keys[j] && StoredAtMost(states[keys[i]].nextRun, states[keys[j]].nextRun))
    && (|keys| < limit ==> forall key :: key in states && states[key].enabled && StoredAtMost(states[key].nextRun, now) ==> key in keys)
  }

  /** The engine's answer to the retry query: distinct runs whose retry is due or whose lease has ended,
      in text order of their windows, all of them if fewer than the limit. */
  ghost predicate AnswersRetries(runs: map<RunId, Run>, now: Instant, limit: int, ids: seq<RunId>) {
    && |ids| <= limit
    && (forall i :: 0 <= i < |ids| ==> ids[i] in runs && Takeable(runs[ids[i]], now))
    && (forall i, j :: 0 <= i < j < |ids| ==> ids[i] != ids[j] && StoredAtMost(ids[i].at, ids[j].at))
    && (|ids| < limit ==> forall id :: id in runs && Takeable(runs[id], now) ==> id in ids)
  }

  function DueLimit(limit: int): (size: nat)
    ensures limit > 0 ==> size == limit
    ensures limit <= 0 ==> size == 25
  {
    if limit <= 0 then 25 else limit
  }

  // ---------- a scan among others ----------

  /** What others commit during a scan: before each row is decided, before the retries are asked for,
      and before each of their definitions is read. */
  datatype Others = Others(rows: nat -> seq<Op>, query: seq<Op>, lookups: nat -> seq<Op>)

  function RowTurns(row: DueRow, r: Resolution, before: seq<Op>): seq<Turn> {
    OfOthers(before) + OfMine(RowSkips(row, r))
  }

  function ReadTurns(n: nat, lookups: nat -> seq<Op>, i: nat): seq<Turn>
    decreases n
  {
    if n == 0 then [] else OfOthers(lookups(i)) + ReadTurns(n - 1, lookups, i + 1)
  }

  /** The due query of a tick as it goes: its rows, its retries, and everybody's turns. */
  datatype Scan = Scan(resolve: Misfire, rows: seq<DueRow>, now: Instant, size: nat, ids: seq<RunId>, others: Others)

  function WindowOffers(q: Scan): seq<DueTrigger> {
    DueOffers(q.resolve, q.rows, q.now, q.size)
  }

  /** The room left when the n-th row is decided. */
  function Room(q: Scan, n: nat): int
    requires n <= |q.rows|
  {
    q.size - |OffersUpTo(q.resolve, q.rows, q.now, q.size, n)|
  }

  /** Up to the n-th row, the jumps of a scan and what others commit before each row decided. */
  function ScanTurns(q: Scan, n: nat): seq<Turn>
    requires n <= |q.rows|
  {
    if n == 0 then [] else
      var before, room := ScanTurns(q, n - 1), Room(q, n - 1);
      if room <= 0 then before
      else before + RowTurns(q.rows[n - 1], Decided(q.resolve, q.rows[n - 1], q.now, room), q.others.rows(n - 1))
  }

  /** Up to the moment the retries are asked for. */
  function RowsTurns(q: Scan): seq<Turn> {
    ScanTurns(q, |q.rows|) + (if |WindowOffers(q)| < q.size then OfOthers(q.others.query) else [])
  }

  function DueTurns(q: Scan): seq<Turn> {
    RowsTurns(q) + (if |WindowOffers(q)| < q.size then ReadTurns(|q.ids|, q.others.lookups, 0) else [])
  }

  function AllOffers(cal: Calendar, db: Db, q: Scan): seq<DueTrigger> {
    WindowOffers(q)
    + (if |WindowOffers(q)| < q.size then RetryOffers(cal, AfterTurns(cal, db, RowsTurns(q)), q.ids, q.others.lookups, 0) else [])
  }

  /** Without room nothing more is offered, and nothing more is done. */
  lemma {:induction false} NoMoreOffers(q: Scan, i: nat, n: nat)
    requires i <= n <= |q.rows| && Room(q, i) <= 0
    ensures OffersUpTo(q.resolve, q.rows, q.now, q.size, n) == OffersUpTo(q.resolve, q.rows, q.now, q.size, i)
    decreases n
  {
    if i < n {
      NoMoreOffers(q, i, n - 1);
      NothingOffered(q.rows[n - 1].definition);
    }
  }

  lemma {:induction false} NothingOffered(d: Definition)
    ensures Offers(d, Resolution([], 0, false)) == []
  {
  }

  lemma {:induction false} NoMoreTurns(q: Scan, i: nat, n: nat)
    requires i <= n <= |q.rows| && Room(q, i) <= 0
    ensures ScanTurns(q, n) == ScanTurns(q, i)
    decreases n
  {
    if i < n {
      NoMoreOffers(q, i, n - 1);
      assert Room(q, n - 1) <= 0;
      NoMoreTurns(q, i, n - 1);
    }
  }

  /** The tables when the scan comes to the n-th row. */
  function ScanDb(cal: Calendar, q: Scan, start: Db, n: nat): Db
    requires n <= |q.rows|
  {
    AfterTurns(cal, start, ScanTurns(q, n))
  }

  lemma {:induction false} ScanOver(cal: Calendar, q: Scan, start: Db, i: nat)
    requires i <= |q.rows| && (i == |q.rows| || Room(q, i) <= 0)
    ensures OffersUpTo(q.resolve, q.rows, q.now, q.size, i) == WindowOffers(q)
    ensures ScanDb(cal, q, start, i) == ScanDb(cal, q, start, |q.rows|)
  {
    if i < |q.rows| {
      NoMoreOffers(q, i, |q.rows|);
      NoMoreTurns(q, i, |q.rows|);
    }
  }

  /** One row of the scan. */
  lemma {:induction false} ScanStep(cal: Calendar, q: Scan, start: Db, i: nat, here: Db)
    requires i < |q.rows| && Room(q, i) > 0 && here == ScanDb(cal, q, start, i)
    ensures ScanDb(cal, q, start, i + 1)
            == AfterTurns(cal, here, RowTurns(q.rows[i], q.resolve(q.rows[i].definition, q.rows[i].cursor, q.now, Room(q, i)), q.others.rows(i)))
  {
    var turns := RowTurns(q.rows[i], q.resolve(q.rows[i].definition, q.rows[i].cursor, q.now, Room(q, i)), q.others.rows(i));
    assert ScanTurns(q, i + 1) == ScanTurns(q, i) + turns;
    TurnsThen(cal, start, ScanTurns(q, i), turns);
  }

  lemma {:induction false} Associative<T>(a: seq<T>, b: seq<T>, c: seq<T>)
    ensures a + (b + c) == (a + b) + c
  {
  }

  /** How far the definitions of the retries have been read. */
  predicate LookedUp(cal: Calendar, ids: seq<RunId>, lookups: nat -> seq<Op>, all: seq<DueTrigger>, j: nat, offers: seq<DueTrigger>, db: Db) {
    j <= |ids| && offers + RetryOffers(cal, db, ids[j..], lookups, j) == all
  }

  predicate ReadSoFar(cal: Calendar, n: nat, lookups: nat -> seq<Op>, goal: Db, j: nat, db: Db) {
    j <= n && AfterTurns(cal, db, ReadTurns(n - j, lookups, j)) == goal
  }

  lemma {:induction false} LookedUpStep(cal: Calendar, ids: seq<RunId>, lookups: nat -> seq<Op>, all: seq<DueTrigger>, j: nat,
                                        offers: seq<DueTrigger>, db: Db)
    requires LookedUp(cal, ids, lookups, all, j, offers, db) && j < |ids|
    ensures var here := After(cal, db, lookups(j)); LookedUp(cal, ids, lookups, all, j + 1, offers + RetryOffer(here, ids[j]), here)
  {
    var here := After(cal, db, lookups(j));
    assert ids[j..][0] == ids[j] && ids[j..][1..] == ids[j + 1..];
    Associative(offers, RetryOffer(here, ids[j]), RetryOffers(cal, here, ids[j + 1..], lookups, j + 1));
  }

  lemma {:induction false} ReadStep(cal: Calendar, n: nat, lookups: nat -> seq<Op>, goal: Db, j: nat, db: Db)
    requires ReadSoFar(cal, n, lookups, goal, j, db) && j < n
    ensures ReadSoFar(cal, n, lookups, goal, j + 1, After(cal, db, lookups(j)))
  {
    TurnsThen(cal, db, OfOthers(lookups(j)), ReadTurns(n - j - 1, lookups, j + 1));
  }

  lemma {:induction false} LookedUpAll(cal: Calendar, ids: seq<RunId>, lookups: nat -> seq<Op>, all: seq<DueTrigger>, goal: Db,
                                       offers: seq<DueTrigger>, db: Db)
    requires LookedUp(cal, ids, lookups, all, |ids|, offers, db) && ReadSoFar(cal, |ids|, lookups, goal, |ids|, db)
    ensures offers == all && db == goal
  {
  }

  /** A turn of a scan that is this worker's own, and the row it comes from. */
  lemma {:induction false} TurnOfRow(q: Scan, n: nat, t: Turn) returns (j: nat)
    requires n <= |q.rows| && t in ScanTurns(q, n) && t.Mine?
    ensures j < n && t.op in RowSkips(q.rows[j], Decided(q.resolve, q.rows[j], q.now, Room(q, j)))
    decreases n
  {
    if t in ScanTurns(q, n - 1) {
      j := TurnOfRow(q, n - 1, t);
    } else {
      j := n - 1;
      LastRowTurn(q, n, t);
      RowTurnIsSkip(q.rows[j], Decided(q.resolve, q.rows[j], q.now, Room(q, j)), q.others.rows(j), t);
    }
  }

  lemma {:induction false} LastRowTurn(q: Scan, n: nat, t: Turn)
    requires 0 < n <= |q.rows| && t in ScanTurns(q, n) && t !in ScanTurns(q, n - 1)
    ensures t in RowTurns(q.rows[n - 1], Decided(q.resolve, q.rows[n - 1], q.now, Room(q, n - 1)), q.others.rows(n - 1))
  {
  }

  lemma {:induction false} SkipOfRow(q: Scan, n: nat, j: nat, op: Op)
    requires j < n <= |q.rows| && op in RowSkips(q.rows[j], Decided(q.resolve, q.rows[j], q.now, Room(q, j)))
    ensures op in SkipsUpTo(q.resolve, q.rows, q.now, q.size, n)
    decreases n
  {
    if j < n - 1 { SkipOfRow(q, n - 1, j, op); }
    InEither(SkipsUpTo(q.resolve, q.rows, q.now, q.size, n - 1), RowSkips(q.rows[n - 1], Decided(q.resolve, q.rows[n - 1], q.now, Room(q, n - 1))), op);
  }

  lemma {:induction false} InEither<T>(a: seq<T>, b: seq<T>, x: T)
    ensures x in a || x in b ==> x in a + b
  {
  }

  /** This worker's turns in a scan are jumps the misfire rules decided. */
  lemma {:induction false} ScanTurnsAreSkips(q: Scan, t: Turn)
    requires t in ScanTurns(q, |q.rows|) && t.Mine?
    ensures t.op in DueSkips(q.resolve, q.rows, q.now, q.size)
  {
    var j := TurnOfRow(q, |q.rows|, t);
    SkipOfRow(q, |q.rows|, j, t.op);
  }

  lemma {:induction false} RowTurnIsSkip(row: DueRow, r: Resolution, before: seq<Op>, t: Turn)
    requires t in RowTurns(row, r, before) && t.Mine?
    ensures t.op in RowSkips(row, r)
  {
  }

  class Store {
    const worker: string
    const cal: Calendar
    var maxPendingTriggers: int
    var runs: map<RunId, Run>
    var states: States
    var deadLetters: map<RunId, DeadLetter>
    var events: seq<Event>

    function Contents(): Db
      reads this
    {
      Db(runs, states, deadLetters, events)
    }

    constructor (worker: string, cal: Calendar, db: Db)
      ensures this.worker == worker && this.cal == cal && Contents() == db && maxPendingTriggers == 10_000
    {
      this.worker, this.cal, maxPendingTriggers := worker, cal, 10_000;
      runs, states, deadLetters, events := db.runs, db.states, db.deadLetters, db.events;
    }

    method ConfigureTriggerBacklogLimit(limit: int) returns (r: Outcome)
      modifies this`maxPendingTriggers
      ensures r == if 1 <= limit <= 1_000_000 then Done else Refused(LimitOutOfRange)
      ensures maxPendingTriggers == if r == Done then limit else old(maxPendingTriggers)
    {
      if limit < 1 || limit > 1_000_000 { return Refused(LimitOutOfRange); }
      maxPendingTriggers := limit;
      return Done;
    }

    method AdvanceCursor(d: Definition, scheduled: Instant, next: Instant) returns (advanced: bool)
      modifies this`states
      ensures advanced == AtCursor(old(states), d.key, scheduled)
      ensures states == if advanced then old(states)[d.key := AdvancedRow(cal, old(states)[d.key], d, scheduled, next)] else old(states)
    {
      var disable := d.schedule.once;
      var target := next;
      if target == 0 && !disable { target := cal.next(d.schedule, scheduled); }
      if target == 0 { target := scheduled; }
      advanced := d.key in states && states[d.key].enabled && states[d.key].nextRun == scheduled;
      if advanced {
        var row := states[d.key].(nextRun := target, lastRun := Some(scheduled), lastStatus := "leased");
        if disable { row := row.(enabled := false); }
        states := states[d.key := row];
      }
    }

    /** What other processes commit to the shared tables between two statements of this one. */
    method Meanwhile(ops: seq<Op>)
      modifies this`runs, this`states, this`deadLetters, this`events
      ensures Contents() == After(cal, old(Contents()), ops)
    {
      var db := After(cal, Contents(), ops);
      runs, states, deadLetters, events := db.runs, db.states, db.deadLetters, db.events;
    }

    /** Claims a window: a new run under the backlog limit that moves the cursor, or the take-over of
        an existing run, which is read back in a statement of its own.  The operations given are what
        others commit before that read. */
    method Claim(due: DueTrigger, ttl: int, now: Instant, between: seq<Op>) returns (r: ClaimResult)
      modifies this`runs, this`states, this`deadLetters, this`events
      ensures var id, before := IdOf(due), old(Contents());
        if id in before.runs then
          && Contents() == After(cal, Tables(cal, before, Op.TakeExpired(id, worker, ttl, now)), between)
          && id in runs
          && r == (if Takeable(before.runs[id], now) then Claimed(HandleOf(id, runs[id])) else NotClaimed(HandleOf(id, runs[id])))
        else
          && Contents() == Tables(cal, before, Op.Claim(due, worker, ttl, now, maxPendingTriggers))
          && r == (if |Pending(before.runs)| >= maxPendingTriggers then BacklogFull
                   else if ClaimAdmits(before, due, maxPendingTriggers) then Claimed(Handle(id, worker, 1, 1))
                   else CursorMoved)
    {
      var id := IdOf(due);
      if id in runs {
        var taken := TakeExpired(id, ttl, now, between);
        if taken.Some? { return Claimed(taken.value); }
        Meanwhile(between);
        AfterKeepsRuns(cal, old(Contents()), between, id);
        return NotClaimed(HandleOf(id, runs[id]));
      }
      if |Pending(runs)| >= maxPendingTriggers { return BacklogFull; }
      var before := runs;
      runs := runs[id := NewRun(due, worker, ttl, now)];
      if due.expectedCursor != 0 {
        var advanced := AdvanceCursor(due.definition, due.expectedCursor, due.nextRunAt);
        if !advanced {
          runs := before;
          return CursorMoved;
        }
      }
      events := events + [Event(id, LeaseAcquired)];
      return Claimed(Handle(id, worker, 1, 1));
    }

    /** Updates the run, and lookups it back: what is returned is the run as it is by then. */
    method TakeExpired(id: RunId, ttl: int, now: Instant, between: seq<Op>) returns (run: Option<Handle>)
      modifies this`runs, this`states, this`deadLetters, this`events
      ensures var before := old(Contents());
        var taken := id in before.runs && Takeable(before.runs[id], now);
        && Contents() == (if taken then After(cal, Tables(cal, before, Op.TakeExpired(id, worker, ttl, now)), between) else before)
        && (taken ==> id in runs)
        && run == (if taken then Some(HandleOf(id, runs[id])) else None)
    {
      if id !in runs || !Takeable(runs[id], now) { return None; }
      var row := runs[id].(status := Leased, owner := Some(worker), expires := Some(LeaseEnd(now, ttl)));
      runs := runs[id := row.(token := row.token + 1, attempt := row.attempt + 1)];
      assert Contents() == Tables(cal, old(Contents()), Op.TakeExpired(id, worker, ttl, now));
      AfterKeepsRuns(cal, Contents(), between, id);
      Meanwhile(between);
      return Some(HandleOf(id, runs[id]));
    }

    method Renew(run: Handle, ttl: nat, now: Instant) returns (owned: bool)
      modifies this`runs
      ensures Contents() == Tables(cal, old(Contents()), Op.Renew(run, now + ttl))
      ensures owned == LiveLease(old(runs), run)
    {
      owned := LiveLease(runs, run);
      if owned { runs := runs[run.id := runs[run.id].(expires := Some(now + ttl))]; }
    }

    method Accept(run: Handle, receipt: string) returns (r: Outcome)
      modifies this`runs, this`events
      ensures Contents() == Tables(cal, old(Contents()), Op.Accept(run, receipt))
      ensures r == if LiveLease(old(runs), run) then Done else Refused(LeaseLost)
    {
      if !LiveLease(runs, run) { return Refused(LeaseLost); }
      runs := runs[run.id := runs[run.id].(status := Succeeded, receipt := Some(receipt), lastError := None, owner := None, expires := None)];
      events := events + [Event(run.id, Accepted)];
      return Done;
    }

    /** Records a failure: back to retrying below the attempt limit, otherwise a dead letter.  The limit
        is read first, in a statement of its own, after which others may commit. */
    method Fail(run: Handle, reason: string, retryAt: Instant, between: seq<Op>) returns (r: Outcome)
      modifies this`runs, this`states, this`deadLetters, this`events
      ensures var max, before := AllowedAttempts(old(states), run.id.key), After(cal, old(Contents()), between);
        && Contents() == Tables(cal, before, Op.Fail(run, max, reason, retryAt))
        && r == (if !LiveLease(before.runs, run) then Refused(LeaseLost)
                 else if FailAdmits(before, run, max) then Done else Refused(AlreadyDeadLettered))
    {
      var maxAttempts := 3;
      if run.id.key in states && states[run.id.key].definition.maxAttempts > 0 {
        maxAttempts := states[run.id.key].definition.maxAttempts;
      }
      var terminal := run.attempt >= maxAttempts;
      Meanwhile(between);
      if !LiveLease(runs, run) { return Refused(LeaseLost); }
      var before := runs;
      var row := runs[run.id].(status := if terminal then DeadLettered else Retrying, lastError := Some(reason), owner := None, expires := None);
      if terminal { row := row.(nextRetry := None); } else { row := row.(nextRetry := Some(retryAt)); }
      runs := runs[run.id := row];
      if terminal {
        if run.id in deadLetters {
          runs := before;
          return Refused(AlreadyDeadLettered);
        }
        deadLetters := deadLetters[run.id := DeadLetter(reason, false)];
      }
      events := events + [Event(run.id, if terminal then DeadLetteredEvent else RetryScheduled)];
      return Done;
    }

    method Retry(id: RunId, now: Instant) returns (r: Outcome)
      modifies this`runs, this`deadLetters, this`events
      ensures var before := old(Contents());
        && Contents() == Tables(cal, before, Op.Retry(id, now, maxPendingTriggers))
        && r == (if !IsRetryable(before.runs, id) then Refused(NotRetryable)
                 else if RetryAdmits(before, id, maxPendingTriggers) then Done else Refused(RunBacklogFull))
    {
      if !(id in runs && (runs[id].status == Failed || runs[id].status == DeadLettered)) { return Refused(NotRetryable); }
      if |Pending(runs)| >= maxPendingTriggers { return Refused(RunBacklogFull); }
      runs := runs[id := runs[id].(status := Retrying, nextRetry := Some(now), owner := None, expires := None)];
      if id in deadLetters && !deadLetters[id].resolved {
        deadLetters := deadLetters[id := deadLetters[id].(resolved := true)];
      }
      events := events + [Event(id, RetryScheduled)];
      return Done;
    }

    /** Requeueing is a retry that first asks for the dead letter. */
    method RequeueDeadLetter(id: RunId, now: Instant) returns (r: Outcome)
      modifies this`runs, this`deadLetters, this`events
      ensures id !in old(deadLetters) ==> Contents() == old(Contents()) && r == Refused(NotFound)
      ensures id in old(deadLetters) ==> Contents() == Tables(cal, old(Contents()), Op.Retry(id, now, maxPendingTriggers))
      ensures id in old(deadLetters) ==> (r == Done <==> RetryAdmits(old(Contents()), id, maxPendingTriggers))
    {
      if id !in deadLetters { return Refused(NotFound); }
      r := Retry(id, now);
    }

    method Cancel(id: RunId) returns (r: Outcome)
      modifies this`runs, this`events
      ensures Contents() == Tables(cal, old(Contents()), Op.Cancel(id))
      ensures r == if CancelAdmits(old(Contents()), id) then Done else Refused(NotCancellable)
    {
      if !(id in runs && (runs[id].status == Leased || runs[id].status == Retrying)) { return Refused(NotCancellable); }
      var row := runs[id].(status := Cancelled, nextRetry := None, owner := None, expires := None);
      runs := runs[id := row.(token := row.token + 1)];
      events := events + [Event(id, CancelledEvent)];
      return Done;
    }

    method ResolveDeadLetter(id: RunId) returns (r: Outcome)
      modifies this`deadLetters, this`events
      ensures Contents() == Tables(cal, old(Contents()), Op.ResolveDeadLetter(id))
      ensures r == if IsOpen(old(deadLetters), id) then Done else Refused(NotOpen)
    {
      if id !in deadLetters || deadLetters[id].resolved { return Refused(NotOpen); }
      deadLetters := deadLetters[id := deadLetters[id].(resolved := true)];
      events := events + [Event(id, DeadLetterResolved)];
      return Done;
    }

    method FastForwardMisfire(key: string, expected: Instant, next: Instant, disable: bool) returns (moved: bool)
      modifies this`states
      ensures Contents() == Tables(cal, old(Contents()), Op.FastForward(key, expected, next, disable))
      ensures moved == AtCursor(old(states), key, expected)
    {
      var target := if next == 0 then expected else next;
      moved := key in states && states[key].enabled && states[key].nextRun == expected;
      if moved {
        var row := states[key].(nextRun := target, lastRun := Some(expected), lastStatus := "misfire_skipped");
        if disable { row := row.(enabled := false); }
        states := states[key := row];
      }
    }

    method Reschedule(key: string, next: Instant) returns (r: Outcome)
      modifies this`states
      ensures Contents() == Tables(cal, old(Contents()), Op.Reschedule(key, next))
      ensures r == if key != "" && next != 0 && key in old(states) then Done else Refused(NotReconciled)
    {
      if key == "" || next == 0 || key !in states { return Refused(NotReconciled); }
      states := states[key := states[key].(nextRun := next)];
      return Done;
    }

    method ScanRow(row: DueRow, r: Resolution, before: seq<Op>) returns (offers: seq<DueTrigger>)
      modifies this`runs, this`states, this`deadLetters, this`events
      ensures Contents() == AfterTurns(cal, old(Contents()), RowTurns(row, r, before))
      ensures offers == Offers(row.definition, r)
    {
      TurnsThen(cal, Contents(), OfOthers(before), OfMine(RowSkips(row, r)));
      Meanwhile(before);
      if |r.windows| == 0 && (r.cursorAfter != 0 || r.disable) {
        AfterOne(cal, Contents(), RowSkips(row, r)[0]);
        var moved := FastForwardMisfire(row.definition.key, row.cursor, r.cursorAfter, r.disable);
      }
      offers := Offers(row.definition, r);
    }

    method ScanNext(q: Scan, i: nat, ghost start: Db) returns (more: seq<DueTrigger>)
      requires i < |q.rows| && Room(q, i) > 0 && Contents() == ScanDb(cal, q, start, i)
      modifies this`runs, this`states, this`deadLetters, this`events
      ensures Contents() == ScanDb(cal, q, start, i + 1)
      ensures OffersUpTo(q.resolve, q.rows, q.now, q.size, i) + more == OffersUpTo(q.resolve, q.rows, q.now, q.size, i + 1)
    {
      ScanStep(cal, q, start, i, Contents());
      var r := q.resolve(q.rows[i].definition, q.rows[i].cursor, q.now, Room(q, i));
      more := ScanRow(q.rows[i], r, q.others.rows(i));
    }

    /** Decides the rows it has read, one by one, while there is room. */
    method ScanDue(q: Scan) returns (offers: seq<DueTrigger>)
      modifies this`runs, this`states, this`deadLetters, this`events
      ensures Contents() == ScanDb(cal, q, old(Contents()), |q.rows|)
      ensures offers == WindowOffers(q)
    {
      offers := [];
      ghost var start := Contents();
      var i := 0;
      while i < |q.rows| && q.size - |offers| > 0
        invariant i <= |q.rows| && offers == OffersUpTo(q.resolve, q.rows, q.now, q.size, i)
        invariant Contents() == ScanDb(cal, q, start, i)
      {
        var more := ScanNext(q, i, start);
        offers := offers + more;
        i := i + 1;
      }
      ScanOver(cal, q, start, i);
    }

    method OfferRetry(id: RunId) returns (offers: seq<DueTrigger>)
      ensures offers == RetryOffer(Contents(), id)
    {
      offers := if id.key in states then [DueTrigger(states[id.key].definition, id.at, 0, 0)] else [];
    }

    method OfferRetries(ids: seq<RunId>, lookups: nat -> seq<Op>) returns (offers: seq<DueTrigger>)
      modifies this`runs, this`states, this`deadLetters, this`events
      ensures Contents() == AfterTurns(cal, old(Contents()), ReadTurns(|ids|, lookups, 0))
      ensures offers == RetryOffers(cal, old(Contents()), ids, lookups, 0)
    {
      ghost var goal := AfterTurns(cal, Contents(), ReadTurns(|ids|, lookups, 0));
      ghost var all := RetryOffers(cal, Contents(), ids, lookups, 0);
      offers := [];
      var j := 0;
      assert ids[0..] == ids;
      while j < |ids|
        invariant 0 <= j <= |ids|
        invariant LookedUp(cal, ids, lookups, all, j, offers, Contents()) && ReadSoFar(cal, |ids|, lookups, goal, j, Contents())
      {
        LookedUpStep(cal, ids, lookups, all, j, offers, Contents());
        ReadStep(cal, |ids|, lookups, goal, j, Contents());
        Meanwhile(lookups(j));
        var more := OfferRetry(ids[j]);
        offers := offers + more;
        j := j + 1;
      }
      LookedUpAll(cal, ids, lookups, all, goal, offers, Contents());
    }

    /** Offers due windows up to the limit, then runs to retry or take over in the room left. */
    method Due(now: Instant, limit: int, keys: seq<string>, ids: seq<RunId>, resolve: Misfire, others: Others) returns (offers: seq<DueTrigger>)
      requires AnswersDue(states, now, DueLimit(limit), keys)
      requires var q := Scan(resolve, Rows(states, keys), now, DueLimit(limit), ids, others);
        |WindowOffers(q)| < q.size ==>
          AnswersRetries(AfterTurns(cal, Contents(), RowsTurns(q)).runs, now, q.size - |WindowOffers(q)|, ids)
      modifies this`runs, this`states, this`deadLetters, this`events
      ensures var q := Scan(resolve, Rows(old(states), keys), now, DueLimit(limit), ids, others);
        && Contents() == AfterTurns(cal, old(Contents()), DueTurns(q))
        && offers == AllOffers(cal, old(Contents()), q)
    {
      var size := if limit <= 0 then 25 else limit;
      var q := Scan(resolve, Rows(states, keys), now, size, ids, others);
      ghost var before, scan := Contents(), ScanTurns(q, |q.rows|);
      offers := ScanDue(q);
      ghost var windows := offers;
      assert RowsTurns(q) == scan + (if |windows| < size then OfOthers(others.query) else []);
      TurnsThen(cal, before, scan, if |windows| < size then OfOthers(others.query) else []);
      TurnsThen(cal, before, RowsTurns(q), if |windows| < size then ReadTurns(|ids|, others.lookups, 0) else []);
      if size - |offers| > 0 {
        Meanwhile(others.query);
        assert Contents() == AfterTurns(cal, before, RowsTurns(q));
        var retries := OfferRetries(ids, others.lookups);
        offers := offers + retries;
      }
    }

    // ---------- definition states ----------

    method ReplaceRevision(d: Definition, next: Instant, source: Source, enabled: bool) returns (matched: bool)
      modifies this`states
      ensures var after := Projection.ReplaceRevision(old(states), d, next, source, enabled);
        matched == after.Some? && states == (if matched then after.value else old(states))
    {
      matched := d.key in states && states[d.key].source == source && states[d.key].revision != d.revision;
      if matched {
        states := states[d.key := states[d.key].(revision := d.revision, enabled := enabled, definition := d, nextRun := next)];
      }
    }

    method RefreshRow(d: Definition, source: Source, enabled: bool) returns (matched: bool)
      modifies this`states
      ensures var after := Projection.RefreshRow(old(states), d, source, enabled);
        matched == after.Some? && states == (if matched then after.value else old(states))
    {
      matched := d.key in states && states[d.key].source == source;
      if matched {
        var row := states[d.key].(definition := d);
        if source != ScheduledPlan || !enabled { row := row.(enabled := enabled); }
        states := states[d.key := row];
      }
    }

    method InsertRow(d: Definition, next: Instant, source: Source, enabled: bool) returns (inserted: bool)
      modifies this`states
      ensures var after := Projection.InsertRow(old(states), d, next, source, enabled);
        inserted == after.Some? && states == (if inserted then after.value else old(states))
    {
      inserted := d.key !in states;
      if inserted { states := states[d.key := DefState(source, d.revision, enabled, d, next, None, "", 0)]; }
    }

    /** Up to four statements, each committed on its own unless the caller has a transaction open.
        Nobody comes between them here; `PlanRaces`, `PlanOverlaps` and `EmbeddedReconcile` are about
        somebody doing so. */
    method ReconcileWith(d: Definition, next: Instant, source: Source, enabled: bool) returns (r: Outcome)
      modifies this`states
      ensures var after := Projection.Reconcile(old(states), d, next, source, enabled);
        && r == (if after.Some? then Done else Refused(SourceConflict))
        && states == (if after.Some? then after.value else old(states))
    {
      StatementsAlone(states, d, next, source, enabled);
      var matched := ReplaceRevision(d, next, source, enabled);
      if matched { return Done; }
      matched := RefreshRow(d, source, enabled);
      if matched { return Done; }
      var inserted := InsertRow(d, next, source, enabled);
      if inserted { return Done; }
      matched := RefreshRow(d, source, enabled);
      return if matched then Done else Refused(SourceConflict);
    }

    /** Two statements; without active keys there is no second. */
    method DisableMissing(active: seq<string>, revision: int)
      modifies this`states
      ensures states == Projection.DisableMissing(old(states), active, revision)
    {
      states := DisableAll(states, revision);
      if |active| == 0 {
        assert Activate(states, active, revision) == states;
        return;
      }
      states := Activate(states, active, revision);
    }

    /** One transaction: reconcile the enabled definitions, then disable what the snapshot no longer
        has.  A key conflict puts everything back. */
    method ApplyDefinitions(defs: seq<Definition>, revision: int, now: Instant) returns (r: Outcome)
      modifies this`states
      ensures var after := ApplySnapshot(cal, old(states), defs, revision, now);
        && r == (if after.Some? then Done else Refused(SourceConflict))
        && states == (if after.Some? then after.value else old(states))
    {
      var before, active := states, [];
      var i := 0;
      while i < |defs|
        invariant 0 <= i <= |defs|
        invariant active == ActiveKeys(defs[..i])
        invariant ReconcileAll(cal, before, defs[..i], now) == Some(states)
      {
        assert defs[..i + 1][..i] == defs[..i] && defs[..i + 1][i] == defs[i];
        if defs[i].enabled {
          active := active + [defs[i].key];
          var next := cal.next(defs[i].schedule, now);
          if defs[i].initialNextRun != 0 && defs[i].initialNextRun < next { next := defs[i].initialNextRun; }
          var done := ReconcileWith(defs[i], next, RuntimeDefinition, true);
          if done != Done {
            ConflictIsFinal(cal, before, defs, i + 1, now);
            states := before;
            return Refused(SourceConflict);
          }
        }
        i := i + 1;
      }
      assert defs[..|defs|] == defs;
      DisableMissing(active, revision);
      return Done;
    }
  }

  lemma {:induction false} ConflictIsFinal(cal: Calendar, states: States, defs: seq<Definition>, n: nat, now: Instant)
    requires n <= |defs| && ReconcileAll(cal, states, defs[..n], now).None?
    ensures ReconcileAll(cal, states, defs, now).None?
    decreases |defs|
  {
    if n < |defs| {
      assert defs[..|defs| - 1][..n] == defs[..n];
      ConflictIsFinal(cal, states, defs[..|defs| - 1], n, now);
    } else {
      assert defs[..n] == defs;
    }
  }

  /** The tables when the n-th definition is read. */
  function ReadDb(cal: Calendar, db: Db, lookups: nat -> seq<Op>, i: nat, n: nat): Db
    decreases n
  {
    var here := After(cal, db, lookups(i));
    if n == 0 then here else ReadDb(cal, here, lookups, i + 1, n - 1)
  }

  /** The offer of the n-th run of the answer, with the definition it finds. */
  predicate OfferedAs(cal: Calendar, db: Db, ids: seq<RunId>, lookups: nat -> seq<Op>, i: nat, n: nat, due: DueTrigger) {
    n < |ids| && var states := ReadDb(cal, db, lookups, i, n).states;
      ids[n].key in states && due == DueTrigger(states[ids[n].key].definition, ids[n].at, 0, 0)
  }

  /** With room to spare, every run that may be retried or taken over when the store is asked is
      offered, at its own window, if its definition is known; and nothing else is. */
  lemma {:induction false} RetriesOffered(cal: Calendar, db: Db, now: Instant, room: int, ids: seq<RunId>, lookups: nat -> seq<Op>, id: RunId)
    requires AnswersRetries(db.runs, now, room, ids) && |ids| < room
    ensures id in db.runs && Takeable(db.runs[id], now) && id.key in db.states ==>
      exists due, n: nat :: due in RetryOffers(cal, db, ids, lookups, 0) && OfferedAs(cal, db, ids, lookups, 0, n, due) && ids[n] == id
    ensures forall due :: due in RetryOffers(cal, db, ids, lookups, 0) ==>
      exists n: nat :: OfferedAs(cal, db, ids, lookups, 0, n, due) && ids[n] in db.runs && Takeable(db.runs[ids[n]], now)
  {
    if id in db.runs && Takeable(db.runs[id], now) && id.key in db.states {
      var n: nat :| n < |ids| && ids[n] == id;
      var due := RetryOfId(cal, db, ids, lookups, 0, n);
    }
    forall due | due in RetryOffers(cal, db, ids, lookups, 0)
      ensures exists n: nat :: OfferedAs(cal, db, ids, lookups, 0, n, due) && ids[n] in db.runs && Takeable(db.runs[ids[n]], now)
    {
      var n := RetryOrigin(cal, db, ids, lookups, 0, due);
    }
  }

  lemma {:induction false} RetryOfId(cal: Calendar, db: Db, ids: seq<RunId>, lookups: nat -> seq<Op>, i: nat, n: nat) returns (due: DueTrigger)
    requires n < |ids| && ids[n].key in db.states
    ensures due in RetryOffers(cal, db, ids, lookups, i) && OfferedAs(cal, db, ids, lookups, i, n, due)
    decreases n
  {
    var here := After(cal, db, lookups(i));
    AfterKeepsStates(cal, db, lookups(i), ids[n].key);
    if n == 0 {
      due := DueTrigger(here.states[ids[0].key].definition, ids[0].at, 0, 0);
    } else {
      due := RetryOfId(cal, here, ids[1..], lookups, i + 1, n - 1);
    }
  }

  lemma {:induction false} RetryOrigin(cal: Calendar, db: Db, ids: seq<RunId>, lookups: nat -> seq<Op>, i: nat, due: DueTrigger) returns (n: nat)
    requires due in RetryOffers(cal, db, ids, lookups, i)
    ensures OfferedAs(cal, db, ids, lookups, i, n, due)
    decreases |ids|
  {
    var here := After(cal, db, lookups(i));
    if ids[0].key in here.states && due == DueTrigger(here.states[ids[0].key].definition, ids[0].at, 0, 0) {
      n := 0;
    } else {
      n := RetryOrigin(cal, here, ids[1..], lookups, i + 1, due);
      n := n + 1;
    }
  }

  // ---------- what a due scan offers ----------

  ghost predicate LawfulMisfire(cal: Calendar, resolve: Misfire) {
    forall d: Definition, cursor: Instant, now: Instant, room: nat ::
      LawfulResolution(cal, d.schedule, cursor, resolve(d, cursor, now, room), room)
  }

  lemma {:induction false} DueWithinLimit(cal: Calendar, resolve: Misfire, rows: seq<DueRow>, now: Instant, room: nat)
    requires LawfulMisfire(cal, resolve)
    ensures |DueOffers(resolve, rows, now, room)| <= room
  {
    WithinLimit(cal, resolve, rows, now, room, |rows|);
  }

  lemma {:induction false} WithinLimit(cal: Calendar, resolve: Misfire, rows: seq<DueRow>, now: Instant, size: nat, n: nat)
    requires LawfulMisfire(cal, resolve) && n <= |rows|
    ensures |OffersUpTo(resolve, rows, now, size, n)| <= size
    decreases n
  {
    if n > 0 {
      WithinLimit(cal, resolve, rows, now, size, n - 1);
      var row, room := rows[n - 1], size - |OffersUpTo(resolve, rows, now, size, n - 1)|;
      assert LawfulResolution(cal, row.definition.schedule, row.cursor, resolve(row.definition, row.cursor, now, room), room);
    }
  }

  /** Every offer names a row of the scan and is one window of its resolution. */
  lemma {:induction false} DueOfferOrigin(resolve: Misfire, rows: seq<DueRow>, now: Instant, size: nat, n: nat, i: nat) returns (j: nat, space: nat, k: nat)
    requires n <= |rows| && i < |OffersUpTo(resolve, rows, now, size, n)|
    ensures j < n && 0 < space <= size
    ensures var r := resolve(rows[j].definition, rows[j].cursor, now, space);
      k < |r.windows| && OffersUpTo(resolve, rows, now, size, n)[i] == OfferAt(rows[j].definition, r, k)
    decreases n
  {
    var before := OffersUpTo(resolve, rows, now, size, n - 1);
    if i < |before| {
      j, space, k := DueOfferOrigin(resolve, rows, now, size, n - 1, i);
    } else {
      j, space, k := n - 1, size - |before|, i - |before|;
    }
  }

  lemma {:induction false} SkipOrigin(resolve: Misfire, rows: seq<DueRow>, now: Instant, size: nat, n: nat, i: nat) returns (j: nat, space: nat)
    requires n <= |rows| && i < |SkipsUpTo(resolve, rows, now, size, n)|
    ensures j < n && 0 < space <= size
    ensures var r := resolve(rows[j].definition, rows[j].cursor, now, space);
      |r.windows| == 0
      && SkipsUpTo(resolve, rows, now, size, n)[i] == FastForward(rows[j].definition.key, rows[j].cursor, r.cursorAfter, r.disable)
    decreases n
  {
    if i < |SkipsUpTo(resolve, rows, now, size, n - 1)| {
      j, space := SkipOrigin(resolve, rows, now, size, n - 1, i);
    } else {
      j, space := n - 1, size - |OffersUpTo(resolve, rows, now, size, n - 1)|;
    }
  }

  lemma {:induction false} SkipsFastForward(resolve: Misfire, rows: seq<DueRow>, now: Instant, room: nat, op: Op)
    requires op in DueSkips(resolve, rows, now, room)
    ensures op.FastForward?
  {
    var i :| 0 <= i < |DueSkips(resolve, rows, now, room)| && DueSkips(resolve, rows, now, room)[i] == op;
    var j, space := SkipOrigin(resolve, rows, now, room, |rows|, i);
  }

  /** Whatever a due scan offers or skips for a definition stays a lawful step for that definition
      however long a worker keeps it before acting. */
  lemma {:induction false} ScanStaysGenuine(cal: Calendar, resolve: Misfire, rows: seq<DueRow>, now: Instant, limit: nat,
                         key: string, s: Schedule, start: Instant, db: Db, op: Op)
    requires Lawful(cal) && LawfulMisfire(cal, resolve) && !s.once
    requires forall j :: 0 <= j < |rows| && rows[j].definition.key == key ==> rows[j].definition.schedule == s && rows[j].cursor > 0
    requires (op.Claim? && op.due in DueOffers(resolve, rows, now, limit)) || op in DueSkips(resolve, rows, now, limit)
    ensures Genuine(cal, key, s, start, db, op)
  {
    if op.Claim? && op.due in DueOffers(resolve, rows, now, limit) {
      var i :| 0 <= i < |DueOffers(resolve, rows, now, limit)| && DueOffers(resolve, rows, now, limit)[i] == op.due;
      var j, space, k := DueOfferOrigin(resolve, rows, now, limit, |rows|, i);
      var d, cursor := rows[j].definition, rows[j].cursor;
      var r := resolve(d, cursor, now, space);
      assert LawfulResolution(cal, d.schedule, cursor, r, space);
      if d.key == key {
        WindowsInOrbit(cal, s, cursor, r, space, k);
        OrbitForward(cal, s, cursor, r.windows[k]);
        OffersAreGenuine(cal, d, start, cursor, r, space, k, db, op);
      }
    } else {
      var i :| 0 <= i < |DueSkips(resolve, rows, now, limit)| && DueSkips(resolve, rows, now, limit)[i] == op;
      var j, space := SkipOrigin(resolve, rows, now, limit, |rows|, i);
      assert LawfulResolution(cal, rows[j].definition.schedule, rows[j].cursor,
                              resolve(rows[j].definition, rows[j].cursor, now, space), space);
    }
  }
}
