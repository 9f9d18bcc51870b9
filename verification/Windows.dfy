/** The schedule windows of one definition, against the cursor and the run rows. */
module Windows {
  import opened Options
  import opened StoredTime
  import opened RunTables
  import opened RunInvariants

  // ---------- the orbit of a schedule ----------

  /** b is a or one of the windows after it. */
  ghost predicate InOrbit(cal: Calendar, s: Schedule, a: Instant, b: Instant)
    requires Lawful(cal) && !s.once
    decreases b - a
  {
    a == b || (a < b && InOrbit(cal, s, cal.next(s, a), b))
  }

  lemma {:induction false} OrbitForward(cal: Calendar, s: Schedule, a: Instant, b: Instant)
    requires Lawful(cal) && !s.once && InOrbit(cal, s, a, b)
    ensures a <= b
    ensures a < b ==> cal.next(s, a) <= b
    decreases b - a
  {
    if a < b { OrbitForward(cal, s, cal.next(s, a), b); }
  }

  lemma {:induction false} OrbitTransitive(cal: Calendar, s: Schedule, a: Instant, b: Instant, c: Instant)
    requires Lawful(cal) && !s.once && InOrbit(cal, s, a, b) && InOrbit(cal, s, b, c)
    ensures InOrbit(cal, s, a, c)
    decreases b - a
  {
    OrbitForward(cal, s, b, c);
    if a < b { OrbitTransitive(cal, s, cal.next(s, a), b, c); }
  }

  /** Two windows of one orbit: the later is in the orbit of the earlier. */
  lemma {:induction false} OrbitLinear(cal: Calendar, s: Schedule, a: Instant, b: Instant, v: Instant)
    requires Lawful(cal) && !s.once && InOrbit(cal, s, a, b) && InOrbit(cal, s, a, v) && b <= v
    ensures InOrbit(cal, s, b, v)
    decreases b - a
  {
    if a < b { OrbitLinear(cal, s, cal.next(s, a), b, v); }
  }

  // ---------- steps that respect the schedule ----------

  /** Where a claim or a misfire decision may send the cursor: nowhere in particular, or to a later
      window of the same orbit. */
  ghost predicate LawfulTarget(cal: Calendar, s: Schedule, from: Instant, next: Instant)
    requires Lawful(cal) && !s.once
  {
    next == 0 || (from < next && InOrbit(cal, s, from, next))
  }

  /** A step of any worker while the definition keeps its revision and is not rescheduled: offers
      come from a misfire resolution, however old; a claim that does not move the cursor is for a
      run that exists or for an instant off the schedule. */
  ghost predicate Genuine(cal: Calendar, key: string, s: Schedule, start: Instant, db: Db, op: Op)
    requires Lawful(cal) && !s.once
  {
    match op
    case Claim(due, _, _, _, _) =>
      due.definition.key == key ==>
        if MovesCursor(due)
        then due.definition.schedule == s && due.scheduledFor == due.expectedCursor && LawfulTarget(cal, s, due.expectedCursor, due.nextRunAt)
        else IdOf(due) in db.runs || !InOrbit(cal, s, start, due.scheduledFor)
    case FastForward(k, expected, next, _) => k == key ==> LawfulTarget(cal, s, expected, next)
    case Reschedule(k, _) => k != key
    case WriteState(k, row) => k == key ==> key in db.states && row.nextRun == db.states[key].nextRun
    case _ => true
  }

  ghost predicate GenuineHistory(cal: Calendar, key: string, s: Schedule, start: Instant, w: World, ops: seq<Op>)
    requires Lawful(cal) && !s.once
  {
    forall i :: 0 <= i < |ops| ==> Genuine(cal, key, s, start, History(cal, w, ops[..i]).db, ops[i])
  }

  // ---------- the partition ----------

  function Cursor(db: Db, key: string): Instant {
    if key in db.states then db.states[key].nextRun else 0
  }

  /** The windows a step jumps over: those between the claimed window and its next run, or those a
      fast-forward leaves behind. */
  ghost function Skipped(cal: Calendar, key: string, s: Schedule, db: Db, op: Op): set<Instant>
    requires Lawful(cal) && !s.once
  {
    match op
    case Claim(due, _, _, _, limit) =>
      if due.definition.key == key && MovesCursor(due) && ClaimAdmits(db, due, limit)
      then set v: Instant | due.expectedCursor < v < AdvanceTarget(cal, due.definition, due.expectedCursor, due.nextRunAt)
                            && InOrbit(cal, s, due.expectedCursor, v)
      else {}
    case FastForward(k, expected, next, _) =>
      if k == key && AtCursor(db.states, key, expected)
      then set v: Instant | expected <= v < next && InOrbit(cal, s, expected, v)
      else {}
    case _ => {}
  }

  ghost function Jumped(cal: Calendar, key: string, s: Schedule, w: World, ops: seq<Op>): set<Instant>
    requires Lawful(cal) && !s.once
  {
    if |ops| == 0 then {} else
      Jumped(cal, key, s, w, ops[..|ops| - 1]) + Skipped(cal, key, s, History(cal, w, ops[..|ops| - 1]).db, ops[|ops| - 1])
  }

  predicate ExactlyOne(a: bool, b: bool, c: bool) {
    (a && !b && !c) || (!a && b && !c) || (!a && !b && c)
  }

  /** Every window from the start on is claimed, jumped, or still ahead of the cursor: exactly one. */
  ghost predicate Partitioned(cal: Calendar, key: string, s: Schedule, start: Instant, db: Db, jumped: set<Instant>)
    requires Lawful(cal) && !s.once
  {
    && key in db.states && start > 0
    && InOrbit(cal, s, start, Cursor(db, key))
    && forall v: Instant :: InOrbit(cal, s, start, v) ==> ExactlyOne(RunId(key, v) in db.runs, v in jumped, v >= Cursor(db, key))
  }

  lemma {:induction false} RunsOnlyAppear(cal: Calendar, db: Db, op: Op, id: RunId)
    ensures id in Tables(cal, db, op).runs <==> id in db.runs || (op.Claim? && id == IdOf(op.due) && ClaimAdmits(db, op.due, op.limit))
  {
  }

  lemma {:induction false} ClaimKeepsPartition(cal: Calendar, key: string, s: Schedule, start: Instant, db: Db, jumped: set<Instant>, op: Op)
    requires Lawful(cal) && !s.once && Partitioned(cal, key, s, start, db, jumped)
    requires op.Claim? && ClaimAdmits(db, op.due, op.limit) && MovesCursor(op.due) && op.due.definition.key == key
    requires Genuine(cal, key, s, start, db, op)
    ensures Partitioned(cal, key, s, start, Tables(cal, db, op), jumped + Skipped(cal, key, s, db, op))
    ensures Cursor(Tables(cal, db, op), key) > Cursor(db, key)
  {
    var due, db' := op.due, Tables(cal, db, op);
    var from := due.expectedCursor;
    var target := AdvanceTarget(cal, due.definition, from, due.nextRunAt);
    OrbitForward(cal, s, start, from);
    assert InOrbit(cal, s, from, cal.next(s, from)) by { assert InOrbit(cal, s, cal.next(s, from), cal.next(s, from)); }
    assert Cursor(db, key) == from && Cursor(db', key) == target && target > from && InOrbit(cal, s, from, target);
    OrbitTransitive(cal, s, start, from, target);
    forall v: Instant | InOrbit(cal, s, start, v)
      ensures ExactlyOne(RunId(key, v) in db'.runs, v in jumped + Skipped(cal, key, s, db, op), v >= target)
    {
      RunsOnlyAppear(cal, db, op, RunId(key, v));
      if v >= from { OrbitLinear(cal, s, start, from, v); }
    }
  }

  lemma {:induction false} FastForwardKeepsPartition(cal: Calendar, key: string, s: Schedule, start: Instant, db: Db, jumped: set<Instant>, op: Op)
    requires Lawful(cal) && !s.once && Partitioned(cal, key, s, start, db, jumped)
    requires op.FastForward? && op.key == key && AtCursor(db.states, key, op.expected)
    requires Genuine(cal, key, s, start, db, op)
    ensures Partitioned(cal, key, s, start, Tables(cal, db, op), jumped + Skipped(cal, key, s, db, op))
    ensures Cursor(Tables(cal, db, op), key) >= Cursor(db, key)
  {
    var db' := Tables(cal, db, op);
    if op.next != 0 {
      OrbitTransitive(cal, s, start, op.expected, op.next);
      forall v: Instant | InOrbit(cal, s, start, v)
        ensures ExactlyOne(RunId(key, v) in db'.runs, v in jumped + Skipped(cal, key, s, db, op), v >= op.next)
      {
        if v >= op.expected { OrbitLinear(cal, s, start, op.expected, v); }
      }
    }
  }

  lemma {:induction false} StepKeepsPartition(cal: Calendar, key: string, s: Schedule, start: Instant, w: World, jumped: set<Instant>, op: Op)
    requires Lawful(cal) && !s.once && Partitioned(cal, key, s, start, w.db, jumped)
    requires Genuine(cal, key, s, start, w.db, op)
    ensures var db' := Next(cal, w, op).db;
      && Partitioned(cal, key, s, start, db', jumped + Skipped(cal, key, s, w.db, op))
      && Cursor(db', key) >= Cursor(w.db, key)
  {
    if op.Claim? && ClaimAdmits(w.db, op.due, op.limit) && MovesCursor(op.due) && op.due.definition.key == key {
      ClaimKeepsPartition(cal, key, s, start, w.db, jumped, op);
    } else if op.FastForward? && op.key == key && AtCursor(w.db.states, key, op.expected) {
      FastForwardKeepsPartition(cal, key, s, start, w.db, jumped, op);
    } else {
      var db' := Next(cal, w, op).db;
      assert Cursor(db', key) == Cursor(w.db, key) && Skipped(cal, key, s, w.db, op) == {};
      forall v: Instant | InOrbit(cal, s, start, v) ensures RunId(key, v) in db'.runs <==> RunId(key, v) in w.db.runs {
        RunsOnlyAppear(cal, w.db, op, RunId(key, v));
      }
      assert jumped + {} == jumped;
    }
  }

  lemma {:induction false} PrefixIsGenuine(cal: Calendar, key: string, s: Schedule, start: Instant, w: World, ops: seq<Op>, n: nat)
    requires Lawful(cal) && !s.once && GenuineHistory(cal, key, s, start, w, ops) && n <= |ops|
    ensures GenuineHistory(cal, key, s, start, w, ops[..n])
  {
    forall j | 0 <= j < n ensures Genuine(cal, key, s, start, History(cal, w, ops[..n][..j]).db, ops[..n][j]) {
      assert ops[..n][..j] == ops[..j];
    }
  }

  /** While a definition keeps its revision, under any interleaving of workers with offers of any
      age, every window from the first cursor on has exactly one run, or was jumped by a recorded
      decision, or is still ahead of the cursor. */
  lemma {:induction false} WindowsStayPartitioned(cal: Calendar, key: string, s: Schedule, start: Instant, w: World, ops: seq<Op>)
    requires Lawful(cal) && !s.once && Partitioned(cal, key, s, start, w.db, {})
    requires GenuineHistory(cal, key, s, start, w, ops)
    ensures Partitioned(cal, key, s, start, History(cal, w, ops).db, Jumped(cal, key, s, w, ops))
    ensures Cursor(History(cal, w, ops).db, key) >= Cursor(w.db, key)
  {
    if |ops| > 0 {
      var init, last := ops[..|ops| - 1], ops[|ops| - 1];
      var before, jumped := History(cal, w, init), Jumped(cal, key, s, w, init);
      assert Partitioned(cal, key, s, start, before.db, jumped) && Cursor(before.db, key) >= Cursor(w.db, key) by {
        PrefixIsGenuine(cal, key, s, start, w, ops, |ops| - 1);
        WindowsStayPartitioned(cal, key, s, start, w, init);
      }
      assert Genuine(cal, key, s, start, before.db, last);
      StepKeepsPartition(cal, key, s, start, before, jumped, last);
      assert History(cal, w, ops) == Next(cal, before, last);
    }
  }

  /** The cursor never moves back along such a history. */
  lemma {:induction false} CursorNeverMovesBack(cal: Calendar, key: string, s: Schedule, start: Instant, w: World, ops: seq<Op>, i: nat)
    requires Lawful(cal) && !s.once && Partitioned(cal, key, s, start, w.db, {})
    requires GenuineHistory(cal, key, s, start, w, ops) && i < |ops|
    ensures Cursor(History(cal, w, ops[..i]).db, key) <= Cursor(History(cal, w, ops[..i + 1]).db, key)
  {
    PrefixIsGenuine(cal, key, s, start, w, ops, i);
    WindowsStayPartitioned(cal, key, s, start, w, ops[..i]);
    assert Genuine(cal, key, s, start, History(cal, w, ops[..i]).db, ops[i]);
    StepKeepsPartition(cal, key, s, start, History(cal, w, ops[..i]), Jumped(cal, key, s, w, ops[..i]), ops[i]);
    assert ops[..i + 1][..i] == ops[..i];
  }

  // ---------- manual triggers ----------

  /** A claim that does not move the cursor and takes effect keeps the partition exactly when its
      instant is not a window of the schedule. */
  lemma {:induction false} ManualRunKeepsPartitionExactly(cal: Calendar, key: string, s: Schedule, start: Instant, db: Db, jumped: set<Instant>, op: Op)
    requires Lawful(cal) && !s.once && Partitioned(cal, key, s, start, db, jumped)
    requires op.Claim? && op.due.definition.key == key && !MovesCursor(op.due) && ClaimAdmits(db, op.due, op.limit)
    ensures Partitioned(cal, key, s, start, Tables(cal, db, op), jumped) <==> !InOrbit(cal, s, start, op.due.scheduledFor)
  {
    var db', at := Tables(cal, db, op), op.due.scheduledFor;
    assert Cursor(db', key) == Cursor(db, key);
    if InOrbit(cal, s, start, at) {
      assert ExactlyOne(RunId(key, at) in db.runs, at in jumped, at >= Cursor(db, key));
      assert RunId(key, at) in db'.runs;
    } else {
      forall v: Instant | InOrbit(cal, s, start, v) ensures RunId(key, v) in db'.runs <==> RunId(key, v) in db.runs {
        RunsOnlyAppear(cal, db, op, RunId(key, v));
      }
    }
  }

  /** What workers do with offers of the scan and with runs: no jump, no reschedule, no write of the
      definition itself, and cursor claims only of the window at the cursor they name. */
  predicate RunsOnly(key: string, op: Op) {
    match op
    case Claim(due, _, _, _, _) => MovesCursor(due) ==> due.scheduledFor == due.expectedCursor
    case FastForward(k, _, _, _) => k != key
    case Reschedule(k, _) => k != key
    case WriteState(k, _) => k != key
    case _ => true
  }

  /** A manual run at exactly the cursor blocks it: no claim can advance the definition until a
      fast-forward, a reschedule or a new revision does. */
  lemma {:induction false} RunAtCursorBlocksClaims(cal: Calendar, key: string, w: World, ops: seq<Op>)
    requires key in w.db.states && RunId(key, Cursor(w.db, key)) in w.db.runs
    requires forall i :: 0 <= i < |ops| ==> RunsOnly(key, ops[i])
    ensures var db := History(cal, w, ops).db;
      key in db.states && Cursor(db, key) == Cursor(w.db, key) && RunId(key, Cursor(w.db, key)) in db.runs
  {
    if |ops| > 0 {
      var last := ops[|ops| - 1];
      RunAtCursorBlocksClaims(cal, key, w, ops[..|ops| - 1]);
      BlockedStep(cal, key, History(cal, w, ops[..|ops| - 1]), last);
    }
  }

  lemma {:induction false} BlockedStep(cal: Calendar, key: string, w: World, op: Op)
    requires key in w.db.states && RunId(key, Cursor(w.db, key)) in w.db.runs && RunsOnly(key, op)
    ensures var db := Next(cal, w, op).db;
      key in db.states && Cursor(db, key) == Cursor(w.db, key) && RunId(key, Cursor(w.db, key)) in db.runs
  {
  }

  /** Claims and run operations that get the cursor of a definition to move. */
  ghost predicate MovesOn(cal: Calendar, key: string, w: World, ops: seq<Op>) {
    && (forall i :: 0 <= i < |ops| ==> RunsOnly(key, ops[i]))
    && key in History(cal, w, ops).db.states && Cursor(History(cal, w, ops).db, key) != Cursor(w.db, key)
  }

  /** So a definition that is enabled and recurring can be moved on by claims if and only if its
      window at the cursor has no run yet. */
  lemma {:induction false} ClaimsMoveCursorExactly(cal: Calendar, key: string, w: World)
    requires Lawful(cal) && key in w.db.states && w.db.states[key].enabled && Cursor(w.db, key) > 0
    requires var d := w.db.states[key].definition; d.key == key && !d.schedule.once
    ensures (exists ops :: MovesOn(cal, key, w, ops)) <==> RunId(key, Cursor(w.db, key)) !in w.db.runs
  {
    var at, d := Cursor(w.db, key), w.db.states[key].definition;
    if RunId(key, at) in w.db.runs {
      forall ops ensures !MovesOn(cal, key, w, ops) {
        if forall i :: 0 <= i < |ops| ==> RunsOnly(key, ops[i]) { RunAtCursorBlocksClaims(cal, key, w, ops); }
      }
    } else {
      var claim := Claim(DueTrigger(d, at, at, 0), "", 0, 0, |Pending(w.db.runs)| + 1);
      assert History(cal, w, [claim][..0]) == w && cal.next(d.schedule, at) > at;
      assert MovesOn(cal, key, w, [claim]);
    }
  }

  /** And that happens: a manual trigger at the very instant of the cursor is claimed on empty tables,
      and the scheduled claim of that window then has no effect. */
  lemma {:induction false} ManualRunAtCursor(cal: Calendar, states: States, d: Definition, worker: string, ttl: int, now: Instant, next: Instant)
    returns (manual: Op)
    requires d.key in states && states[d.key].enabled && states[d.key].nextRun > 0
    ensures manual.Claim? && !MovesCursor(manual.due) && RunsOnly(d.key, manual)
    ensures var w := History(cal, Fresh(states), [manual]); var at := states[d.key].nextRun;
      && Cursor(w.db, d.key) == at && RunId(d.key, at) in w.db.runs
      && Next(cal, w, Claim(DueTrigger(d, at, at, next), worker, ttl, now, 10_000)).db == w.db
  {
    var at := states[d.key].nextRun;
    manual := Claim(DueTrigger(d, at, 0, 0), worker, ttl, now, 10_000);
    assert [manual][..0] == [];
    assert Pending(Fresh(states).db.runs) == {};
    assert History(cal, Fresh(states), [manual]) == Next(cal, Fresh(states), manual);
  }

  // ---------- one-time schedules ----------

  /** Claiming a one-time window disables the definition, and nothing short of a definition write
      enables it again. */
  lemma {:induction false} OneTimeWindowIsSpent(cal: Calendar, key: string, w: World, claim: Op, ops: seq<Op>)
    requires claim.Claim? && claim.due.definition.key == key && claim.due.definition.schedule.once
    requires MovesCursor(claim.due) && ClaimAdmits(w.db, claim.due, claim.limit)
    requires forall i :: 0 <= i < |ops| && ops[i].WriteState? ==> ops[i].key != key
    ensures var db := History(cal, Next(cal, w, claim), ops).db; key in db.states && !db.states[key].enabled
  {
    if |ops| > 0 { OneTimeWindowIsSpent(cal, key, w, claim, ops[..|ops| - 1]); }
  }

  // ---------- bounded catch-up ----------

  /** What the misfire rules decide for one definition at its cursor. */
  datatype Resolution = Resolution(windows: seq<Instant>, cursorAfter: Instant, disable: bool)

  /** Windows from the cursor on without a gap, at most as many as asked for; the cursor after them
      is in the orbit and later. */
  ghost predicate LawfulResolution(cal: Calendar, s: Schedule, cursor: Instant, r: Resolution, remaining: nat) {
    && |r.windows| <= remaining
    && (|r.windows| > 0 ==> r.windows[0] == cursor)
    && (forall i :: 0 <= i < |r.windows| - 1 ==> r.windows[i + 1] == cal.next(s, r.windows[i]))
    && (Lawful(cal) && !s.once ==>
          LawfulTarget(cal, s, if |r.windows| > 0 then r.windows[|r.windows| - 1] else cursor, r.cursorAfter))
  }

  function OfferAt(d: Definition, r: Resolution, i: nat): DueTrigger
    requires i < |r.windows|
  {
    DueTrigger(d, r.windows[i], r.windows[i], if i == |r.windows| - 1 then r.cursorAfter else 0)
  }

  function Offers(d: Definition, r: Resolution): seq<DueTrigger> {
    seq(|r.windows|, i requires 0 <= i < |r.windows| => OfferAt(d, r, i))
  }

  lemma {:induction false} WindowsInOrbit(cal: Calendar, s: Schedule, cursor: Instant, r: Resolution, remaining: nat, i: nat)
    requires Lawful(cal) && !s.once && LawfulResolution(cal, s, cursor, r, remaining) && i < |r.windows|
    ensures InOrbit(cal, s, cursor, r.windows[i]) && (i > 0 ==> r.windows[i] > r.windows[i - 1])
  {
    if i > 0 {
      WindowsInOrbit(cal, s, cursor, r, remaining, i - 1);
      var before := r.windows[i - 1];
      assert r.windows[i] == cal.next(s, before);
      assert InOrbit(cal, s, r.windows[i], r.windows[i]);
      assert InOrbit(cal, s, before, r.windows[i]);
      OrbitTransitive(cal, s, cursor, before, r.windows[i]);
    }
  }

  /** Every offer of a resolution made while the definition was at a window of the orbit is genuine
      at any later moment. */
  lemma {:induction false} OffersAreGenuine(cal: Calendar, d: Definition, start: Instant, cursor: Instant, r: Resolution, remaining: nat, i: nat, db: Db, op: Op)
    requires Lawful(cal) && !d.schedule.once && LawfulResolution(cal, d.schedule, cursor, r, remaining) && i < |r.windows|
    requires op.Claim? && op.due == Offers(d, r)[i]
    requires r.windows[i] > 0
    ensures Genuine(cal, d.key, d.schedule, start, db, op)
  {
  }

  function CursorAfterBatch(cal: Calendar, d: Definition, r: Resolution, k: nat): Instant
    requires 0 < |r.windows| && k <= |r.windows|
  {
    if k < |r.windows| then r.windows[k]
    else AdvanceTarget(cal, d, r.windows[|r.windows| - 1], r.cursorAfter)
  }

  /** Claims of the offers, in order, by whichever workers. */
  predicate ClaimsOf(offers: seq<DueTrigger>, ops: seq<Op>) {
    |ops| == |offers| && forall i :: 0 <= i < |ops| ==> ops[i].Claim? && ops[i].due == offers[i]
  }

  predicate RoomFor(db: Db, ops: seq<Op>) {
    forall i :: 0 <= i < |ops| ==> ops[i].Claim? && |Pending(db.runs)| + i < ops[i].limit
  }

  lemma {:induction false} OneMorePending(cal: Calendar, db: Db, op: Op)
    ensures |Pending(Tables(cal, db, op).runs)| <= |Pending(db.runs)| + 1
  {
    if Target(op).Some? { PendingGrowsByOne(db.runs, Tables(cal, db, op).runs, Target(op).value); }
  }

  /** Claiming a batch in order claims every window; stopping after any prefix leaves the cursor at
      the first window not claimed, and claiming all leaves it where the resolution said. */
  lemma {:induction false} BatchLeavesCursor(cal: Calendar, d: Definition, r: Resolution, remaining: nat, w: World, ops: seq<Op>, k: nat)
    requires Lawful(cal) && !d.schedule.once && 0 < |r.windows| && r.windows[0] > 0
    requires AtCursor(w.db.states, d.key, r.windows[0])
    requires LawfulResolution(cal, d.schedule, r.windows[0], r, remaining)
    requires forall i :: 0 <= i < |r.windows| ==> RunId(d.key, r.windows[i]) !in w.db.runs
    requires ClaimsOf(Offers(d, r), ops) && RoomFor(w.db, ops) && k <= |ops|
    ensures var db := History(cal, w, ops[..k]).db;
      && AtCursor(db.states, d.key, CursorAfterBatch(cal, d, r, k))
      && (forall i :: 0 <= i < |r.windows| ==> (RunId(d.key, r.windows[i]) in db.runs <==> i < k))
      && |Pending(db.runs)| <= |Pending(w.db.runs)| + k
  {
    if k > 0 {
      BatchLeavesCursor(cal, d, r, remaining, w, ops, k - 1);
      assert ops[..k][..k - 1] == ops[..k - 1];
      var before, op := History(cal, w, ops[..k - 1]), ops[k - 1];
      OneMorePending(cal, before.db, op);
      assert op.due == OfferAt(d, r, k - 1);
      assert ClaimAdmits(before.db, op.due, op.limit);
      assert History(cal, w, ops[..k]) == Next(cal, before, op);
      forall i | 0 <= i < |r.windows| ensures r.windows[i] == r.windows[k - 1] ==> i == k - 1 {
        WindowsIncrease(cal, d.schedule, r, remaining, if i < k - 1 then i else k - 1, if i < k - 1 then k - 1 else i);
      }
    }
  }

  lemma {:induction false} WindowsIncrease(cal: Calendar, s: Schedule, r: Resolution, remaining: nat, i: nat, j: nat)
    requires Lawful(cal) && !s.once && |r.windows| > 0 && LawfulResolution(cal, s, r.windows[0], r, remaining) && i <= j < |r.windows|
    ensures i < j ==> r.windows[i] < r.windows[j]
    decreases j - i
  {
    if i < j {
      WindowsInOrbit(cal, s, r.windows[0], r, remaining, j);
      WindowsIncrease(cal, s, r, remaining, i, j - 1);
    }
  }
}
