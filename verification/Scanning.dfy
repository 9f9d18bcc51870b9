/** Workers that scan, keep what they were offered for as long as they like, and act on it when they
    get to it.  Nothing is assumed about what they begin: it all comes from their scans. */
module Scanning {
  import opened Options
  import opened StoredTime
  import opened RunTables
  import opened Windows
  import opened WindowStatements
  import opened RunStore
  import S = RunStatements
  import DueScans
  import QuietTransactions
  import opened RunEffects

  /** One definition under watch, its schedule and first cursor, and the misfire rules in force. */
  datatype Site = Site(cal: Calendar, resolve: Misfire, key: string, schedule: Schedule, start: Instant)

  /** The statements in flight, and everything any scan has ever offered or decided to skip. */
  datatype Floor = Floor(m: S.Machine, offers: set<DueTrigger>, skips: set<Op>)

  datatype Move =
    | ScanRows(keys: seq<string>, now: Instant, room: nat)
    | ScanRetry(id: RunId)
    | Begin(tx: nat, due: DueTrigger, worker: string, ttl: int, now: Instant, limit: int)
    | Skip(op: Op)
    | Act(act: S.Act)

  ghost predicate Watched(c: Site) {
    Lawful(c.cal) && LawfulMisfire(c.cal, c.resolve) && !c.schedule.once
  }

  /** What is begun without a scan: manual triggers off the watched schedule, writes of a definition
      that keep the watched schedule and its cursor, and everything that is about runs. */
  ghost predicate Unscanned(c: Site, db: Db, op: Op)
    requires Watched(c)
  {
    match op
    case Claim(due, _, _, _, _) => !MovesCursor(due) && (due.definition.key == c.key ==> !InOrbit(c.cal, c.schedule, c.start, due.scheduledFor))
    case FastForward(_, _, _, _) => false
    case Reschedule(k, _) => k != c.key
    case WriteState(k, row) =>
      row.definition.key == k
      && (k == c.key ==> k in db.states && row.nextRun == db.states[k].nextRun && row.definition.schedule == c.schedule)
    case _ => true
  }

  ghost function Step(c: Site, f: Floor, move: Move): Floor
    requires Watched(c)
  {
    var db := f.m.world.db;
    match move
    case ScanRows(keys, now, limit) =>
      if forall i :: 0 <= i < |keys| ==> keys[i] in db.states then
        var rows := Rows(db.states, keys);
        f.(offers := f.offers + (set due | due in DueOffers(c.resolve, rows, now, limit)),
           skips := f.skips + (set op | op in DueSkips(c.resolve, rows, now, limit)))
      else f
    case ScanRetry(id) =>
      if id in db.runs && id.key in db.states then f.(offers := f.offers + {DueTrigger(db.states[id.key].definition, id.at, 0, 0)}) else f
    case Begin(t, due, worker, ttl, now, limit) =>
      if due in f.offers then f.(m := S.Step(c.cal, f.m, S.Start(t, Claim(due, worker, ttl, now, limit)))) else f
    case Skip(op) =>
      if op in f.skips then f.(m := S.Step(c.cal, f.m, S.Single(op))) else f
    case Act(act) =>
      if act.Start? || act.Single? ==> Unscanned(c, db, act.op) then f.(m := S.Step(c.cal, f.m, act)) else f
  }

  ghost function RunOn(c: Site, f: Floor, moves: seq<Move>): Floor
    requires Watched(c)
  {
    if |moves| == 0 then f else Step(c, RunOn(c, f, moves[..|moves| - 1]), moves[|moves| - 1])
  }

  ghost function Run(c: Site, w: World, moves: seq<Move>): Floor
    requires Watched(c)
  {
    RunOn(c, Floor(S.Idle(w), {}, {}), moves)
  }

  // ---------- what stays true ----------

  /** Rows are stored under the keys of their definitions, and the watched one keeps its schedule. */
  predicate Keyed(c: Site, db: Db) {
    && c.key in db.states
    && forall k :: k in db.states ==> db.states[k].definition.key == k && (k == c.key ==> db.states[k].definition.schedule == c.schedule)
  }

  ghost predicate LawfulOffer(c: Site, db: Db, due: DueTrigger)
    requires Watched(c)
  {
    Genuine(c.cal, c.key, c.schedule, c.start, db, Claim(due, "", 0, 0, 0))
  }

  ghost predicate Steady(c: Site, w: World, f: Floor)
    requires Watched(c)
  {
    && S.Sound(c.cal, f.m)
    && GenuineSoFar(c.cal, c.key, c.schedule, c.start, w, f.m)
    && Keyed(c, f.m.world.db)
    && (forall due :: due in f.offers ==> LawfulOffer(c, f.m.world.db, due))
    && (forall op :: op in f.skips ==> op.FastForward? && Genuine(c.cal, c.key, c.schedule, c.start, f.m.world.db, op))
  }

  lemma {:induction false} CursorIsSet(c: Site, w: World, f: Floor)
    requires Watched(c) && Steady(c, w, f) && Partitioned(c.cal, c.key, c.schedule, c.start, w.db, {})
    ensures Cursor(f.m.world.db, c.key) > 0
  {
    WindowsStayPartitioned(c.cal, c.key, c.schedule, c.start, w, f.m.log);
    OrbitForward(c.cal, c.schedule, c.start, Cursor(f.m.world.db, c.key));
  }

  lemma {:induction false} ScanKeepsSteady(c: Site, w: World, f: Floor, keys: seq<string>, now: Instant, limit: nat)
    requires Watched(c) && Steady(c, w, f) && Partitioned(c.cal, c.key, c.schedule, c.start, w.db, {})
    ensures Steady(c, w, Step(c, f, ScanRows(keys, now, limit)))
  {
    var db := f.m.world.db;
    if forall i :: 0 <= i < |keys| ==> keys[i] in db.states {
      var rows := Rows(db.states, keys);
      CursorIsSet(c, w, f);
      forall due | due in DueOffers(c.resolve, rows, now, limit) ensures LawfulOffer(c, db, due) {
        ScanStaysGenuine(c.cal, c.resolve, rows, now, limit, c.key, c.schedule, c.start, db, Claim(due, "", 0, 0, 0));
      }
      forall op | op in DueSkips(c.resolve, rows, now, limit)
        ensures op.FastForward? && Genuine(c.cal, c.key, c.schedule, c.start, db, op)
      {
        ScanStaysGenuine(c.cal, c.resolve, rows, now, limit, c.key, c.schedule, c.start, db, op);
        SkipsFastForward(c.resolve, rows, now, limit, op);
      }
    }
  }

  lemma {:induction false} NextKeepsKeyed(c: Site, w: World, op: Op)
    requires Keyed(c, w.db)
    requires op.WriteState? ==> op.row.definition.key == op.key && (op.key == c.key ==> op.row.definition.schedule == c.schedule)
    ensures Keyed(c, Next(c.cal, w, op).db)
  {
  }

  lemma {:induction false} StepKeepsKeyed(c: Site, m: S.Machine, act: S.Act)
    requires S.Sound(c.cal, m) && Keyed(c, m.world.db)
    requires forall t :: t in m.txs ==> !m.txs[t].op.WriteState?
    requires act.Single? && act.op.WriteState? ==>
      act.op.row.definition.key == act.op.key && (act.op.key == c.key ==> act.op.row.definition.schedule == c.schedule)
    ensures Keyed(c, S.Step(c.cal, m, act).world.db)
    ensures m.world.db.runs.Keys <= S.Step(c.cal, m, act).world.db.runs.Keys
  {
    if act.Single? {
      NextKeepsKeyed(c, m.world, act.op);
      StepKeepsRuns(c.cal, m.world, act.op);
    } else if act.Execute? && act.tx in m.txs {
      var tx, others := m.txs[act.tx], m.txs - {act.tx};
      if S.Statement(c.cal, m.world.db, others, tx).Commit? {
        S.CommitOnlyWhenReady(c.cal, m.world.db, others, tx);
        S.CommitIsWholeTransaction(c.cal, m.world, tx);
        NextKeepsKeyed(c, m.world, tx.op);
        StepKeepsRuns(c.cal, m.world, tx.op);
      }
    }
  }

  /** What was lawful when it was offered is lawful whenever a worker gets to it. */
  lemma {:induction false} ActKeepsSteady(c: Site, w: World, f: Floor, act: S.Act)
    requires Watched(c) && Steady(c, w, f)
    requires act.Start? || act.Single? ==>
      && Genuine(c.cal, c.key, c.schedule, c.start, f.m.world.db, act.op)
      && (act.op.WriteState? ==> act.op.row.definition.key == act.op.key && (act.op.key == c.key ==> act.op.row.definition.schedule == c.schedule))
    ensures Steady(c, w, f.(m := S.Step(c.cal, f.m, act)))
  {
    var db, db' := f.m.world.db, S.Step(c.cal, f.m, act).world.db;
    S.StepKeepsSound(c.cal, f.m, act);
    StepStaysGenuine(c.cal, c.key, c.schedule, c.start, w, f.m, act);
    StepKeepsKeyed(c, f.m, act);
    forall due | due in f.offers ensures LawfulOffer(c, db', due) {
      GenuineStays(c.cal, c.key, c.schedule, c.start, db, db', Claim(due, "", 0, 0, 0));
    }
    forall op | op in f.skips ensures op.FastForward? && Genuine(c.cal, c.key, c.schedule, c.start, db', op) {
      GenuineStays(c.cal, c.key, c.schedule, c.start, db, db', op);
    }
  }

  lemma {:induction false} MoveKeepsSteady(c: Site, w: World, f: Floor, move: Move)
    requires Watched(c) && Steady(c, w, f) && Partitioned(c.cal, c.key, c.schedule, c.start, w.db, {})
    ensures Steady(c, w, Step(c, f, move))
  {
    match move
    case ScanRows(keys, now, limit) => ScanKeepsSteady(c, w, f, keys, now, limit);
    case ScanRetry(id) =>
    case Begin(t, due, worker, ttl, now, limit) =>
      if due in f.offers {
        assert LawfulOffer(c, f.m.world.db, due);
        ActKeepsSteady(c, w, f, S.Start(t, Claim(due, worker, ttl, now, limit)));
      }
    case Skip(op) => if op in f.skips { ActKeepsSteady(c, w, f, S.Single(op)); }
    case Act(act) =>
      if act.Start? || act.Single? ==> Unscanned(c, f.m.world.db, act.op) { ActKeepsSteady(c, w, f, act); }
  }

  lemma {:induction false} RunStaysSteady(c: Site, w: World, moves: seq<Move>)
    requires Watched(c) && Keyed(c, w.db) && Partitioned(c.cal, c.key, c.schedule, c.start, w.db, {})
    ensures Steady(c, w, Run(c, w, moves))
  {
    if |moves| > 0 {
      RunStaysSteady(c, w, moves[..|moves| - 1]);
      MoveKeepsSteady(c, w, Run(c, w, moves[..|moves| - 1]), moves[|moves| - 1]);
    }
  }

  /** Any number of workers scan, hold on to old offers, claim them twice or never, skip, retry, crash
      between any two statements: every window from the first cursor on has exactly one run, or was
      jumped, or is ahead of the cursor, and the cursor has not moved back. */
  lemma {:induction false} WindowsPartitionedByScanning(c: Site, w: World, moves: seq<Move>)
    requires Watched(c) && Keyed(c, w.db) && Partitioned(c.cal, c.key, c.schedule, c.start, w.db, {})
    ensures var m := Run(c, w, moves).m;
      && Partitioned(c.cal, c.key, c.schedule, c.start, m.world.db, Jumped(c.cal, c.key, c.schedule, w, m.log))
      && Cursor(m.world.db, c.key) >= Cursor(w.db, c.key)
  {
    RunStaysSteady(c, w, moves);
    WindowsStayPartitioned(c.cal, c.key, c.schedule, c.start, w, Run(c, w, moves).m.log);
  }

  /** A definition at its first cursor, with no run yet, is where this begins. */
  lemma {:induction false} UnclaimedIsPartitioned(c: Site, db: Db)
    requires Watched(c) && c.key in db.states && db.states[c.key].nextRun == c.start && c.start > 0
    requires forall id :: id in db.runs ==> id.key != c.key
    ensures Partitioned(c.cal, c.key, c.schedule, c.start, db, {})
  {
    forall v: Instant | InOrbit(c.cal, c.schedule, c.start, v) ensures v >= c.start { OrbitForward(c.cal, c.schedule, c.start, v); }
  }

  // ---------- nobody in between ----------

  lemma {:induction false} FirstAct(cal: Calendar, m: S.Machine, acts: seq<S.Act>)
    requires |acts| > 0
    ensures S.Run(cal, m, acts) == S.Run(cal, S.Step(cal, m, acts[0]), acts[1..])
  {
    if |acts| > 1 {
      var init := acts[..|acts| - 1];
      FirstAct(cal, m, init);
      assert acts[1..][..|acts[1..]| - 1] == init[1..];
    } else {
      assert acts[..0] == [];
    }
  }

  lemma {:induction false} ExecutesAlone(c: Site, f: Floor, t: nat, acts: seq<S.Act>) returns (moves: seq<Move>)
    requires Watched(c) && forall i :: 0 <= i < |acts| ==> acts[i] == S.Execute(t)
    ensures RunOn(c, f, moves) == f.(m := S.Run(c.cal, f.m, acts))
  {
    if |acts| == 0 {
      moves := [];
    } else {
      var init := ExecutesAlone(c, f, t, acts[..|acts| - 1]);
      moves := init + [Act(S.Execute(t))];
      assert moves[..|moves| - 1] == init;
    }
  }

  lemma {:induction false} FirstMove(c: Site, f: Floor, move: Move, moves: seq<Move>)
    requires Watched(c)
    ensures RunOn(c, f, [move] + moves) == RunOn(c, Step(c, f, move), moves)
  {
    var all := [move] + moves;
    if |moves| == 0 {
      assert all[..0] == [];
    } else {
      FirstMove(c, f, move, moves[..|moves| - 1]);
      assert all[..|all| - 1] == [move] + moves[..|moves| - 1];
    }
  }

  /** An offer that a worker begins and nobody comes between is claimed: its transaction takes all its effect. */
  lemma {:induction false} OfferIsClaimed(c: Site, f: Floor, due: DueTrigger, t: nat, worker: string, ttl: int, now: Instant, limit: int)
    returns (moves: seq<Move>)
    requires Watched(c) && f.m.txs == map[] && due in f.offers
    ensures RunOn(c, f, moves).m.world == Next(c.cal, f.m.world, Claim(due, worker, ttl, now, limit)) && RunOn(c, f, moves).m.txs == map[]
  {
    var acts := QuietTransactions.TransactionAlone(c.cal, f.m, t, Claim(due, worker, ttl, now, limit));
    FirstAct(c.cal, f.m, acts);
    var begin := Begin(t, due, worker, ttl, now, limit);
    var rest := ExecutesAlone(c, Step(c, f, begin), t, acts[1..]);
    FirstMove(c, f, begin, rest);
    moves := [begin] + rest;
  }

  /** So a window that the misfire rules want run at the cursor is run: a scan of its definition offers it, and a
      worker who takes the offer up has its run, leased to it, and has moved the cursor on. */
  lemma {:induction false} DueWindowIsRun(c: Site, f: Floor, key: string, now: Instant, room: nat, t: nat, worker: string, ttl: int, limit: int)
    returns (moves: seq<Move>)
    requires Watched(c) && f.m.txs == map[] && room > 0 && key in f.m.world.db.states
    requires var row := f.m.world.db.states[key]; var r := c.resolve(row.definition, row.nextRun, now, room);
      && row.definition.key == key && row.enabled && row.nextRun > 0 && |r.windows| > 0 && !row.definition.schedule.once
    requires var db := f.m.world.db;
      && RunId(key, db.states[key].nextRun) !in db.runs
      && |set id | id in db.runs && (db.runs[id].status == Leased || db.runs[id].status == Retrying)| < limit
    ensures var id, db := RunId(key, f.m.world.db.states[key].nextRun), RunOn(c, f, moves).m.world.db;
      && id in db.runs && db.runs[id].status == Leased && db.runs[id].owner == Some(worker)
      && key in db.states && db.states[key].nextRun > f.m.world.db.states[key].nextRun
  {
    var db := f.m.world.db;
    var row := db.states[key];
    var r := c.resolve(row.definition, row.nextRun, now, room);
    assert LawfulResolution(c.cal, row.definition.schedule, row.nextRun, r, room);
    var due := DueTrigger(row.definition, row.nextRun, row.nextRun, if |r.windows| == 1 then r.cursorAfter else 0);
    var scanned := Step(c, f, ScanRows([key], now, room));
    FirstWindowOffered(c.resolve, DueRow(row.definition, row.nextRun), now, room);
    assert Rows(db.states, [key]) == [DueRow(row.definition, row.nextRun)];
    assert due in scanned.offers;
    var rest := OfferIsClaimed(c, scanned, due, t, worker, ttl, now, limit);
    FirstMove(c, f, ScanRows([key], now, room), rest);
    moves := [ScanRows([key], now, room)] + rest;
    ClaimLeases(c.cal, db, due, worker, ttl, now, limit);
    ClaimMovesCursor(c.cal, db, due, worker, ttl, now, limit);
  }

  lemma {:induction false} FirstWindowOffered(resolve: Misfire, row: DueRow, now: Instant, room: nat)
    requires room > 0 && |resolve(row.definition, row.cursor, now, room).windows| > 0
    ensures var r := resolve(row.definition, row.cursor, now, room);
      DueTrigger(row.definition, r.windows[0], r.windows[0], if |r.windows| == 1 then r.cursorAfter else 0) in DueOffers(resolve, [row], now, room)
  {
    var q := Scan(resolve, [row], now, room, [], Others(_ => [], [], _ => []));
    var at := DueScans.WindowsOffered(q);
    assert at[0] == 0 && DueScans.OfferedFrom(WindowOffers(q), 0, row, resolve(row.definition, row.cursor, now, room));
  }
}
