/** The run-store transactions statement by statement, many at once.

    Every statement reads committed rows.  A transaction keeps what it wrote to itself until it
    commits, and from the statement that wrote a row until then nobody else can write that row; so
    the rows a transaction has written are the rows it has locked.  The capacity guard row is such
    a lock too.  The result is that every committed history is one of whole transactions. */
module RunStatements {
  import opened Options
  import opened StoredTime
  import opened RunTables
  import opened RunInvariants

  datatype Phase = Begun | Guarded | Checked | Counted | Written | Ready

  /** A transaction in flight: the rows it has written and not yet committed. */
  datatype Tx = Tx(op: Op, phase: Phase, runs: map<RunId, Run>, states: States, letters: map<RunId, DeadLetter>, emitted: seq<Event>)

  datatype Machine = Machine(world: World, txs: map<nat, Tx>, log: seq<Op>)

  datatype Act = Start(tx: nat, op: Op) | Execute(tx: nat) | Stop(tx: nat) | Single(op: Op)

  datatype Outcome = Blocked | Abort | Proceed(next: Tx) | Commit

  predicate HoldsGuard(tx: Tx) {
    (tx.op.Claim? || tx.op.Retry?) && tx.phase != Begun
  }

  // ---------- locks ----------

  predicate RunLocked(txs: map<nat, Tx>, id: RunId) {
    exists t :: t in txs && id in txs[t].runs
  }

  predicate StateLocked(txs: map<nat, Tx>, key: string) {
    exists t :: t in txs && key in txs[t].states
  }

  predicate LetterLocked(txs: map<nat, Tx>, id: RunId) {
    exists t :: t in txs && id in txs[t].letters
  }

  predicate GuardLocked(txs: map<nat, Tx>) {
    exists t :: t in txs && HoldsGuard(txs[t])
  }

  // ---------- statements ----------

  function ClaimStatement(cal: Calendar, db: Db, txs: map<nat, Tx>, tx: Tx): Outcome
    requires tx.op.Claim?
  {
    var Claim(due, worker, ttl, now, limit) := tx.op;
    var id, key := IdOf(due), due.definition.key;
    match tx.phase
    case Begun => if GuardLocked(txs) then Blocked else Proceed(tx.(phase := Guarded))
    case Guarded => if id in db.runs then Abort else Proceed(tx.(phase := Checked))
    case Checked => if |Pending(db.runs)| >= limit then Abort else Proceed(tx.(phase := Counted))
    case Counted =>
      if id in db.runs then Abort
      else if RunLocked(txs, id) then Blocked
      else Proceed(tx.(phase := Written, runs := map[id := NewRun(due, worker, ttl, now)]))
    case Written =>
      if !MovesCursor(due) then Proceed(tx.(phase := Ready, emitted := [Event(id, LeaseAcquired)]))
      else if !AtCursor(db.states, key, due.expectedCursor) then Abort
      else if StateLocked(txs, key) then Blocked
      else Proceed(tx.(phase := Ready, emitted := [Event(id, LeaseAcquired)],
                       states := map[key := AdvancedRow(cal, db.states[key], due.definition, due.expectedCursor, due.nextRunAt)]))
    case Ready => Commit
  }

  function RetryStatement(db: Db, txs: map<nat, Tx>, tx: Tx): Outcome
    requires tx.op.Retry?
  {
    var Retry(id, now, limit) := tx.op;
    match tx.phase
    case Begun => if GuardLocked(txs) then Blocked else Proceed(tx.(phase := Guarded))
    case Guarded => if !IsRetryable(db.runs, id) then Abort else Proceed(tx.(phase := Checked))
    case Checked => if |Pending(db.runs)| >= limit then Abort else Proceed(tx.(phase := Counted))
    case Counted =>
      if !IsRetryable(db.runs, id) then Abort
      else if RunLocked(txs, id) then Blocked
      else Proceed(tx.(phase := Written, runs := map[id := RequeuedRun(db.runs[id], now)]))
    case Written =>
      if !IsOpen(db.deadLetters, id) then Proceed(tx.(phase := Ready, emitted := [Event(id, RetryScheduled)]))
      else if LetterLocked(txs, id) then Blocked
      else Proceed(tx.(phase := Ready, emitted := [Event(id, RetryScheduled)],
                       letters := map[id := db.deadLetters[id].(resolved := true)]))
    case Ready => Commit
  }

  function FailStatement(db: Db, txs: map<nat, Tx>, tx: Tx): Outcome
    requires tx.op.Fail?
  {
    var Fail(h, maxAttempts, reason, retryAt) := tx.op;
    var terminal := IsTerminal(h, maxAttempts);
    match tx.phase
    case Begun =>
      if !LiveLease(db.runs, h) then Abort
      else if RunLocked(txs, h.id) then Blocked
      else Proceed(tx.(phase := Written, runs := map[h.id := FailedRun(db.runs[h.id], terminal, reason, retryAt)]))
    case Written =>
      if !terminal then Proceed(tx.(phase := Ready, emitted := [Event(h.id, RetryScheduled)]))
      else if h.id in db.deadLetters then Abort
      else if LetterLocked(txs, h.id) then Blocked
      else Proceed(tx.(phase := Ready, emitted := [Event(h.id, DeadLetteredEvent)], letters := map[h.id := DeadLetter(reason, false)]))
    case Ready => Commit
    case _ => Abort
  }

  /** The transactions that write one row and one event. */
  function OneRowStatement(db: Db, txs: map<nat, Tx>, tx: Tx): Outcome {
    match tx.op
    case Accept(h, receipt) =>
      if tx.phase == Ready then Commit
      else if !LiveLease(db.runs, h) then Abort
      else if RunLocked(txs, h.id) then Blocked
      else Proceed(tx.(phase := Ready, runs := map[h.id := AcceptedRun(db.runs[h.id], receipt)], emitted := [Event(h.id, Accepted)]))
    case Cancel(id) =>
      if tx.phase == Ready then Commit
      else if !CancelAdmits(db, id) then Abort
      else if RunLocked(txs, id) then Blocked
      else Proceed(tx.(phase := Ready, runs := map[id := CancelledRun(db.runs[id])], emitted := [Event(id, CancelledEvent)]))
    case ResolveDeadLetter(id) =>
      if tx.phase == Ready then Commit
      else if !IsOpen(db.deadLetters, id) then Abort
      else if LetterLocked(txs, id) then Blocked
      else Proceed(tx.(phase := Ready, letters := map[id := db.deadLetters[id].(resolved := true)], emitted := [Event(id, DeadLetterResolved)]))
    case _ => Abort
  }

  function Statement(cal: Calendar, db: Db, txs: map<nat, Tx>, tx: Tx): Outcome {
    match tx.op
    case Claim(_, _, _, _, _) => ClaimStatement(cal, db, txs, tx)
    case Retry(_, _, _) => RetryStatement(db, txs, tx)
    case Fail(_, _, _, _) => FailStatement(db, txs, tx)
    case _ => OneRowStatement(db, txs, tx)
  }

  /** The committed tables with a transaction's own rows over them. */
  function Merged(db: Db, tx: Tx): Db {
    Db(db.runs + tx.runs, db.states + tx.states, db.deadLetters + tx.letters, db.events + tx.emitted)
  }

  function Committed(w: World, tx: Tx): World {
    World(Merged(w.db, tx),
          w.held + (if tx.op.Claim? then set id | id in tx.runs :: HandleOf(id, tx.runs[id]) else {}),
          if tx.op.Accept? || tx.op.Fail? then w.completions + [(tx.op.handle.id, tx.op.handle.token)] else w.completions)
  }

  predicate IsSingle(op: Op) {
    op.TakeExpired? || op.Read? || op.Renew? || op.FastForward? || op.Reschedule? || op.WriteState?
  }

  predicate SingleBlocked(txs: map<nat, Tx>, op: Op) {
    match op
    case TakeExpired(id, _, _, _) => RunLocked(txs, id)
    case Renew(h, _) => RunLocked(txs, h.id)
    case FastForward(key, _, _, _) => StateLocked(txs, key)
    case Reschedule(key, _) => StateLocked(txs, key)
    case WriteState(key, _) => StateLocked(txs, key)
    case _ => false
  }

  function Step(cal: Calendar, m: Machine, act: Act): Machine {
    match act
    case Start(t, op) =>
      if t in m.txs || IsSingle(op) || !Enabled(m.world, op) then m
      else m.(txs := m.txs[t := Tx(op, Begun, map[], map[], map[], [])])
    case Execute(t) =>
      if t !in m.txs then m else
        (match Statement(cal, m.world.db, m.txs - {t}, m.txs[t])
         case Blocked => m
         case Abort => m.(txs := m.txs - {t})
         case Proceed(next) => m.(txs := m.txs[t := next])
         case Commit => Machine(Committed(m.world, m.txs[t]), m.txs - {t}, m.log + [m.txs[t].op]))
    case Stop(t) => m.(txs := m.txs - {t})
    case Single(op) =>
      if !IsSingle(op) || SingleBlocked(m.txs, op) then m
      else m.(world := Next(cal, m.world, op), log := m.log + [op])
  }

  function Run(cal: Calendar, m: Machine, acts: seq<Act>): Machine {
    if |acts| == 0 then m else Step(cal, Run(cal, m, acts[..|acts| - 1]), acts[|acts| - 1])
  }

  // ---------- what a transaction in flight may rely on ----------

  predicate Untouched(tx: Tx) {
    tx.runs == map[] && tx.states == map[] && tx.letters == map[] && tx.emitted == []
  }

  predicate ClaimOk(cal: Calendar, db: Db, tx: Tx)
    requires tx.op.Claim?
  {
    var Claim(due, worker, ttl, now, limit) := tx.op;
    var id, key := IdOf(due), due.definition.key;
    var inserted := id !in db.runs && tx.runs == map[id := NewRun(due, worker, ttl, now)] && tx.letters == map[];
    match tx.phase
    case Counted => Untouched(tx) && |Pending(db.runs)| < limit
    case Written => inserted && |Pending(db.runs)| < limit && tx.states == map[] && tx.emitted == []
    case Ready =>
      && inserted && |Pending(db.runs)| < limit && tx.emitted == [Event(id, LeaseAcquired)]
      && (MovesCursor(due) ==> AtCursor(db.states, key, due.expectedCursor))
      && tx.states == (if MovesCursor(due)
                       then map[key := AdvancedRow(cal, db.states[key], due.definition, due.expectedCursor, due.nextRunAt)] else map[])
    case _ => Untouched(tx)
  }

  predicate RetryOk(db: Db, tx: Tx)
    requires tx.op.Retry?
  {
    var Retry(id, now, limit) := tx.op;
    var updated := IsRetryable(db.runs, id) && tx.runs == map[id := RequeuedRun(db.runs[id], now)] && tx.states == map[];
    match tx.phase
    case Counted => Untouched(tx) && |Pending(db.runs)| < limit
    case Written => updated && |Pending(db.runs)| < limit && tx.letters == map[] && tx.emitted == []
    case Ready =>
      && updated && |Pending(db.runs)| < limit && tx.emitted == [Event(id, RetryScheduled)]
      && tx.letters == (if IsOpen(db.deadLetters, id) then map[id := db.deadLetters[id].(resolved := true)] else map[])
    case _ => Untouched(tx)
  }

  predicate FailOk(db: Db, tx: Tx)
    requires tx.op.Fail?
  {
    var Fail(h, maxAttempts, reason, retryAt) := tx.op;
    var terminal := IsTerminal(h, maxAttempts);
    var updated := LiveLease(db.runs, h) && tx.runs == map[h.id := FailedRun(db.runs[h.id], terminal, reason, retryAt)] && tx.states == map[];
    match tx.phase
    case Written => updated && tx.letters == map[] && tx.emitted == []
    case Ready =>
      && updated && (terminal ==> h.id !in db.deadLetters)
      && tx.letters == (if terminal then map[h.id := DeadLetter(reason, false)] else map[])
      && tx.emitted == [Event(h.id, if terminal then DeadLetteredEvent else RetryScheduled)]
    case _ => Untouched(tx)
  }

  predicate OneRowOk(db: Db, tx: Tx) {
    match tx.op
    case Accept(h, receipt) =>
      if tx.phase != Ready then Untouched(tx) else
        && LiveLease(db.runs, h) && tx.runs == map[h.id := AcceptedRun(db.runs[h.id], receipt)]
        && tx.states == map[] && tx.letters == map[] && tx.emitted == [Event(h.id, Accepted)]
    case Cancel(id) =>
      if tx.phase != Ready then Untouched(tx) else
        && CancelAdmits(db, id) && tx.runs == map[id := CancelledRun(db.runs[id])]
        && tx.states == map[] && tx.letters == map[] && tx.emitted == [Event(id, CancelledEvent)]
    case ResolveDeadLetter(id) =>
      if tx.phase != Ready then Untouched(tx) else
        && IsOpen(db.deadLetters, id) && tx.letters == map[id := db.deadLetters[id].(resolved := true)]
        && tx.runs == map[] && tx.states == map[] && tx.emitted == [Event(id, DeadLetterResolved)]
    case _ => false
  }

  predicate TxOk(cal: Calendar, w: World, tx: Tx) {
    && Enabled(w, tx.op)
    && match tx.op
       case Claim(_, _, _, _, _) => ClaimOk(cal, w.db, tx)
       case Retry(_, _, _) => RetryOk(w.db, tx)
       case Fail(_, _, _, _) => FailOk(w.db, tx)
       case _ => OneRowOk(w.db, tx)
  }

  predicate Apart(a: Tx, b: Tx) {
    && a.runs.Keys !! b.runs.Keys && a.states.Keys !! b.states.Keys && a.letters.Keys !! b.letters.Keys
    && !(HoldsGuard(a) && HoldsGuard(b))
  }

  ghost predicate Sound(cal: Calendar, m: Machine) {
    && (forall t :: t in m.txs ==> TxOk(cal, m.world, m.txs[t]))
    && (forall t, u :: t in m.txs && u in m.txs && t != u ==> Apart(m.txs[t], m.txs[u]))
  }

  // ---------- a commit is the whole transaction at that moment ----------

  lemma {:induction false} ClaimCommits(cal: Calendar, w: World, tx: Tx)
    requires tx.op.Claim? && TxOk(cal, w, tx) && tx.phase == Ready
    ensures Committed(w, tx) == Next(cal, w, tx.op)
  {
    var Claim(due, worker, ttl, now, limit) := tx.op;
    var run := NewRun(due, worker, ttl, now);
    var learned := set k | k in tx.runs :: HandleOf(k, tx.runs[k]);
    assert IdOf(due) in tx.runs && tx.runs[IdOf(due)] == run;
    assert HandleOf(IdOf(due), run) in learned;
    assert learned == {HandleOf(IdOf(due), run)};
    assert Merged(w.db, tx) == ClaimEffect(cal, w.db, due, worker, ttl, now);
  }

  lemma {:induction false} RetryCommits(cal: Calendar, w: World, tx: Tx)
    requires tx.op.Retry? && TxOk(cal, w, tx) && tx.phase == Ready
    ensures Committed(w, tx) == Next(cal, w, tx.op)
  {
    assert Merged(w.db, tx) == RetryEffect(w.db, tx.op.id, tx.op.now);
  }

  lemma {:induction false} FailCommits(cal: Calendar, w: World, tx: Tx)
    requires tx.op.Fail? && TxOk(cal, w, tx) && tx.phase == Ready
    ensures Committed(w, tx) == Next(cal, w, tx.op)
  {
    var Fail(h, maxAttempts, reason, retryAt) := tx.op;
    assert Merged(w.db, tx) == FailEffect(w.db, h, maxAttempts, reason, retryAt);
  }

  lemma {:induction false} OneRowCommits(cal: Calendar, w: World, tx: Tx)
    requires tx.op.Accept? || tx.op.Cancel? || tx.op.ResolveDeadLetter?
    requires TxOk(cal, w, tx) && tx.phase == Ready
    ensures Committed(w, tx) == Next(cal, w, tx.op)
  {
    assert Merged(w.db, tx) == Tables(cal, w.db, tx.op);
  }

  /** What a transaction commits, whatever ran between its statements, is exactly what it would
      have done run whole at the moment of its commit. */
  lemma {:induction false} CommitIsWholeTransaction(cal: Calendar, w: World, tx: Tx)
    requires TxOk(cal, w, tx) && tx.phase == Ready
    ensures Committed(w, tx) == Next(cal, w, tx.op)
  {
    match tx.op
    case Claim(_, _, _, _, _) => ClaimCommits(cal, w, tx);
    case Retry(_, _, _) => RetryCommits(cal, w, tx);
    case Fail(_, _, _, _) => FailCommits(cal, w, tx);
    case _ => OneRowCommits(cal, w, tx);
  }

  // ---------- transactions in flight do not disturb each other ----------

  /** What the rest of the machine may do to the committed tables while tx is in flight. */
  predicate Undisturbed(tx: Tx, db: Db, db': Db) {
    && (forall id :: id in tx.runs ==> (id in db.runs <==> id in db'.runs) && (id in db.runs ==> db'.runs[id] == db.runs[id]))
    && (forall key :: key in tx.states ==> key in db.states ==> key in db'.states && db'.states[key] == db.states[key])
    && (forall id :: id in tx.letters ==> (id in db.deadLetters <==> id in db'.deadLetters)
                                          && (id in db.deadLetters ==> db'.deadLetters[id] == db.deadLetters[id]))
    && (forall id :: id in tx.runs && IsOpen(db'.deadLetters, id) ==> IsOpen(db.deadLetters, id) && db.deadLetters[id] == db'.deadLetters[id])
    && (HoldsGuard(tx) ==> |Pending(db'.runs)| <= |Pending(db.runs)|)
  }

  lemma {:induction false} UndisturbedStaysOk(cal: Calendar, w: World, w': World, tx: Tx)
    requires TxOk(cal, w, tx) && Undisturbed(tx, w.db, w'.db) && w.held <= w'.held
    ensures TxOk(cal, w', tx)
  {
    match tx.op
    case Claim(_, _, _, _, _) =>
    case Retry(_, _, _) =>
    case Fail(_, _, _, _) =>
    case _ =>
  }

  /** Everything a ready transaction writes without the guard leaves no more runs pending. */
  lemma {:induction false} UnguardedNeverAdmits(cal: Calendar, w: World, tx: Tx)
    requires TxOk(cal, w, tx) && tx.phase == Ready && !HoldsGuard(tx)
    ensures |Pending(Merged(w.db, tx).runs)| <= |Pending(w.db.runs)|
  {
    CommitIsWholeTransaction(cal, w, tx);
    PendingGrowsByOne(w.db.runs, Merged(w.db, tx).runs, Target(tx.op).value);
  }

  lemma {:induction false} CommitLeavesRows(db: Db, mine: Tx, other: Tx)
    requires Apart(mine, other)
    ensures var db' := Merged(db, mine);
      && (forall id :: id in other.runs ==> (id in db.runs <==> id in db'.runs) && (id in db.runs ==> db'.runs[id] == db.runs[id]))
      && (forall key :: key in other.states ==> key in db.states ==> key in db'.states && db'.states[key] == db.states[key])
      && (forall id :: id in other.letters ==> (id in db.deadLetters <==> id in db'.deadLetters)
                                               && (id in db.deadLetters ==> db'.deadLetters[id] == db.deadLetters[id]))
  {
  }

  /** Only the transaction that dead-letters a run opens its letter, and that one has the run row. */
  lemma {:induction false} OnlyFailOpens(cal: Calendar, w: World, mine: Tx, id: RunId)
    requires TxOk(cal, w, mine) && mine.phase == Ready && id !in mine.runs
    ensures var db' := Merged(w.db, mine);
      IsOpen(db'.deadLetters, id) ==> IsOpen(w.db.deadLetters, id) && w.db.deadLetters[id] == db'.deadLetters[id]
  {
  }

  lemma {:induction false} CommitLeavesOthers(cal: Calendar, w: World, mine: Tx, other: Tx)
    requires TxOk(cal, w, mine) && mine.phase == Ready && Apart(mine, other)
    ensures Undisturbed(other, w.db, Merged(w.db, mine))
  {
    var db' := Merged(w.db, mine);
    CommitLeavesRows(w.db, mine, other);
    if !HoldsGuard(mine) { UnguardedNeverAdmits(cal, w, mine); }
    forall id | id in other.runs
      ensures IsOpen(db'.deadLetters, id) ==> IsOpen(w.db.deadLetters, id) && w.db.deadLetters[id] == db'.deadLetters[id]
    {
      OnlyFailOpens(cal, w, mine, id);
    }
  }

  lemma {:induction false} SingleLeavesOthers(cal: Calendar, w: World, op: Op, other: Tx)
    requires IsSingle(op) && Enabled(w, op) && TxOk(cal, w, other)
    requires Target(op).Some? ==> Target(op).value !in other.runs
    requires (op.FastForward? || op.Reschedule? || op.WriteState?) ==> op.key !in other.states
    ensures Undisturbed(other, w.db, Next(cal, w, op).db)
  {
    if Target(op).Some? { PendingGrowsByOne(w.db.runs, Tables(cal, w.db, op).runs, Target(op).value); }
  }

  /** A statement adds only rows nobody else has written, and the guard only when it is free. */
  predicate TakesOnlyFreeRows(txs: map<nat, Tx>, tx: Tx, next: Tx) {
    && (forall id :: id in next.runs && id !in tx.runs ==> !RunLocked(txs, id))
    && (forall key :: key in next.states && key !in tx.states ==> !StateLocked(txs, key))
    && (forall id :: id in next.letters && id !in tx.letters ==> !LetterLocked(txs, id))
    && (HoldsGuard(next) ==> HoldsGuard(tx) || !GuardLocked(txs))
  }

  lemma {:induction false} ClaimProceeds(cal: Calendar, w: World, txs: map<nat, Tx>, tx: Tx)
    requires tx.op.Claim? && TxOk(cal, w, tx) && Statement(cal, w.db, txs, tx).Proceed?
    ensures var next := Statement(cal, w.db, txs, tx).next;
      TxOk(cal, w, next) && next.op == tx.op && TakesOnlyFreeRows(txs, tx, next)
  {
  }

  lemma {:induction false} RetryProceeds(cal: Calendar, w: World, txs: map<nat, Tx>, tx: Tx)
    requires tx.op.Retry? && TxOk(cal, w, tx) && Statement(cal, w.db, txs, tx).Proceed?
    ensures var next := Statement(cal, w.db, txs, tx).next;
      TxOk(cal, w, next) && next.op == tx.op && TakesOnlyFreeRows(txs, tx, next)
  {
  }

  lemma {:induction false} FailProceeds(cal: Calendar, w: World, txs: map<nat, Tx>, tx: Tx)
    requires tx.op.Fail? && TxOk(cal, w, tx) && Statement(cal, w.db, txs, tx).Proceed?
    ensures var next := Statement(cal, w.db, txs, tx).next;
      TxOk(cal, w, next) && next.op == tx.op && TakesOnlyFreeRows(txs, tx, next)
  {
  }

  lemma {:induction false} OneRowProceeds(cal: Calendar, w: World, txs: map<nat, Tx>, tx: Tx)
    requires !tx.op.Claim? && !tx.op.Retry? && !tx.op.Fail? && TxOk(cal, w, tx) && Statement(cal, w.db, txs, tx).Proceed?
    ensures var next := Statement(cal, w.db, txs, tx).next;
      TxOk(cal, w, next) && next.op == tx.op && TakesOnlyFreeRows(txs, tx, next)
  {
  }

  lemma {:induction false} Proceeds(cal: Calendar, w: World, txs: map<nat, Tx>, tx: Tx)
    requires TxOk(cal, w, tx) && Statement(cal, w.db, txs, tx).Proceed?
    ensures var next := Statement(cal, w.db, txs, tx).next;
      TxOk(cal, w, next) && next.op == tx.op && TakesOnlyFreeRows(txs, tx, next)
  {
    match tx.op
    case Claim(_, _, _, _, _) => ClaimProceeds(cal, w, txs, tx);
    case Retry(_, _, _) => RetryProceeds(cal, w, txs, tx);
    case Fail(_, _, _, _) => FailProceeds(cal, w, txs, tx);
    case _ => OneRowProceeds(cal, w, txs, tx);
  }

  lemma {:induction false} FreeRowsStayApart(txs: map<nat, Tx>, tx: Tx, next: Tx, u: nat)
    requires u in txs && Apart(tx, txs[u]) && TakesOnlyFreeRows(txs, tx, next)
    ensures Apart(next, txs[u]) && Apart(txs[u], next)
  {
    forall id | id in next.runs ensures id !in txs[u].runs { if id !in tx.runs { assert !RunLocked(txs, id); } }
    forall key | key in next.states ensures key !in txs[u].states { if key !in tx.states { assert !StateLocked(txs, key); } }
    forall id | id in next.letters ensures id !in txs[u].letters { if id !in tx.letters { assert !LetterLocked(txs, id); } }
  }

  lemma {:induction false} CommitOnlyWhenReady(cal: Calendar, db: Db, txs: map<nat, Tx>, tx: Tx)
    requires Statement(cal, db, txs, tx).Commit?
    ensures tx.phase == Ready
  {
  }

  lemma {:induction false} HeldGrows(cal: Calendar, w: World, op: Op)
    ensures w.held <= Next(cal, w, op).held
  {
  }

  lemma {:induction false} ProceedKeepsSound(cal: Calendar, m: Machine, t: nat, next: Tx)
    requires Sound(cal, m) && t in m.txs
    requires TxOk(cal, m.world, next) && TakesOnlyFreeRows(m.txs - {t}, m.txs[t], next)
    ensures Sound(cal, m.(txs := m.txs[t := next]))
  {
    forall u | u in m.txs && u != t ensures Apart(next, m.txs[u]) && Apart(m.txs[u], next) {
      FreeRowsStayApart(m.txs - {t}, m.txs[t], next, u);
    }
  }

  lemma {:induction false} CommitKeepsOther(cal: Calendar, w: World, mine: Tx, other: Tx)
    requires TxOk(cal, w, mine) && mine.phase == Ready && TxOk(cal, w, other) && Apart(mine, other)
    ensures TxOk(cal, Committed(w, mine), other)
  {
    CommitLeavesOthers(cal, w, mine, other);
    UndisturbedStaysOk(cal, w, Committed(w, mine), other);
  }

  lemma {:induction false} CommitKeepsSound(cal: Calendar, m: Machine, t: nat)
    requires Sound(cal, m) && t in m.txs && m.txs[t].phase == Ready
    ensures Sound(cal, Machine(Committed(m.world, m.txs[t]), m.txs - {t}, m.log + [m.txs[t].op]))
  {
    forall u | u in m.txs - {t} ensures TxOk(cal, Committed(m.world, m.txs[t]), m.txs[u]) {
      CommitKeepsOther(cal, m.world, m.txs[t], m.txs[u]);
    }
  }

  lemma {:induction false} ExecuteKeepsSound(cal: Calendar, m: Machine, t: nat)
    requires Sound(cal, m) && t in m.txs
    ensures Sound(cal, Step(cal, m, Execute(t)))
  {
    var outcome := Statement(cal, m.world.db, m.txs - {t}, m.txs[t]);
    if outcome.Proceed? {
      Proceeds(cal, m.world, m.txs - {t}, m.txs[t]);
      ProceedKeepsSound(cal, m, t, outcome.next);
    } else if outcome.Commit? {
      CommitOnlyWhenReady(cal, m.world.db, m.txs - {t}, m.txs[t]);
      CommitKeepsSound(cal, m, t);
    }
  }

  lemma {:induction false} SingleKeepsSound(cal: Calendar, m: Machine, op: Op)
    requires Sound(cal, m)
    ensures Sound(cal, Step(cal, m, Single(op)))
  {
    if IsSingle(op) && !SingleBlocked(m.txs, op) && Enabled(m.world, op) {
      HeldGrows(cal, m.world, op);
      forall u | u in m.txs ensures TxOk(cal, Next(cal, m.world, op), m.txs[u]) {
        SingleLeavesOthers(cal, m.world, op, m.txs[u]);
        UndisturbedStaysOk(cal, m.world, Next(cal, m.world, op), m.txs[u]);
      }
    }
  }

  lemma {:induction false} StartKeepsSound(cal: Calendar, m: Machine, t: nat, op: Op)
    requires Sound(cal, m)
    ensures Sound(cal, Step(cal, m, Start(t, op)))
  {
  }

  lemma {:induction false} StopKeepsSound(cal: Calendar, m: Machine, t: nat)
    requires Sound(cal, m)
    ensures Sound(cal, Step(cal, m, Stop(t)))
  {
  }

  lemma {:induction false} StepKeepsSound(cal: Calendar, m: Machine, act: Act)
    requires Sound(cal, m)
    ensures Sound(cal, Step(cal, m, act))
  {
    match act
    case Start(t, op) => StartKeepsSound(cal, m, t, op);
    case Execute(t) => if t in m.txs { ExecuteKeepsSound(cal, m, t); }
    case Stop(t) => StopKeepsSound(cal, m, t);
    case Single(op) => SingleKeepsSound(cal, m, op);
  }

  lemma {:induction false} StepIsLogged(cal: Calendar, m: Machine, act: Act)
    requires Sound(cal, m)
    ensures var m' := Step(cal, m, act);
      || (m'.world == m.world && m'.log == m.log)
      || (exists op :: m'.log == m.log + [op] && m'.world == Next(cal, m.world, op))
  {
    match act
    case Execute(t) =>
      if t in m.txs && Statement(cal, m.world.db, m.txs - {t}, m.txs[t]).Commit? {
        CommitOnlyWhenReady(cal, m.world.db, m.txs - {t}, m.txs[t]);
        CommitIsWholeTransaction(cal, m.world, m.txs[t]);
        assert Step(cal, m, act).log == m.log + [m.txs[t].op];
      }
    case Single(op) =>
    case _ =>
  }

  // ---------- whole runs of the machine ----------

  function Idle(w: World): Machine {
    Machine(w, map[], [])
  }

  /** However the statements of however many transactions interleave and wherever they stop, the
      committed tables are those of some history of whole transactions: the one in the log, in the
      order of the commits. */
  lemma {:induction false} EveryRunIsAHistory(cal: Calendar, w: World, acts: seq<Act>)
    ensures var m := Run(cal, Idle(w), acts);
      Sound(cal, m) && m.world == History(cal, w, m.log)
  {
    if |acts| > 0 {
      var before, act := Run(cal, Idle(w), acts[..|acts| - 1]), acts[|acts| - 1];
      EveryRunIsAHistory(cal, w, acts[..|acts| - 1]);
      StepKeepsSound(cal, before, act);
      StepIsLogged(cal, before, act);
      var after := Step(cal, before, act);
      if after.log != before.log {
        assert after.log[..|after.log| - 1] == before.log;
      }
    }
  }

  predicate ActWithin(act: Act, limit: int) {
    match act
    case Start(_, op) => LimitAtMost(op, limit)
    case Single(op) => LimitAtMost(op, limit)
    case _ => true
  }

  ghost predicate OpsWithin(m: Machine, limit: int) {
    && (forall i :: 0 <= i < |m.log| ==> LimitAtMost(m.log[i], limit))
    && (forall t :: t in m.txs ==> LimitAtMost(m.txs[t].op, limit))
  }

  lemma {:induction false} StatementKeepsOp(cal: Calendar, db: Db, txs: map<nat, Tx>, tx: Tx)
    requires Statement(cal, db, txs, tx).Proceed?
    ensures Statement(cal, db, txs, tx).next.op == tx.op
  {
  }

  lemma {:induction false} LimitsStay(cal: Calendar, w: World, acts: seq<Act>, limit: int)
    requires forall i :: 0 <= i < |acts| ==> ActWithin(acts[i], limit)
    ensures OpsWithin(Run(cal, Idle(w), acts), limit)
  {
    if |acts| > 0 {
      var before, act := Run(cal, Idle(w), acts[..|acts| - 1]), acts[|acts| - 1];
      LimitsStay(cal, w, acts[..|acts| - 1], limit);
      if act.Execute? && act.tx in before.txs {
        var txs, tx := before.txs - {act.tx}, before.txs[act.tx];
        if Statement(cal, before.world.db, txs, tx).Proceed? { StatementKeepsOp(cal, before.world.db, txs, tx); }
      }
    }
  }

  /** Counting and inserting are separate statements, and leases are released, lost and taken over
      between them; still no committed state ever holds more leased and retrying runs than the
      common limit. */
  lemma {:induction false} BacklogNeverExceedsUnderInterleaving(cal: Calendar, w: World, acts: seq<Act>, limit: int)
    requires |Pending(w.db.runs)| <= limit
    requires forall i :: 0 <= i < |acts| ==> ActWithin(acts[i], limit)
    ensures |Pending(Run(cal, Idle(w), acts).world.db.runs)| <= limit
  {
    EveryRunIsAHistory(cal, w, acts);
    LimitsStay(cal, w, acts, limit);
    BacklogNeverExceeds(cal, w, Run(cal, Idle(w), acts).log, limit);
  }

  /** Fencing, final states, event log and dead letters, under the same interleavings. */
  lemma {:induction false} InvariantUnderInterleaving(cal: Calendar, states: States, acts: seq<Act>)
    ensures Inv(Run(cal, Idle(Fresh(states)), acts).world)
  {
    EveryRunIsAHistory(cal, Fresh(states), acts);
    FreshInv(states);
    InvAlways(cal, Fresh(states), Run(cal, Idle(Fresh(states)), acts).log);
  }
}
