/** The accounting of schedule windows when the transactions themselves interleave. */
module WindowStatements {
  import opened StoredTime
  import opened RunTables
  import opened Windows
  import S = RunStatements

  /** Every operation is a lawful step for the definition at the moment its worker begins it. */
  ghost predicate GenuineActs(cal: Calendar, key: string, s: Schedule, start: Instant, w: World, acts: seq<S.Act>)
    requires Lawful(cal) && !s.once
  {
    forall i :: 0 <= i < |acts| && (acts[i].Start? || acts[i].Single?) ==>
      Genuine(cal, key, s, start, S.Run(cal, S.Idle(w), acts[..i]).world.db, acts[i].op)
  }

  /** Runs are never deleted, so what was lawful when it began still is when it commits. */
  lemma {:induction false} GenuineStays(cal: Calendar, key: string, s: Schedule, start: Instant, db: Db, db': Db, op: Op)
    requires Lawful(cal) && !s.once && Genuine(cal, key, s, start, db, op)
    requires db.runs.Keys <= db'.runs.Keys && !op.WriteState?
    ensures Genuine(cal, key, s, start, db', op)
  {
  }

  lemma {:induction false} StepKeepsRuns(cal: Calendar, w: World, op: Op)
    ensures w.db.runs.Keys <= Next(cal, w, op).db.runs.Keys
  {
    forall id | id in w.db.runs ensures id in Next(cal, w, op).db.runs { RunsOnlyAppear(cal, w.db, op, id); }
  }

  /** What is in flight is lawful now, and what is in the log was when it committed. */
  ghost predicate GenuineSoFar(cal: Calendar, key: string, s: Schedule, start: Instant, w: World, m: S.Machine)
    requires Lawful(cal) && !s.once
  {
    && m.world == History(cal, w, m.log)
    && GenuineHistory(cal, key, s, start, w, m.log)
    && forall t :: t in m.txs ==> !m.txs[t].op.WriteState? && Genuine(cal, key, s, start, m.world.db, m.txs[t].op)
  }

  lemma {:induction false} Logged(cal: Calendar, key: string, s: Schedule, start: Instant, w: World, m: S.Machine, op: Op, m': S.Machine)
    requires Lawful(cal) && !s.once && GenuineSoFar(cal, key, s, start, w, m)
    requires Genuine(cal, key, s, start, m.world.db, op)
    requires m'.log == m.log + [op] && m'.world == Next(cal, m.world, op)
    requires forall t :: t in m'.txs ==> t in m.txs && m'.txs[t].op == m.txs[t].op
    ensures GenuineSoFar(cal, key, s, start, w, m')
  {
    var log := m'.log;
    assert log[..|log| - 1] == m.log;
    forall i | 0 <= i < |log| ensures Genuine(cal, key, s, start, History(cal, w, log[..i]).db, log[i]) {
      if i < |m.log| { assert log[..i] == m.log[..i] && log[i] == m.log[i]; }
    }
    StepKeepsRuns(cal, m.world, op);
    forall t | t in m'.txs ensures !m'.txs[t].op.WriteState? && Genuine(cal, key, s, start, m'.world.db, m'.txs[t].op) {
      GenuineStays(cal, key, s, start, m.world.db, m'.world.db, m.txs[t].op);
    }
  }

  lemma {:induction false} StepStaysGenuine(cal: Calendar, key: string, s: Schedule, start: Instant, w: World, m: S.Machine, act: S.Act)
    requires Lawful(cal) && !s.once && GenuineSoFar(cal, key, s, start, w, m) && S.Sound(cal, m)
    requires act.Start? || act.Single? ==> Genuine(cal, key, s, start, m.world.db, act.op)
    ensures GenuineSoFar(cal, key, s, start, w, S.Step(cal, m, act))
  {
    match act
    case Start(t, op) =>
    case Stop(t) =>
    case Single(op) =>
      if S.IsSingle(op) && !S.SingleBlocked(m.txs, op) { Logged(cal, key, s, start, w, m, op, S.Step(cal, m, act)); }
    case Execute(t) =>
      if t in m.txs {
        var others := m.txs - {t};
        var outcome := S.Statement(cal, m.world.db, others, m.txs[t]);
        if outcome.Proceed? {
          S.StatementKeepsOp(cal, m.world.db, others, m.txs[t]);
        } else if outcome.Commit? {
          S.CommitOnlyWhenReady(cal, m.world.db, others, m.txs[t]);
          S.CommitIsWholeTransaction(cal, m.world, m.txs[t]);
          Logged(cal, key, s, start, w, m, m.txs[t].op, S.Step(cal, m, act));
        }
      }
  }

  lemma {:induction false} LogIsGenuine(cal: Calendar, key: string, s: Schedule, start: Instant, w: World, acts: seq<S.Act>)
    requires Lawful(cal) && !s.once && GenuineActs(cal, key, s, start, w, acts)
    ensures GenuineSoFar(cal, key, s, start, w, S.Run(cal, S.Idle(w), acts))
  {
    if |acts| > 0 {
      var init, last := acts[..|acts| - 1], acts[|acts| - 1];
      forall i | 0 <= i < |init| && (init[i].Start? || init[i].Single?)
        ensures Genuine(cal, key, s, start, S.Run(cal, S.Idle(w), init[..i]).world.db, init[i].op)
      {
        assert init[..i] == acts[..i] && init[i] == acts[i];
      }
      LogIsGenuine(cal, key, s, start, w, init);
      S.EveryRunIsAHistory(cal, w, init);
      assert last.Start? || last.Single? ==> Genuine(cal, key, s, start, S.Run(cal, S.Idle(w), init).world.db, last.op);
      StepStaysGenuine(cal, key, s, start, w, S.Run(cal, S.Idle(w), init), last);
    }
  }

  /** Statement by statement, with crashes anywhere, at every committed state every window from the
      first cursor on has exactly one run, or was jumped, or is ahead of the cursor. */
  lemma {:induction false} WindowsPartitionedUnderInterleaving(cal: Calendar, key: string, s: Schedule, start: Instant, w: World, acts: seq<S.Act>)
    requires Lawful(cal) && !s.once && Partitioned(cal, key, s, start, w.db, {})
    requires GenuineActs(cal, key, s, start, w, acts)
    ensures var m := S.Run(cal, S.Idle(w), acts);
      && Partitioned(cal, key, s, start, m.world.db, Jumped(cal, key, s, w, m.log))
      && Cursor(m.world.db, key) >= Cursor(w.db, key)
  {
    LogIsGenuine(cal, key, s, start, w, acts);
    WindowsStayPartitioned(cal, key, s, start, w, S.Run(cal, S.Idle(w), acts).log);
  }
}
