/** What a transaction of the run store gets done when no other is in flight: all it is for, or, if its guard
    does not hold, nothing. */
module QuietTransactions {
  import opened RunTables
  import S = RunStatements

  function Rank(phase: S.Phase): nat {
    match phase
    case Begun => 5
    case Guarded => 4
    case Checked => 3
    case Counted => 2
    case Written => 1
    case Ready => 0
  }

  /** Failures have two statements and a commit, claims and retries all of them. */
  predicate InOrder(tx: S.Tx) {
    tx.op.Fail? ==> tx.phase == S.Begun || tx.phase == S.Written || tx.phase == S.Ready
  }

  lemma {:induction false} NeverBlocked(cal: Calendar, db: Db, tx: S.Tx)
    ensures !S.Statement(cal, db, map[], tx).Blocked?
  {
  }

  predicate Falls(tx: S.Tx, outcome: S.Outcome) {
    outcome.Proceed? ==> Rank(outcome.next.phase) < Rank(tx.phase) && (outcome.next.phase == S.Ready || outcome.next.phase == S.Written || !tx.op.Fail?)
  }

  lemma {:induction false} ClaimRankFalls(cal: Calendar, db: Db, tx: S.Tx)
    requires tx.op.Claim?
    ensures Falls(tx, S.ClaimStatement(cal, db, map[], tx))
  {
  }

  lemma {:induction false} RetryRankFalls(db: Db, tx: S.Tx)
    requires tx.op.Retry?
    ensures Falls(tx, S.RetryStatement(db, map[], tx))
  {
  }

  lemma {:induction false} FailRankFalls(db: Db, tx: S.Tx)
    requires tx.op.Fail?
    ensures Falls(tx, S.FailStatement(db, map[], tx))
  {
  }

  lemma {:induction false} OneRowRankFalls(db: Db, tx: S.Tx)
    requires !tx.op.Fail?
    ensures Falls(tx, S.OneRowStatement(db, map[], tx))
  {
  }

  lemma {:induction false} RankFalls(cal: Calendar, db: Db, tx: S.Tx)
    ensures Falls(tx, S.Statement(cal, db, map[], tx))
  {
    match tx.op
    case Claim(_, _, _, _, _) => ClaimRankFalls(cal, db, tx);
    case Retry(_, _, _) => RetryRankFalls(db, tx);
    case Fail(_, _, _, _) => FailRankFalls(db, tx);
    case _ => OneRowRankFalls(db, tx);
  }

  /** A transaction gives up only when it would not have done anything. */
  lemma {:induction false} GivesUpForNothing(cal: Calendar, w: World, tx: S.Tx)
    requires S.TxOk(cal, w, tx) && InOrder(tx) && S.Statement(cal, w.db, map[], tx).Abort?
    ensures Next(cal, w, tx.op) == w
  {
  }

  lemma {:induction false} Then(cal: Calendar, m: S.Machine, acts: seq<S.Act>, v: S.Machine, act: S.Act) returns (acts': seq<S.Act>, v': S.Machine)
    requires v == S.Run(cal, m, acts)
    ensures acts' == acts + [act] && v' == S.Step(cal, v, act) && v' == S.Run(cal, m, acts')
  {
    acts', v' := acts + [act], S.Step(cal, v, act);
    assert acts'[..|acts'| - 1] == acts;
  }

  lemma {:induction false} RunsOn(cal: Calendar, m: S.Machine, acts: seq<S.Act>, v: S.Machine, t: nat) returns (acts': seq<S.Act>, v': S.Machine)
    requires v == S.Run(cal, m, acts) && S.Sound(cal, v) && t in v.txs && v.txs == map[t := v.txs[t]] && InOrder(v.txs[t])
    ensures v' == S.Run(cal, m, acts') && v'.txs == map[] && v'.world == Next(cal, v.world, v.txs[t].op)
    ensures acts <= acts' && forall i :: |acts| <= i < |acts'| ==> acts'[i] == S.Execute(t)
    decreases Rank(v.txs[t].phase)
  {
    var tx := v.txs[t];
    assert v.txs - {t} == map[];
    NeverBlocked(cal, v.world.db, tx);
    acts', v' := Then(cal, m, acts, v, S.Execute(t));
    S.StepKeepsSound(cal, v, S.Execute(t));
    var outcome := S.Statement(cal, v.world.db, map[], tx);
    if outcome.Proceed? {
      RankFalls(cal, v.world.db, tx);
      S.StatementKeepsOp(cal, v.world.db, map[], tx);
      assert v'.txs == map[t := outcome.next];
      acts', v' := RunsOn(cal, m, acts', v', t);
    } else if outcome.Abort? {
      GivesUpForNothing(cal, v.world, tx);
    } else {
      S.CommitOnlyWhenReady(cal, v.world.db, map[], tx);
      S.CommitIsWholeTransaction(cal, v.world, tx);
    }
  }

  lemma {:induction false} SingleAlone(cal: Calendar, m: S.Machine, op: Op) returns (acts: seq<S.Act>)
    requires m.txs == map[] && S.IsSingle(op)
    ensures S.Run(cal, m, acts).txs == map[] && S.Run(cal, m, acts).world == Next(cal, m.world, op)
  {
    var v: S.Machine;
    assert !S.SingleBlocked(m.txs, op);
    acts, v := Then(cal, m, [], m, S.Single(op));
  }

  lemma {:induction false} Starts(cal: Calendar, m: S.Machine, t: nat, op: Op) returns (acts: seq<S.Act>, v: S.Machine)
    requires m.txs == map[] && Enabled(m.world, op) && !S.IsSingle(op)
    ensures v == S.Run(cal, m, acts) && S.Sound(cal, v) && v.world == m.world
    ensures t in v.txs && v.txs == map[t := v.txs[t]] && v.txs[t].op == op && v.txs[t].phase == S.Begun && acts == [S.Start(t, op)]
  {
    acts, v := Then(cal, m, [], m, S.Start(t, op));
    S.StartKeepsSound(cal, m, t, op);
  }

  /** Statement by statement and with nobody else in flight, every transaction of the store, claims, failures,
      retries, acceptances, cancellations and resolutions, ends with all of its effect. */
  lemma {:induction false} TransactionAlone(cal: Calendar, m: S.Machine, t: nat, op: Op) returns (acts: seq<S.Act>)
    requires m.txs == map[] && Enabled(m.world, op)
    ensures S.Run(cal, m, acts).txs == map[] && S.Run(cal, m, acts).world == Next(cal, m.world, op)
    ensures !S.IsSingle(op) ==> |acts| > 0 && acts[0] == S.Start(t, op) && forall i :: 1 <= i < |acts| ==> acts[i] == S.Execute(t)
  {
    if S.IsSingle(op) {
      acts := SingleAlone(cal, m, op);
    } else {
      var begun, v := Starts(cal, m, t, op);
      acts, v := RunsOn(cal, m, begun, v, t);
    }
  }
}
