/** The embedded deployment projects its definitions without a transaction: every statement commits on
    its own, and claims, misfire decisions, reschedules and plan projections commit between any two. */
module EmbeddedReconcile {
  import opened Options
  import opened StoredTime
  import opened RunTables
  import opened Projection
  import opened Reconciliation
  import PlanProjection

  datatype Job = Job(cal: Calendar, defs: seq<Definition>, revision: int, now: Instant)

  /** Where the reconcile is: at a definition, at one of the later statements for it, between the two
      statements of the disabling, or done. */
  datatype Phase = Trying(i: nat) | Refreshing(i: nat) | Inserting(i: nat) | RefreshingAgain(i: nat) | Activating | Finished | Refused

  /** The rows, with a record of the keys others have disabled since the reconcile last enabled them. */
  datatype Moment = Moment(states: States, phase: Phase, spent: set<string>)

  datatype Act = Go | Write(key: string, row: DefState)

  function Start(states: States): Moment {
    Moment(states, Trying(0), {})
  }

  // ---------- the statements ----------

  function Landing(w: Moment, d: Definition, states: States, i: nat): Moment {
    Moment(states, Trying(i + 1), w.spent - {d.key})
  }

  function Advance(j: Job, w: Moment): Moment {
    match w.phase
    case Trying(i) =>
      if i >= |j.defs| then w.(states := DisableAll(w.states, j.revision), phase := Activating)
      else if Reserved(j.defs[i].key) then w.(phase := Refused)
      else if !j.defs[i].enabled then w.(phase := Trying(i + 1))
      else
        var d := j.defs[i];
        var after := ReplaceRevision(w.states, d, NextFor(j.cal, d, j.now), RuntimeDefinition, true);
        if after.Some? then Landing(w, d, after.value, i) else w.(phase := Refreshing(i))
    case Refreshing(i) =>
      if i >= |j.defs| then w else
        var after := RefreshRow(w.states, j.defs[i], RuntimeDefinition, true);
        if after.Some? then Landing(w, j.defs[i], after.value, i) else w.(phase := Inserting(i))
    case Inserting(i) =>
      if i >= |j.defs| then w else
        var after := InsertRow(w.states, j.defs[i], NextFor(j.cal, j.defs[i], j.now), RuntimeDefinition, true);
        if after.Some? then Landing(w, j.defs[i], after.value, i) else w.(phase := RefreshingAgain(i))
    case RefreshingAgain(i) =>
      if i >= |j.defs| then w else
        var after := RefreshRow(w.states, j.defs[i], RuntimeDefinition, true);
        if after.Some? then Landing(w, j.defs[i], after.value, i) else w.(phase := Refused)
    case Activating =>
      Moment(Activate(w.states, ActiveKeys(j.defs), j.revision), Finished, w.spent - (set key | key in ActiveKeys(j.defs)))
    case _ => w
  }

  /** What others write meanwhile: plan rows under reserved keys, and of a definition's row its cursor
      and its disabling. */
  predicate MayWrite(states: States, key: string, row: DefState) {
    if row.source == ScheduledPlan then Reserved(key) && (key in states ==> states[key].source == ScheduledPlan)
    else
      && key in states && states[key].source == RuntimeDefinition && (row.enabled ==> states[key].enabled)
      && row == states[key].(nextRun := row.nextRun, lastRun := row.lastRun, lastStatus := row.lastStatus, enabled := row.enabled)
  }

  function Step(j: Job, w: Moment, act: Act): Moment {
    match act
    case Go => Advance(j, w)
    case Write(key, row) =>
      if !MayWrite(w.states, key, row) then w
      else w.(states := w.states[key := row],
              spent := if key in w.states && w.states[key].enabled && !row.enabled then w.spent + {key} else w.spent)
  }

  function Run(j: Job, w: Moment, acts: seq<Act>): Moment {
    if |acts| == 0 then w else Step(j, Run(j, w, acts[..|acts| - 1]), acts[|acts| - 1])
  }

  // ---------- what the others are ----------

  predicate IsWrite(states: States, after: States, key: string) {
    key in after && after == states[key := after[key]] && MayWrite(states, key, after[key])
  }

  /** Every transaction of the run store is such a write, or none at all. */
  lemma {:induction false} RunStoreMayWrite(cal: Calendar, db: Db, op: Op) returns (key: string)
    requires PlansKeepToNamespace(db.states) && !op.WriteState?
    ensures Tables(cal, db, op).states == db.states || IsWrite(db.states, Tables(cal, db, op).states, key)
  {
    key := if op.Claim? then op.due.definition.key else if op.FastForward? || op.Reschedule? then op.key else "";
  }

  /** And so is every statement of a plan's projection that matches. */
  lemma {:induction false} PlanStatementsMayWrite(states: States, d: Definition, next: Instant, enabled: bool, id: string)
    requires d.key == PlanProjection.PlanKey(id)
    ensures var replaced := ReplaceRevision(states, d, next, ScheduledPlan, enabled); replaced.Some? ==> IsWrite(states, replaced.value, d.key)
    ensures var refreshed := RefreshRow(states, d, ScheduledPlan, enabled); refreshed.Some? ==> IsWrite(states, refreshed.value, d.key)
    ensures var inserted := InsertRow(states, d, next, ScheduledPlan, enabled); inserted.Some? ==> IsWrite(states, inserted.value, d.key)
  {
    assert d.key[..15] == PLAN_NAMESPACE;
  }

  // ---------- the invariant ----------

  ghost predicate Acceptable(j: Job) {
    !AnyReserved(j.defs) && DistinctDefinitions(j.defs)
  }

  /** The row of a definition that has been reconciled. */
  predicate Landed(states: States, d: Definition) {
    && d.key in states && states[d.key].source == RuntimeDefinition
    && states[d.key].revision == d.revision && states[d.key].definition == d
  }

  ghost predicate LandedUpTo(j: Job, w: Moment, n: nat) {
    n <= |j.defs| && forall k :: 0 <= k < n && j.defs[k].enabled ==> Landed(w.states, j.defs[k])
  }

  /** The rows of the definitions reconciled so far are enabled unless somebody disabled them. */
  ghost predicate EnabledUpTo(j: Job, w: Moment, n: nat) {
    n <= |j.defs| && forall k :: 0 <= k < n && j.defs[k].enabled ==>
      Landed(w.states, j.defs[k]) && (w.states[j.defs[k].key].enabled <==> j.defs[k].key !in w.spent)
  }

  ghost predicate AllDisabled(states: States) {
    forall key :: key in states && states[key].source == RuntimeDefinition ==> !states[key].enabled
  }

  ghost predicate Inv(j: Job, w: Moment) {
    && PlansKeepToNamespace(w.states)
    && match w.phase
       case Trying(i) => EnabledUpTo(j, w, i)
       case Refreshing(i) =>
         && i < |j.defs| && j.defs[i].enabled && EnabledUpTo(j, w, i)
         && (j.defs[i].key in w.states ==> w.states[j.defs[i].key].revision == j.defs[i].revision)
       case Inserting(i) => i < |j.defs| && j.defs[i].enabled && EnabledUpTo(j, w, i) && j.defs[i].key !in w.states
       case Activating => LandedUpTo(j, w, |j.defs|) && AllDisabled(w.states)
       case Finished =>
         && EnabledUpTo(j, w, |j.defs|)
         && forall key :: key in w.states && w.states[key].source == RuntimeDefinition && !Lists(j.defs, key) ==> !w.states[key].enabled
       case _ => false
  }

  /** A definition's key is never a plan's. */
  lemma {:induction false} KeyIsFree(j: Job, states: States, i: nat)
    requires Acceptable(j) && PlansKeepToNamespace(states) && i < |j.defs|
    ensures !Reserved(j.defs[i].key) && (j.defs[i].key in states ==> states[j.defs[i].key].source == RuntimeDefinition)
  {
  }

  lemma {:induction false} LandingKeepsInv(j: Job, w: Moment, states: States, i: nat)
    requires Acceptable(j) && Inv(j, w) && i < |j.defs| && j.defs[i].enabled && EnabledUpTo(j, w, i)
    requires var d := j.defs[i];
      Landed(states, d) && states[d.key].enabled && states == w.states[d.key := states[d.key]]
    ensures Inv(j, Landing(w, j.defs[i], states, i))
  {
    var w' := Landing(w, j.defs[i], states, i);
    forall k | 0 <= k < i + 1 && j.defs[k].enabled
      ensures Landed(w'.states, j.defs[k]) && (w'.states[j.defs[k].key].enabled <==> j.defs[k].key !in w'.spent)
    {
      assert k < i ==> j.defs[k].key != j.defs[i].key;
    }
  }

  lemma {:induction false} AdvanceKeepsInv(j: Job, w: Moment)
    requires Acceptable(j) && Inv(j, w)
    ensures Inv(j, Advance(j, w))
  {
    match w.phase
    case Trying(i) =>
      if i < |j.defs| {
        KeyIsFree(j, w.states, i);
        if j.defs[i].enabled {
          var after := ReplaceRevision(w.states, j.defs[i], NextFor(j.cal, j.defs[i], j.now), RuntimeDefinition, true);
          if after.Some? { LandingKeepsInv(j, w, after.value, i); }
        }
      }
    case Refreshing(i) =>
      KeyIsFree(j, w.states, i);
      var after := RefreshRow(w.states, j.defs[i], RuntimeDefinition, true);
      if after.Some? { LandingKeepsInv(j, w, after.value, i); }
    case Inserting(i) =>
      var after := InsertRow(w.states, j.defs[i], NextFor(j.cal, j.defs[i], j.now), RuntimeDefinition, true);
      LandingKeepsInv(j, w, after.value, i);
    case Activating => ActivatingKeepsInv(j, w);
    case _ =>
  }

  lemma {:induction false} ActivatingKeepsInv(j: Job, w: Moment)
    requires Acceptable(j) && Inv(j, w) && w.phase.Activating?
    ensures Inv(j, Advance(j, w))
  {
    var w' := Advance(j, w);
    forall key ensures key in ActiveKeys(j.defs) <==> Lists(j.defs, key) { ActiveKeysListed(j.defs, key); }
    forall k | 0 <= k < |j.defs| && j.defs[k].enabled
      ensures Landed(w'.states, j.defs[k]) && (w'.states[j.defs[k].key].enabled <==> j.defs[k].key !in w'.spent)
    {
      assert Lists(j.defs, j.defs[k].key) && Landed(w.states, j.defs[k]);
    }
  }

  lemma {:induction false} WriteKeepsInv(j: Job, w: Moment, key: string, row: DefState)
    requires Acceptable(j) && Inv(j, w)
    ensures Inv(j, Step(j, w, Write(key, row)))
  {
    forall k | 0 <= k < |j.defs| ensures !Reserved(j.defs[k].key) { KeyIsFree(j, w.states, k); }
  }

  lemma {:induction false} RunInv(j: Job, states: States, acts: seq<Act>)
    requires Acceptable(j) && PlansKeepToNamespace(states)
    ensures Inv(j, Run(j, Start(states), acts))
  {
    if |acts| > 0 {
      RunInv(j, states, acts[..|acts| - 1]);
      var before, act := Run(j, Start(states), acts[..|acts| - 1]), acts[|acts| - 1];
      if act.Go? { AdvanceKeepsInv(j, before); } else { WriteKeepsInv(j, before, act.key, act.row); }
    }
  }

  // ---------- what holds over every run ----------

  /** Whatever comes between, a reconcile of an acceptable snapshot is never refused; and once it has
      finished, every enabled definition has its row, at its revision, every other definition's row is
      disabled, and plan rows are under plan keys only. */
  lemma {:induction false} ReconcileLands(j: Job, states: States, acts: seq<Act>)
    requires Acceptable(j) && PlansKeepToNamespace(states)
    ensures var w := Run(j, Start(states), acts);
      && !w.phase.Refused? && !w.phase.RefreshingAgain? && PlansKeepToNamespace(w.states)
      && (w.phase.Finished? ==>
            && (forall k :: 0 <= k < |j.defs| && j.defs[k].enabled ==> Landed(w.states, j.defs[k]))
            && (forall key :: key in w.states && w.states[key].source == RuntimeDefinition && !Lists(j.defs, key) ==> !w.states[key].enabled))
  {
    RunInv(j, states, acts);
  }

  predicate Reached(phase: Phase, k: nat) {
    match phase
    case Trying(i) => k < i
    case Refreshing(i) => k < i
    case Inserting(i) => k < i
    case RefreshingAgain(i) => k < i
    case Refused => false
    case _ => true
  }

  /** At any moment the row of a definition that has been reconciled is enabled if and only if nobody
      has disabled it since and the reconcile is not between its last two statements. */
  lemma {:induction false} EnabledExactly(j: Job, states: States, acts: seq<Act>, k: nat)
    requires Acceptable(j) && PlansKeepToNamespace(states) && k < |j.defs| && j.defs[k].enabled
    requires Reached(Run(j, Start(states), acts).phase, k)
    ensures var w := Run(j, Start(states), acts);
      && j.defs[k].key in w.states
      && (w.states[j.defs[k].key].enabled <==> j.defs[k].key !in w.spent && !w.phase.Activating?)
  {
    RunInv(j, states, acts);
  }

  /** A reconcile that stops there leaves every definition disabled, whatever others do. */
  lemma {:induction false} StoppedHalfway(j: Job, w: Moment, acts: seq<Act>)
    requires Acceptable(j) && Inv(j, w) && w.phase.Activating? && forall i :: 0 <= i < |acts| ==> acts[i].Write?
    ensures var w' := Run(j, w, acts); Inv(j, w') && w'.phase.Activating? && AllDisabled(w'.states)
  {
    if |acts| > 0 {
      StoppedHalfway(j, w, acts[..|acts| - 1]);
      WriteKeepsInv(j, Run(j, w, acts[..|acts| - 1]), acts[|acts| - 1].key, acts[|acts| - 1].row);
    }
  }

  // ---------- nobody in between ----------

  lemma {:induction false} GoOn(j: Job, w: Moment, acts: seq<Act>, v: Moment) returns (acts': seq<Act>, v': Moment)
    requires v == Run(j, w, acts) && forall i :: 0 <= i < |acts| ==> acts[i].Go?
    ensures v' == Advance(j, v) && v' == Run(j, w, acts') && forall i :: 0 <= i < |acts'| ==> acts'[i].Go?
  {
    acts', v' := acts + [Go], Advance(j, v);
    assert acts'[..|acts'| - 1] == acts;
  }

  /** One definition after the other, as when all is one transaction. */
  lemma {:induction false} ReconcilesAlone(j: Job, states: States, n: nat) returns (acts: seq<Act>, w: Moment)
    requires Acceptable(j) && PlansKeepToNamespace(states) && n <= |j.defs|
    ensures w == Run(j, Start(states), acts) && w.phase == Trying(n) && forall i :: 0 <= i < |acts| ==> acts[i].Go?
    ensures ReconcileAll(j.cal, states, j.defs[..n], j.now) == Some(w.states)
  {
    if n == 0 {
      acts, w := [], Start(states);
    } else {
      acts, w := ReconcilesAlone(j, states, n - 1);
      assert j.defs[..n][..n - 1] == j.defs[..n - 1] && j.defs[..n][n - 1] == j.defs[n - 1];
      RunInv(j, states, acts);
      KeyIsFree(j, w.states, n - 1);
      acts, w := GoOn(j, Start(states), acts, w);
      if w.phase.Refreshing? { acts, w := GoOn(j, Start(states), acts, w); }
      if w.phase.Inserting? { acts, w := GoOn(j, Start(states), acts, w); }
    }
  }

  /** Undisturbed, the statements amount to the application of the snapshot; and on the way there every
      definition is disabled for a moment. */
  lemma {:induction false} AloneIsApply(j: Job, states: States) returns (half: seq<Act>, acts: seq<Act>)
    requires Acceptable(j) && PlansKeepToNamespace(states)
    ensures Run(j, Start(states), half).phase.Activating? && AllDisabled(Run(j, Start(states), half).states)
    ensures Run(j, Start(states), acts).phase.Finished? && forall i :: 0 <= i < |acts| ==> acts[i].Go?
    ensures ApplySnapshot(j.cal, states, j.defs, j.revision, j.now) == Some(Run(j, Start(states), acts).states)
  {
    var w: Moment;
    half, w := ReconcilesAlone(j, states, |j.defs|);
    assert j.defs[..|j.defs|] == j.defs;
    half, w := GoOn(j, Start(states), half, w);
    acts, w := GoOn(j, Start(states), half, w);
  }
}
