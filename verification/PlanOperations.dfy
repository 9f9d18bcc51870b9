/** What each plan operation stores, answers and projects, told field by field. */
module PlanOperations {
  import opened TextOrder
  import opened Options
  import opened StoredTime
  import opened RunTables
  import opened Projection
  import opened Plans
  import opened PlanProjection
  import opened PlanService
  import PlanRaces

  // ---------- the normal form of what is sent ----------

  /** The policy with every value that was left out filled in. */
  predicate PolicyFilled(n: Policy, kind: Kind, p: Policy) {
    && n.misfire == (if p.misfire != "" then p.misfire else if kind == Once then "catch_up_one" else "skip")
    && n.grace == (if p.grace == 0 then 60_000_000_000 else p.grace)
    && n.maxAttempts == (if p.maxAttempts == 0 then 3 else p.maxAttempts)
    && n.retryInitial == (if p.retryInitial == 0 then 30_000_000_000 else p.retryInitial)
    && n.retryMax == (if p.retryMax == 0 then 900_000_000_000 else p.retryMax)
    && n.timeout == (if p.timeout == 0 then 300_000_000_000 else p.timeout)
  }

  /** A body as it is stored: all as it was sent, but the allowed actions in text order and the policy
      filled in. */
  ghost predicate IsNormalFormOf(n: Body, b: Body) {
    && n.name == b.name && n.timezone == b.timezone && n.input == b.input && n.target == b.target && n.conversation == b.conversation
    && n.trigger.kind == b.trigger.kind && n.trigger.at == b.trigger.at && n.trigger.schedule == b.trigger.schedule
    && PolicyFilled(n.trigger.policy, b.trigger.kind, b.trigger.policy)
    && multiset(n.actions) == multiset(b.actions)
    && forall i, j :: 0 <= i < j < |n.actions| ==> AtMost(n.actions[i], n.actions[j])
  }

  lemma {:induction false} NormalFormExactly(n: Body, b: Body)
    ensures IsNormalFormOf(n, b) <==> n == NormalizeBody(b)
  {
    SortBySorts(Itself, b.actions);
    var sorted := SortActions(b.actions);
    forall i, j | 0 <= i < j < |sorted| ensures AtMost(sorted[i], sorted[j]) { assert AtMost(Itself(sorted[i]), Itself(sorted[j])); }
    if IsNormalFormOf(n, b) {
      assert SortedBy(Itself, n.actions);
      SortedUnique(Itself, n.actions, sorted);
      assert n.trigger.policy == NormalizePolicy(b.trigger.kind, b.trigger.policy);
    }
  }

  // ---------- projecting a plan ----------

  predicate SaysWhen(p: Plan) {
    (p.body.trigger.kind == Once && p.body.trigger.at.Some?) || (p.body.trigger.kind == Recurring && p.body.trigger.schedule.Some?)
  }

  /** The key of a plan's row belongs to a definition of the other kind. */
  predicate KeyTaken(states: States, p: Plan) {
    "scheduled-plan:" + p.id in states && states["scheduled-plan:" + p.id].source == RuntimeDefinition
  }

  /** When a plan first runs: a one-time plan at its time, a recurring one at the first window after its last
      change, or after its creation. */
  predicate FirstRunsAt(cal: Calendar, p: Plan, schedule: Schedule, at: Instant)
    requires SaysWhen(p)
  {
    if p.body.trigger.kind == Once then at == p.body.trigger.at.value && schedule == Schedule(true, FormatTime(at))
    else schedule == p.body.trigger.schedule.value
         && at == cal.next(schedule, if p.revision > 1 && p.updatedAt != 0 then p.updatedAt else p.createdAt)
  }

  /** The definition a plan stands for. */
  predicate StandsFor(proj: Projector, d: Definition, p: Plan) {
    && d.key == "scheduled-plan:" + p.id && d.revision == Decimal(p.revision) && (d.enabled <==> p.status.Enabled?)
    && d.body == proj.text(p) && d.maxAttempts == (if p.body.trigger.policy.maxAttempts == 0 then 3 else p.body.trigger.policy.maxAttempts)
  }

  /** Projecting a plan writes its one row, or fails because the plan does not say when or its key is taken.
      A new or changed revision starts at the plan's first run, enabled as the plan is; the same revision keeps
      its cursor and is enabled only if it still was. */
  lemma {:induction false} PlanRowExactly(proj: Projector, states: States, p: Plan)
    ensures var key, after := "scheduled-plan:" + p.id, ProjectPlan(proj, states, p);
      if !SaysWhen(p) || KeyTaken(states, p) then after == None else
        && after.Some? && key in after.value && after.value == states[key := after.value[key]]
        && var row := after.value[key];
        && row.source == ScheduledPlan && row.revision == Decimal(p.revision) && StandsFor(proj, row.definition, p)
        && if key in states && states[key].revision == Decimal(p.revision)
           then row.nextRun == states[key].nextRun && (row.enabled <==> states[key].enabled && p.status.Enabled?)
           else FirstRunsAt(proj.cal, p, row.definition.schedule, row.nextRun) && (row.enabled <==> p.status.Enabled?)
  {
  }

  // ---------- the operations ----------

  /** The answer to an operation whose plan is stored: done, if it could be projected. */
  predicate Answers(states: States, e: Effect, p: Plan, replay: bool) {
    if SaysWhen(p) && !KeyTaken(states, p) then e.receipt == Done(p, replay) else e.receipt == NotProjected(p) && e.states == states
  }

  lemma {:induction false} ProjectedAnswers(proj: Projector, rows: PlanRows, states: States, p: Plan, replay: bool)
    ensures Projected(proj, rows, states, p, replay).rows == rows && Answers(states, Projected(proj, rows, states, p, replay), p, replay)
  {
    PlanRowExactly(proj, states, p);
  }

  predicate Visible(rows: PlanRows, owner: Owner, id: string) {
    id in rows && rows[id].plan.owner == owner
  }

  predicate OnlyPlan(rows: PlanRows, after: PlanRows, id: string) {
    id in rows && id in after && after == rows[id := rows[id].(plan := after[id].plan)]
  }

  /** An update stores what was sent, in its normal form, as the next revision, and keeps status, owner and
      creation; it is a replay exactly when the next revision is there and holds what is sent now. */
  lemma {:induction false} UpdateExactly(proj: Projector, rows: PlanRows, states: States, owner: Owner, id: string, expected: int, body: Body, now: Instant)
    requires RowsKeyed(rows)
    ensures var e := Mutated(proj, rows, states, Update(owner, id, expected, body), now);
      if expected < 1 then e == Effect(rows, states, Refused(Invalid))
      else if !Visible(rows, owner, id) || rows[id].plan.status == Deleted then e == Effect(rows, states, Refused(NotFound))
      else
        var p := rows[id].plan;
        if p.revision == expected + 1 && IsNormalFormOf(p.body, body) then e.rows == rows && Answers(states, e, p, true)
        else if p.revision != expected then e == Effect(rows, states, Refused(Conflict))
        else
          && OnlyPlan(rows, e.rows, id)
          && var q := e.rows[id].plan;
          && q == p.(body := q.body, revision := expected + 1, updatedAt := now) && IsNormalFormOf(q.body, body) && Answers(states, e, q, false)
  {
    if id in rows { NormalFormExactly(rows[id].plan.body, body); }
    NormalFormExactly(NormalizeBody(body), body);
    match Decide(Find(rows, owner, id), Update(owner, id, expected, body), now)
    case ReplayOf(p) => ProjectedAnswers(proj, rows, states, p, true);
    case Store(d) => ProjectedAnswers(proj, Replace(rows, d, expected), states, d, false);
    case _ =>
  }

  /** Pausing and resuming change the status and nothing else of a plan.  Only an enabled plan is paused, only
      a paused or disabled one resumed; a plan that is there already is left as it is. */
  lemma {:induction false} ChangeStatusExactly(proj: Projector, rows: PlanRows, states: States, owner: Owner, id: string, expected: int, status: PlanStatus,
                                               now: Instant)
    requires RowsKeyed(rows) && (status == Paused || status == PlanStatus.Enabled)
    ensures var e := Mutated(proj, rows, states, ChangeStatus(owner, id, expected, status), now);
      if expected < 1 then e == Effect(rows, states, Refused(Invalid))
      else if !Visible(rows, owner, id) || rows[id].plan.status == Deleted then e == Effect(rows, states, Refused(NotFound))
      else
        var p := rows[id].plan;
        var may := if status == Paused then p.status == PlanStatus.Enabled else p.status == Paused || p.status == Disabled;
        if p.revision == expected + 1 && p.status == status then e.rows == rows && Answers(states, e, p, true)
        else if p.revision != expected then e == Effect(rows, states, Refused(Conflict))
        else if p.status == status then e == Effect(rows, states, Done(p, true))
        else if !may then e == Effect(rows, states, Refused(Conflict))
        else
          && OnlyPlan(rows, e.rows, id) && e.rows[id].plan == p.(status := status, revision := expected + 1, updatedAt := now)
          && Answers(states, e, e.rows[id].plan, false)
  {
  }

  /** Deleting keeps the plan, as a tombstone at the next revision. */
  lemma {:induction false} DeleteExactly(proj: Projector, rows: PlanRows, states: States, owner: Owner, id: string, expected: int, now: Instant)
    requires RowsKeyed(rows)
    ensures var e := Mutated(proj, rows, states, Delete(owner, id, expected), now);
      if expected < 1 then e == Effect(rows, states, Refused(Invalid))
      else if !Visible(rows, owner, id) then e == Effect(rows, states, Refused(NotFound))
      else
        var p := rows[id].plan;
        if p.status == Deleted then
          if p.revision == expected + 1 then e.rows == rows && Answers(states, e, p, true) else e == Effect(rows, states, Refused(NotFound))
        else if p.revision != expected then e == Effect(rows, states, Refused(Conflict))
        else
          && OnlyPlan(rows, e.rows, id) && e.rows[id].plan == p.(status := Deleted, revision := expected + 1, updatedAt := now)
          && Answers(states, e, e.rows[id].plan, false)
  {
  }

  /** A create stores the first revision of a new plan; of a known one it answers with the plan as it now is,
      if it is the same owner's same request, and otherwise refuses. */
  lemma {:induction false} CreateExactly(proj: Projector, rows: PlanRows, states: States, id: string, owner: Owner, client: string, body: Body,
                                         status: PlanStatus, now: Instant)
    ensures var e := CreatedEffect(proj, rows, states, NewRow(id, owner, client, body, status, now));
      if id !in rows then
        && id in e.rows && e.rows == rows[id := e.rows[id]]
        && var row := e.rows[id];
        && row.plan == Plan(id, owner, row.plan.body, status, 1, now, now) && IsNormalFormOf(row.plan.body, body)
        && row.client == client && row.request == row.plan.body && row.requestStatus == status && Answers(states, e, row.plan, false)
      else if rows[id].plan.owner != owner then e == Effect(rows, states, Refused(NotFound))
      else if rows[id].client != client || !IsNormalFormOf(rows[id].request, body) || rows[id].requestStatus != status
      then e == Effect(rows, states, Refused(Conflict))
      else e.rows == rows && Answers(states, e, rows[id].plan, true)
  {
    NormalFormExactly(NormalizeBody(body), body);
    if id in rows { NormalFormExactly(rows[id].request, body); }
    var row := NewRow(id, owner, client, body, status, now);
    match CreateOutcome(rows, row)
    case CreateRefused(_) =>
    case CreatedPlan(p, replay) => ProjectedAnswers(proj, InsertOrKeep(rows, row), states, p, replay);
  }

  // ---------- one creator among others ----------

  /** A creator of the racing machine whom nobody comes between does exactly what a create does. */
  lemma {:induction false} UndisturbedCreator(proj: Projector, w: PlanRaces.World, t: nat, row: PlanRow, now: Instant)
    requires t !in w.callers && row.plan.revision == 1 && row.plan.status != Deleted
    ensures var asked := PlanRaces.Step(proj, w, PlanRaces.Begin(t, PlanRaces.Create(row)));
      Arrives(Advanced(proj, asked, t, now, 6), t, CreatedEffect(proj, w.rows, w.states, row))
  {
    var asked := PlanRaces.Step(proj, w, PlanRaces.Begin(t, PlanRaces.Create(row)));
    var inserted := PlanRaces.Step(proj, asked, PlanRaces.Advance(t, now));
    var decided := PlanRaces.Step(proj, inserted, PlanRaces.Advance(t, now));
    assert inserted.rows == InsertOrKeep(w.rows, row) && inserted.states == w.states;
    assert CreateOutcome(inserted.rows, row).CreateRefused? <==> CreateOutcome(w.rows, row).CreateRefused?;
    match CreateOutcome(w.rows, row)
    case CreateRefused(e) => ArrivedStays(proj, decided, t, now, 4, CreatedEffect(proj, w.rows, w.states, row));
    case CreatedPlan(p, replay) => ProjectingArrives(proj, decided, t, p, replay, now, 4);
  }
}
