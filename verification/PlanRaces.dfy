/** Many callers creating, changing and deleting plans at once, statement by statement: each reads,
    decides, writes under the revision it read, reads back and projects, and may stop anywhere.
    A projection is several statements too, each committed on its own. */
module PlanRaces {
  import opened Options
  import opened StoredTime
  import opened RunTables
  import opened Projection
  import opened Plans
  import opened PlanProjection

  // ---------- callers and tables ----------

  datatype Request = Mutate(mutation: Mutation) | Create(row: PlanRow)

  datatype Phase =
    | Asking(request: Request)
    | Replacing(mutation: Mutation, desired: Plan)
    | Replaced(mutation: Mutation)
    | Inserted(row: PlanRow, replay: bool)
    | Projecting(plan: Plan, replay: bool)
    | Refreshing(plan: Plan, replay: bool)
    | Inserting(plan: Plan, replay: bool)
    | RefreshingAgain(plan: Plan, replay: bool)
    | Answered(plan: Plan, replay: bool)
    | Refused(error: PlanError)
    | ProjectionFailed

  /** The stored rows and states, with three records of what happened: every version each plan has
      had, every write that won its revision, and the keys whose row a claim or a misfire decision
      has disabled since its revision was written. */
  datatype World = World(rows: PlanRows, states: States, callers: map<nat, Phase>,
                         versions: map<string, seq<Plan>>, wins: seq<(string, int)>, spent: set<string>)

  datatype Act = Begin(caller: nat, request: Request) | Advance(caller: nat, now: Instant) | Stop(caller: nat)
               | MoveCursor(key: string, next: Instant, last: Instant, status: string, disable: bool)

  function Start(states: States): World {
    World.World(map[], states, map[], map[], [], {})
  }

  /** A create stores revision 1 of a plan that is not deleted. */
  predicate Acceptable(r: Request) {
    match r
    case Mutate(m) => Wellformed(m)
    case Create(row) => row.plan.revision == 1 && row.plan.status != Deleted
  }

  // ---------- statements ----------

  function To(w: World, t: nat, phase: Phase): World {
    w.(callers := w.callers[t := phase])
  }

  function Stored(w: World, p: Plan): World {
    w.(versions := w.versions[p.id := (if p.id in w.versions then w.versions[p.id] else []) + [p]])
  }

  predicate InProjection(c: Phase) {
    c.Projecting? || c.Refreshing? || c.Inserting? || c.RefreshingAgain?
  }

  function RevisionWritten(w: World, p: Plan, states: States): World {
    w.(states := states, spent := w.spent - {PlanKey(p.id)})
  }

  function Refreshed(proj: Projector, states: States, p: Plan): Option<States> {
    if PlanSchedule(proj.cal, p).None? then None
    else RefreshRow(states, DefinitionOf(proj, p), ScheduledPlan, p.status.Enabled?)
  }

  function Progress(proj: Projector, w: World, t: nat, now: Instant): World
    requires t in w.callers
  {
    match w.callers[t]
    case Asking(Mutate(m)) =>
      (match Decide(Find(w.rows, m.owner, m.id), m, now)
       case Refuse(e) => To(w, t, Refused(e))
       case ReplayOf(p) => To(w, t, Projecting(p, true))
       case Unchanged(p) => To(w, t, Answered(p, true))
       case Store(desired) => To(w, t, Replacing(m, desired)))
    case Asking(Create(row)) =>
      if row.plan.id in w.rows then To(w, t, Inserted(row, true))
      else To(Stored(w.(rows := InsertOrKeep(w.rows, row)), row.plan), t, Inserted(row, false))
    case Replacing(m, desired) =>
      if CasAdmits(w.rows, desired, m.expected) then
        To(Stored(w.(rows := Replace(w.rows, desired, m.expected), wins := w.wins + [(m.id, m.expected)]), desired), t, Replaced(m))
      else To(w, t, Refused(if Find(w.rows, m.owner, m.id).None? then NotFound else Conflict))
    case Replaced(m) =>
      var p := Find(w.rows, m.owner, m.id);
      if p.None? then To(w, t, Refused(NotFound)) else To(w, t, Projecting(p.value, false))
    case Inserted(row, replay) =>
      (match CreateOutcome(w.rows, row)
       case CreatedPlan(p, _) => To(w, t, Projecting(p, replay))
       case CreateRefused(e) => To(w, t, Refused(e)))
    case Projecting(p, replay) =>
      if PlanSchedule(proj.cal, p).None? then To(w, t, ProjectionFailed) else
        var after := ReplaceRevision(w.states, DefinitionOf(proj, p), FirstRunOf(proj, p), ScheduledPlan, p.status.Enabled?);
        if after.Some? then To(RevisionWritten(w, p, after.value), t, Answered(p, replay)) else To(w, t, Refreshing(p, replay))
    case Refreshing(p, replay) =>
      var after := Refreshed(proj, w.states, p);
      if after.Some? then To(w.(states := after.value), t, Answered(p, replay)) else To(w, t, Inserting(p, replay))
    case Inserting(p, replay) =>
      if PlanSchedule(proj.cal, p).None? then To(w, t, ProjectionFailed) else
        var after := InsertRow(w.states, DefinitionOf(proj, p), FirstRunOf(proj, p), ScheduledPlan, p.status.Enabled?);
        if after.Some? then To(RevisionWritten(w, p, after.value), t, Answered(p, replay)) else To(w, t, RefreshingAgain(p, replay))
    case RefreshingAgain(p, replay) =>
      var after := Refreshed(proj, w.states, p);
      if after.Some? then To(w.(states := after.value), t, Answered(p, replay)) else To(w, t, ProjectionFailed)
    case _ => w
  }

  /** What claims and misfire decisions do to a state row meanwhile. */
  function CursorMoved(states: States, act: Act): States
    requires act.MoveCursor?
  {
    if act.key !in states then states else
      states[act.key := states[act.key].(nextRun := act.next, lastRun := Some(act.last), lastStatus := act.status,
                                         enabled := states[act.key].enabled && !act.disable)]
  }

  function Step(proj: Projector, w: World, act: Act): World {
    match act
    case Begin(t, request) => if t in w.callers || !Acceptable(request) then w else To(w, t, Asking(request))
    case Advance(t, now) => if t in w.callers then Progress(proj, w, t, now) else w
    case Stop(t) => w.(callers := w.callers - {t})
    case MoveCursor(key, _, _, _, disable) =>
      w.(states := CursorMoved(w.states, act), spent := if disable then w.spent + {key} else w.spent)
  }

  function Run(proj: Projector, w: World, acts: seq<Act>): World {
    if |acts| == 0 then w else Step(proj, Run(proj, w, acts[..|acts| - 1]), acts[|acts| - 1])
  }

  // ---------- invariants ----------

  /** Versions count up from one, belong to one owner, and only the last may be deleted. */
  predicate HistoryOk(id: string, vs: seq<Plan>) {
    && |vs| > 0
    && forall k :: 0 <= k < |vs| ==>
         && vs[k].id == id && vs[k].revision == k + 1 && vs[k].owner == vs[0].owner && vs[k].createdAt == vs[0].createdAt
         && (k < |vs| - 1 ==> vs[k].status != Deleted)
  }

  predicate StoredOk(w: World, id: string) {
    && (id in w.rows <==> id in w.versions)
    && (id in w.rows ==> HistoryOk(id, w.versions[id]) && w.rows[id].plan == w.versions[id][|w.versions[id]| - 1])
  }

  predicate IsVersion(versions: map<string, seq<Plan>>, p: Plan) {
    p.id in versions && 1 <= p.revision <= |versions[p.id]| && versions[p.id][p.revision - 1] == p
  }

  predicate CallerOk(proj: Projector, versions: map<string, seq<Plan>>, c: Phase) {
    match c
    case Asking(r) => Acceptable(r)
    case Replacing(m, d) => Wellformed(m) && d.owner == m.owner
                            && m.id in versions && 1 <= m.expected <= |versions[m.id]|
                            && Decide(Some(versions[m.id][m.expected - 1]), m, d.updatedAt) == Store(d)
    case Replaced(m) => m.id in versions && |versions[m.id]| > m.expected >= 1 && versions[m.id][0].owner == m.owner
    case Inserted(row, _) => row.plan.id in versions
    case Projecting(p, _) => IsVersion(versions, p)
    case Refreshing(p, _) => IsVersion(versions, p) && PlanSchedule(proj.cal, p).Some?
    case Inserting(p, _) => IsVersion(versions, p) && PlanSchedule(proj.cal, p).Some?
    case RefreshingAgain(p, _) => IsVersion(versions, p) && PlanSchedule(proj.cal, p).Some?
    case Answered(p, _) => IsVersion(versions, p)
    case _ => true
  }

  /** A plan's execution row is at the revision of some version and enabled only if that one was,
      and its definition is that of some version, not always the same one. */
  ghost predicate RowFromVersion(proj: Projector, versions: map<string, seq<Plan>>, states: States, id: string) {
    IsPlanRow(states, id) ==>
      && id in versions
      && (exists k :: 0 <= k < |versions[id]| && Reflects(states[PlanKey(id)], versions[id][k]))
      && (exists j :: 0 <= j < |versions[id]| && Defines(proj, states[PlanKey(id)], versions[id][j]))
  }

  predicate IsPlanRow(states: States, id: string) {
    PlanKey(id) in states && states[PlanKey(id)].source == ScheduledPlan
  }

  predicate Reflects(row: DefState, p: Plan) {
    row.revision == Decimal(p.revision) && (row.enabled ==> p.status.Enabled?)
  }

  predicate Defines(proj: Projector, row: DefState, p: Plan) {
    PlanSchedule(proj.cal, p).Some? && row.definition == DefinitionOf(proj, p)
  }

  /** A revision of a plan has been replaced exactly when someone won it, and once. */
  ghost predicate WinsOk(w: World) {
    && (forall i, j :: 0 <= i < j < |w.wins| ==> w.wins[i] != w.wins[j])
    && (forall id, e :: (id, e) in w.wins <==> id in w.versions && 1 <= e < |w.versions[id]|)
  }

  ghost predicate Inv(proj: Projector, w: World) {
    && (forall id :: StoredOk(w, id))
    && (forall t :: t in w.callers ==> CallerOk(proj, w.versions, w.callers[t]))
    && (forall id :: RowFromVersion(proj, w.versions, w.states, id))
    && WinsOk(w)
  }

  ghost predicate NoPlanRows(states: States) {
    forall key :: key in states ==> states[key].source != ScheduledPlan
  }

  // ---------- histories only grow ----------

  ghost predicate Extends(before: map<string, seq<Plan>>, after: map<string, seq<Plan>>) {
    forall id :: id in before ==> id in after && before[id] <= after[id]
  }

  lemma {:induction false} CallerStaysOk(proj: Projector, before: map<string, seq<Plan>>, after: map<string, seq<Plan>>, c: Phase)
    requires Extends(before, after) && CallerOk(proj, before, c)
    requires forall id :: id in before ==> |before[id]| > 0
    ensures CallerOk(proj, after, c)
  {
    if c.Projecting? || c.Answered? {
      assert before[c.plan.id] <= after[c.plan.id];
    } else if c.Replacing? || c.Replaced? {
      assert before[c.mutation.id] <= after[c.mutation.id];
    }
  }

  lemma {:induction false} RowStaysFromVersion(proj: Projector, before: map<string, seq<Plan>>, after: map<string, seq<Plan>>, states: States, id: string)
    requires Extends(before, after) && RowFromVersion(proj, before, states, id)
    ensures RowFromVersion(proj, after, states, id)
  {
    if IsPlanRow(states, id) {
      var k :| 0 <= k < |before[id]| && Reflects(states[PlanKey(id)], before[id][k]);
      var j :| 0 <= j < |before[id]| && Defines(proj, states[PlanKey(id)], before[id][j]);
      assert before[id] <= after[id];
      assert Reflects(states[PlanKey(id)], after[id][k]) && Defines(proj, states[PlanKey(id)], after[id][j]);
    }
  }

  // ---------- one write ----------

  /** Only one caller moves and nothing is stored. */
  lemma {:induction false} OnlyCaller(proj: Projector, w: World, t: nat, c: Phase)
    requires Inv(proj, w) && CallerOk(proj, w.versions, c)
    ensures Inv(proj, To(w, t, c))
  {
    forall id ensures StoredOk(To(w, t, c), id) { assert StoredOk(w, id); }
    forall id ensures RowFromVersion(proj, To(w, t, c).versions, To(w, t, c).states, id) { assert RowFromVersion(proj, w.versions, w.states, id); }
  }

  lemma {:induction false} AppendHistory(id: string, vs: seq<Plan>, p: Plan)
    requires |vs| > 0 ==> HistoryOk(id, vs) && vs[|vs| - 1].status != Deleted && p.owner == vs[0].owner && p.createdAt == vs[0].createdAt
    requires p.id == id && p.revision == |vs| + 1
    ensures HistoryOk(id, vs + [p])
  {
  }

  /** One version more, and nothing else. */
  lemma {:induction false} StoredVersion(proj: Projector, w: World, w': World, p: Plan)
    requires Inv(proj, w) && w'.versions == Stored(w, p).versions && w'.states == w.states && w'.callers == w.callers
    requires p.id in w'.rows && w'.rows[p.id].plan == p && w'.rows.Keys == w.rows.Keys + {p.id}
    requires forall id :: id in w.rows && id != p.id ==> w'.rows[id] == w.rows[id]
    requires HistoryOk(p.id, w'.versions[p.id])
    ensures Extends(w.versions, w'.versions)
    ensures forall id :: StoredOk(w', id)
    ensures forall t :: t in w'.callers ==> CallerOk(proj, w'.versions, w'.callers[t])
    ensures forall id :: RowFromVersion(proj, w'.versions, w'.states, id)
  {
    forall id ensures StoredOk(w', id) { assert StoredOk(w, id); }
    forall id | id in w.versions ensures |w.versions[id]| > 0 { assert StoredOk(w, id); }
    forall t | t in w'.callers ensures CallerOk(proj, w'.versions, w'.callers[t]) { CallerStaysOk(proj, w.versions, w'.versions, w.callers[t]); }
    forall id ensures RowFromVersion(proj, w'.versions, w'.states, id) {
      assert RowFromVersion(proj, w.versions, w.states, id);
      RowStaysFromVersion(proj, w.versions, w'.versions, w.states, id);
    }
  }

  lemma {:induction false} InsertKeepsInv(proj: Projector, w: World, row: PlanRow) returns (w': World)
    requires Inv(proj, w) && row.plan.id !in w.rows && row.plan.revision == 1 && row.plan.status != Deleted
    ensures w' == Stored(w.(rows := InsertOrKeep(w.rows, row)), row.plan)
    ensures Inv(proj, w') && Extends(w.versions, w'.versions) && row.plan.id in w'.versions
  {
    w' := Stored(w.(rows := InsertOrKeep(w.rows, row)), row.plan);
    assert StoredOk(w, row.plan.id);
    AppendHistory(row.plan.id, [], row.plan);
    assert w'.versions[row.plan.id] == [] + [row.plan];
    StoredVersion(proj, w, w', row.plan);
    forall id, e ensures (id, e) in w'.wins <==> id in w'.versions && 1 <= e < |w'.versions[id]| {
      assert (id, e) in w.wins <==> id in w.versions && 1 <= e < |w.versions[id]|;
    }
  }

  /** A write that finds the revision it read is the next version of what it read. */
  lemma {:induction false} ReplaceKeepsInv(proj: Projector, w: World, m: Mutation, d: Plan) returns (w': World)
    requires Inv(proj, w) && CallerOk(proj, w.versions, Replacing(m, d)) && CasAdmits(w.rows, d, m.expected)
    ensures w' == Stored(w.(rows := Replace(w.rows, d, m.expected), wins := w.wins + [(m.id, m.expected)]), d)
    ensures Inv(proj, w') && Extends(w.versions, w'.versions) && CallerOk(proj, w'.versions, Replaced(m))
    ensures d.id == m.id && w'.versions == w.versions[m.id := w.versions[m.id] + [d]] && |w.versions[m.id]| == m.expected
  {
    w' := Stored(w.(rows := Replace(w.rows, d, m.expected), wins := w.wins + [(m.id, m.expected)]), d);
    var vs := w.versions[m.id];
    StoreIsNextRevision(vs[m.expected - 1], m, d.updatedAt);
    assert StoredOk(w, m.id);
    assert HistoryOk(m.id, vs);
    assert d.id == m.id && |vs| == m.expected;
    AppendHistory(m.id, vs, d);
    assert w'.rows[m.id].plan == d;
    StoredVersion(proj, w, w', d);
    WinRecorded(w, w', m, d);
  }

  lemma {:induction false} WinRecorded(w: World, w': World, m: Mutation, d: Plan)
    requires WinsOk(w) && m.id in w.versions && |w.versions[m.id]| == m.expected >= 1
    requires w'.versions == w.versions[m.id := w.versions[m.id] + [d]] && w'.wins == w.wins + [(m.id, m.expected)]
    ensures WinsOk(w')
  {
    assert (m.id, m.expected) !in w.wins;
    forall i, j | 0 <= i < j < |w'.wins| ensures w'.wins[i] != w'.wins[j] {
      if j == |w.wins| { assert w.wins[i] in w.wins; }
    }
    forall id, e ensures (id, e) in w'.wins <==> id in w'.versions && 1 <= e < |w'.versions[id]| {
      assert (id, e) in w.wins <==> id in w.versions && 1 <= e < |w.versions[id]|;
      assert (id, e) in w'.wins <==> (id, e) in w.wins || (id, e) == (m.id, m.expected);
    }
  }

  // ---------- one statement of a projection ----------

  /** What a projection's statement may leave in its row: the plan's definition, and a revision and
      enabled flag that some version accounts for. */
  lemma {:induction false} RowRewritten(proj: Projector, versions: map<string, seq<Plan>>, states: States, states': States, p: Plan, k: nat, id: string)
    requires IsVersion(versions, p) && PlanKey(p.id) in states' && states' == states[PlanKey(p.id) := states'[PlanKey(p.id)]]
    requires k < |versions[p.id]| && Reflects(states'[PlanKey(p.id)], versions[p.id][k]) && Defines(proj, states'[PlanKey(p.id)], p)
    requires RowFromVersion(proj, versions, states, id)
    ensures RowFromVersion(proj, versions, states', id)
  {
    PlanKeyInjective(id, p.id);
    if id == p.id {
      assert Defines(proj, states'[PlanKey(id)], versions[id][p.revision - 1]);
    } else if IsPlanRow(states', id) {
      var i :| 0 <= i < |versions[id]| && Reflects(states[PlanKey(id)], versions[id][i]);
      var j :| 0 <= j < |versions[id]| && Defines(proj, states[PlanKey(id)], versions[id][j]);
      assert Reflects(states'[PlanKey(id)], versions[id][i]) && Defines(proj, states'[PlanKey(id)], versions[id][j]);
    }
  }

  lemma {:induction false} RefreshKeepsRows(proj: Projector, versions: map<string, seq<Plan>>, states: States, p: Plan, id: string)
    requires IsVersion(versions, p) && Refreshed(proj, states, p).Some?
    requires RowFromVersion(proj, versions, states, id) && RowFromVersion(proj, versions, states, p.id)
    ensures RowFromVersion(proj, versions, Refreshed(proj, states, p).value, id)
  {
    var k :| 0 <= k < |versions[p.id]| && Reflects(states[PlanKey(p.id)], versions[p.id][k]);
    RowRewritten(proj, versions, states, Refreshed(proj, states, p).value, p, k, id);
  }

  lemma {:induction false} CursorMoveKeepsRows(proj: Projector, versions: map<string, seq<Plan>>, states: States, act: Act, id: string)
    requires act.MoveCursor? && RowFromVersion(proj, versions, states, id)
    ensures RowFromVersion(proj, versions, CursorMoved(states, act), id)
  {
    var after := CursorMoved(states, act);
    if IsPlanRow(after, id) {
      var k :| 0 <= k < |versions[id]| && Reflects(states[PlanKey(id)], versions[id][k]);
      var j :| 0 <= j < |versions[id]| && Defines(proj, states[PlanKey(id)], versions[id][j]);
      assert Reflects(after[PlanKey(id)], versions[id][k]) && Defines(proj, after[PlanKey(id)], versions[id][j]);
    }
  }

  lemma {:induction false} StatesKeepInv(proj: Projector, w: World, states: States, spent: set<string>)
    requires Inv(proj, w) && forall id :: RowFromVersion(proj, w.versions, states, id)
    ensures Inv(proj, w.(states := states, spent := spent))
  {
    forall id ensures StoredOk(w.(states := states, spent := spent), id) { assert StoredOk(w, id); }
  }

  // ---------- every step ----------

  lemma {:induction false} ReadIsVersion(proj: Projector, w: World, owner: Owner, id: string)
    requires Inv(proj, w) && Find(w.rows, owner, id).Some?
    ensures var p := Find(w.rows, owner, id).value;
      IsVersion(w.versions, p) && p.id == id && p.owner == owner && p.revision == |w.versions[id]|
  {
    assert StoredOk(w, id);
  }

  lemma {:induction false} AskStep(proj: Projector, w: World, t: nat, now: Instant)
    requires Inv(proj, w) && t in w.callers && w.callers[t].Asking?
    ensures Inv(proj, Progress(proj, w, t, now)) && Extends(w.versions, Progress(proj, w, t, now).versions)
  {
    assert CallerOk(proj, w.versions, w.callers[t]);
    match w.callers[t].request
    case Mutate(m) => AskMutation(proj, w, t, m, now);
    case Create(row) => AskCreate(proj, w, t, row, now);
  }

  lemma {:induction false} AskMutation(proj: Projector, w: World, t: nat, m: Mutation, now: Instant)
    requires Inv(proj, w) && t in w.callers && w.callers[t] == Asking(Mutate(m)) && Wellformed(m)
    ensures Inv(proj, Progress(proj, w, t, now)) && Progress(proj, w, t, now).versions == w.versions
  {
    var current := Find(w.rows, m.owner, m.id);
    if current.Some? { ReadIsVersion(proj, w, m.owner, m.id); }
    var decision := Decide(current, m, now);
    if decision.Store? {
      assert Decide(current, m, decision.desired.updatedAt) == decision;
      OnlyCaller(proj, w, t, Replacing(m, decision.desired));
    } else {
      OnlyCaller(proj, w, t, Progress(proj, w, t, now).callers[t]);
    }
  }

  lemma {:induction false} AskCreate(proj: Projector, w: World, t: nat, row: PlanRow, now: Instant)
    requires Inv(proj, w) && t in w.callers && w.callers[t] == Asking(Create(row)) && Acceptable(Create(row))
    ensures Inv(proj, Progress(proj, w, t, now)) && Extends(w.versions, Progress(proj, w, t, now).versions)
  {
    assert StoredOk(w, row.plan.id);
    if row.plan.id in w.rows {
      OnlyCaller(proj, w, t, Inserted(row, true));
    } else {
      var w' := InsertKeepsInv(proj, w, row);
      OnlyCaller(proj, w', t, Inserted(row, false));
    }
  }

  lemma {:induction false} WriteStep(proj: Projector, w: World, t: nat, now: Instant)
    requires Inv(proj, w) && t in w.callers && w.callers[t].Replacing?
    ensures Inv(proj, Progress(proj, w, t, now)) && Extends(w.versions, Progress(proj, w, t, now).versions)
  {
    var c := w.callers[t];
    assert CallerOk(proj, w.versions, c);
    if CasAdmits(w.rows, c.desired, c.mutation.expected) {
      var w' := ReplaceKeepsInv(proj, w, c.mutation, c.desired);
      OnlyCaller(proj, w', t, Replaced(c.mutation));
    } else {
      OnlyCaller(proj, w, t, Progress(proj, w, t, now).callers[t]);
    }
  }

  lemma {:induction false} AfterWriteStep(proj: Projector, w: World, t: nat, now: Instant)
    requires Inv(proj, w) && t in w.callers && (w.callers[t].Replaced? || w.callers[t].Inserted?)
    ensures Inv(proj, Progress(proj, w, t, now)) && Progress(proj, w, t, now).versions == w.versions
  {
    assert CallerOk(proj, w.versions, w.callers[t]);
    match w.callers[t]
    case Replaced(m) =>
      if Find(w.rows, m.owner, m.id).Some? { ReadIsVersion(proj, w, m.owner, m.id); }
      OnlyCaller(proj, w, t, Progress(proj, w, t, now).callers[t]);
    case Inserted(row, replay) =>
      assert StoredOk(w, row.plan.id);
      OnlyCaller(proj, w, t, Progress(proj, w, t, now).callers[t]);
  }

  lemma {:induction false} RevisionWrittenKeepsInv(proj: Projector, w: World, p: Plan, states: States)
    requires Inv(proj, w) && IsVersion(w.versions, p) && PlanSchedule(proj.cal, p).Some?
    requires PlanKey(p.id) in states && states == w.states[PlanKey(p.id) := states[PlanKey(p.id)]]
    requires Reflects(states[PlanKey(p.id)], p) && Defines(proj, states[PlanKey(p.id)], p)
    ensures Inv(proj, RevisionWritten(w, p, states))
  {
    forall id ensures RowFromVersion(proj, w.versions, states, id) {
      assert RowFromVersion(proj, w.versions, w.states, id);
      RowRewritten(proj, w.versions, w.states, states, p, p.revision - 1, id);
    }
    StatesKeepInv(proj, w, states, w.spent - {PlanKey(p.id)});
  }

  lemma {:induction false} RefreshKeepsInv(proj: Projector, w: World, p: Plan)
    requires Inv(proj, w) && IsVersion(w.versions, p) && Refreshed(proj, w.states, p).Some?
    ensures Inv(proj, w.(states := Refreshed(proj, w.states, p).value))
  {
    var states := Refreshed(proj, w.states, p).value;
    forall id ensures RowFromVersion(proj, w.versions, states, id) {
      assert RowFromVersion(proj, w.versions, w.states, id) && RowFromVersion(proj, w.versions, w.states, p.id);
      RefreshKeepsRows(proj, w.versions, w.states, p, id);
    }
    StatesKeepInv(proj, w, states, w.spent);
    assert w.(states := states) == w.(states := states, spent := w.spent);
  }

  lemma {:induction false} ProjectionStep(proj: Projector, w: World, t: nat, now: Instant)
    requires Inv(proj, w) && t in w.callers && InProjection(w.callers[t])
    ensures Inv(proj, Progress(proj, w, t, now)) && Progress(proj, w, t, now).versions == w.versions
  {
    assert CallerOk(proj, w.versions, w.callers[t]);
    if w.callers[t].Projecting? || w.callers[t].Inserting? { WritingStep(proj, w, t, now); } else { RefreshingStep(proj, w, t, now); }
  }

  lemma {:induction false} WritingStep(proj: Projector, w: World, t: nat, now: Instant)
    requires Inv(proj, w) && t in w.callers && (w.callers[t].Projecting? || w.callers[t].Inserting?)
    ensures Inv(proj, Progress(proj, w, t, now))
  {
    var p, next := w.callers[t].plan, Progress(proj, w, t, now);
    assert CallerOk(proj, w.versions, w.callers[t]);
    if next.callers[t].Answered? {
      RevisionWrittenKeepsInv(proj, w, p, next.states);
      OnlyCaller(proj, RevisionWritten(w, p, next.states), t, next.callers[t]);
    } else {
      OnlyCaller(proj, w, t, next.callers[t]);
    }
  }

  lemma {:induction false} RefreshingStep(proj: Projector, w: World, t: nat, now: Instant)
    requires Inv(proj, w) && t in w.callers && (w.callers[t].Refreshing? || w.callers[t].RefreshingAgain?)
    ensures Inv(proj, Progress(proj, w, t, now))
  {
    var p, next := w.callers[t].plan, Progress(proj, w, t, now);
    assert CallerOk(proj, w.versions, w.callers[t]);
    if next.callers[t].Answered? {
      RefreshKeepsInv(proj, w, p);
      OnlyCaller(proj, w.(states := next.states), t, next.callers[t]);
    } else {
      OnlyCaller(proj, w, t, next.callers[t]);
    }
  }

  lemma {:induction false} StepInv(proj: Projector, w: World, act: Act)
    requires Inv(proj, w)
    ensures Inv(proj, Step(proj, w, act)) && Extends(w.versions, Step(proj, w, act).versions)
  {
    match act
    case Begin(t, request) =>
      if t !in w.callers && Acceptable(request) { OnlyCaller(proj, w, t, Asking(request)); }
    case Advance(t, now) =>
      if t in w.callers {
        if w.callers[t].Asking? { AskStep(proj, w, t, now); }
        else if w.callers[t].Replacing? { WriteStep(proj, w, t, now); }
        else if w.callers[t].Replaced? || w.callers[t].Inserted? { AfterWriteStep(proj, w, t, now); }
        else if InProjection(w.callers[t]) { ProjectionStep(proj, w, t, now); }
      }
    case Stop(t) =>
      var w' := Step(proj, w, act);
      forall id ensures StoredOk(w', id) { assert StoredOk(w, id); }
      forall id ensures RowFromVersion(proj, w'.versions, w'.states, id) { assert RowFromVersion(proj, w.versions, w.states, id); }
    case MoveCursor(key, _, _, _, disable) =>
      forall id ensures RowFromVersion(proj, w.versions, CursorMoved(w.states, act), id) {
        assert RowFromVersion(proj, w.versions, w.states, id);
        CursorMoveKeepsRows(proj, w.versions, w.states, act, id);
      }
      StatesKeepInv(proj, w, CursorMoved(w.states, act), Step(proj, w, act).spent);
  }

  lemma {:induction false} RunInv(proj: Projector, w: World, acts: seq<Act>)
    requires Inv(proj, w)
    ensures Inv(proj, Run(proj, w, acts)) && Extends(w.versions, Run(proj, w, acts).versions)
  {
    if |acts| > 0 {
      var mid := Run(proj, w, acts[..|acts| - 1]);
      RunInv(proj, w, acts[..|acts| - 1]);
      StepInv(proj, mid, acts[|acts| - 1]);
      forall id | id in w.versions ensures w.versions[id] <= Run(proj, w, acts).versions[id] {
        assert w.versions[id] <= mid.versions[id] <= Run(proj, w, acts).versions[id];
      }
    }
  }

  lemma {:induction false} StartInv(proj: Projector, states: States)
    requires NoPlanRows(states)
    ensures Inv(proj, Start(states))
  {
    forall id ensures StoredOk(Start(states), id) {}
  }

  // ---------- what holds over every run ----------

  /** The stored plan is always the newest of its versions; versions count up by one from one; and
      each revision is replaced by exactly one winner, whoever else wrote under it. */
  lemma {:induction false} OneWinnerPerRevision(proj: Projector, states: States, acts: seq<Act>, id: string)
    requires NoPlanRows(states)
    ensures var w := Run(proj, Start(states), acts);
      && (id in w.rows ==> id in w.versions && HistoryOk(id, w.versions[id]) && w.rows[id].plan == w.versions[id][|w.versions[id]| - 1]
                           && w.rows[id].plan.revision == |w.versions[id]|)
      && (forall e :: (id, e) in w.wins <==> id in w.rows && 1 <= e < w.rows[id].plan.revision)
      && (forall i, j :: 0 <= i < j < |w.wins| ==> w.wins[i] != w.wins[j])
  {
    StartInv(proj, states);
    RunInv(proj, Start(states), acts);
    assert StoredOk(Run(proj, Start(states), acts), id);
  }

  /** A deleted plan is deleted for good: no run of creates, replays and mutations changes it. */
  lemma {:induction false} DeletedIsForever(proj: Projector, w: World, acts: seq<Act>, id: string)
    requires Inv(proj, w) && id in w.rows && w.rows[id].plan.status == Deleted
    ensures var w' := Run(proj, w, acts); id in w'.rows && w'.rows[id].plan == w.rows[id].plan
  {
    RunInv(proj, w, acts);
    var w' := Run(proj, w, acts);
    assert StoredOk(w, id) && StoredOk(w', id);
    var vs, vs' := w.versions[id], w'.versions[id];
    assert vs <= vs';
    assert HistoryOk(id, vs');
    assert vs'[|vs| - 1] == vs[|vs| - 1];
    assert !(|vs| - 1 < |vs'| - 1);
  }

  /** Whatever a caller is answered with was stored as that very plan, never a mixture. */
  lemma {:induction false} AnswersAreStored(proj: Projector, states: States, acts: seq<Act>, t: nat)
    requires NoPlanRows(states)
    ensures var w := Run(proj, Start(states), acts);
      t in w.callers && w.callers[t].Answered? ==> IsVersion(w.versions, w.callers[t].plan)
  {
    StartInv(proj, states);
    RunInv(proj, Start(states), acts);
    var w := Run(proj, Start(states), acts);
    if t in w.callers { assert CallerOk(proj, w.versions, w.callers[t]); }
  }

  /** A writer that wins is answered from what it wrote or a later version, never an earlier one. */
  lemma {:induction false} WinnerReadsItsWriteOrLater(proj: Projector, w: World, t: nat, now: Instant)
    requires Inv(proj, w) && t in w.callers && w.callers[t].Replaced?
    ensures var next := Progress(proj, w, t, now).callers[t]; var m := w.callers[t].mutation;
      next.Projecting? && !next.replay && next.plan.id == m.id && next.plan.revision > m.expected
  {
    var m := w.callers[t].mutation;
    assert CallerOk(proj, w.versions, w.callers[t]);
    assert StoredOk(w, m.id);
  }

  /** However the statements of projections interleave, an execution row is at the revision of some
      version its plan has had, enabled only if that version was, with the definition of some
      version.  That the two are one version is more than the code guarantees: see `PlanOverlaps`. */
  lemma {:induction false} RowsComeFromVersions(proj: Projector, states: States, acts: seq<Act>, id: string)
    requires NoPlanRows(states)
    ensures var w := Run(proj, Start(states), acts); RowFromVersion(proj, w.versions, w.states, id)
  {
    StartInv(proj, states);
    RunInv(proj, Start(states), acts);
    assert RowFromVersion(proj, Run(proj, Start(states), acts).versions, Run(proj, Start(states), acts).states, id);
  }

  ghost predicate ListsAll(rows: PlanRows, plans: seq<Plan>) {
    && DistinctPlans(plans)
    && (forall i :: 0 <= i < |plans| ==> plans[i].id in rows && plans[i] == rows[plans[i].id].plan)
    && (forall id :: id in rows ==> exists i :: 0 <= i < |plans| && plans[i].id == id)
  }

  /** Recovery, once the callers are quiet, brings every row to its plan's revision and definition,
      and leaves no row of a plan that is not stored.  It enables a row exactly if the plan is enabled
      and the row was not already at that revision and disabled: a row spent at its revision stays
      spent, and one that an overlap disabled there is not repaired. */
  lemma {:induction false} RecoveryEndsEveryRace(proj: Projector, states: States, acts: seq<Act>, plans: seq<Plan>, id: string)
    requires NoPlanRows(states)
    requires var w := Run(proj, Start(states), acts); ListsAll(w.rows, plans) && ProjectAll(proj, w.states, plans).Some?
    ensures var w := Run(proj, Start(states), acts);
      var after := ProjectAll(proj, w.states, plans).value;
      && (IsPlanRow(after, id) ==> id in w.rows)
      && (id in w.rows ==>
            var p := w.rows[id].plan;
            && IsPlanRow(after, id) && after[PlanKey(id)].revision == Decimal(p.revision) && Defines(proj, after[PlanKey(id)], p)
            && (after[PlanKey(id)].enabled <==>
                  p.status.Enabled? && !(PlanKey(id) in w.states && w.states[PlanKey(id)].revision == Decimal(p.revision)
                                         && !w.states[PlanKey(id)].enabled)))
  {
    var w := Run(proj, Start(states), acts);
    StartInv(proj, states);
    RunInv(proj, Start(states), acts);
    RecoveryRestores(proj, w.states, plans);
    if id in w.rows {
      var i :| 0 <= i < |plans| && plans[i].id == id;
      assert HasItsRow(proj, w.states, ProjectAll(proj, w.states, plans).value, plans[i]);
    } else {
      assert StoredOk(w, id) && RowFromVersion(proj, w.versions, w.states, id);
      forall i | 0 <= i < |plans| ensures PlanKey(plans[i].id) != PlanKey(id) { PlanKeyInjective(plans[i].id, id); }
      assert !HasPlan(plans, PlanKey(id));
    }
  }
}
