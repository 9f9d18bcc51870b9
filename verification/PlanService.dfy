/** The plan operations of one service, and recovery of the projection when a worker starts. */
module PlanService {
  import opened TextOrder
  import opened Options
  import opened StoredTime
  import opened Multisets
  import opened RunTables
  import RunStore
  import opened Paging
  import opened Projection
  import opened Plans
  import opened PlanProjection
  import PlanRaces

  // ---------- ids in order ----------

  ghost function Enumerate(keys: set<string>): seq<string> {
    if keys == {} then [] else
      var k :| k in keys;
      [k] + Enumerate(keys - {k})
  }

  /** The ids of a key set in text order. */
  ghost function Ids(keys: set<string>): seq<string> {
    SortBy(Itself, Enumerate(keys))
  }

  predicate NoDuplicates(s: seq<string>) {
    forall i, j :: 0 <= i < j < |s| ==> s[i] != s[j]
  }

  lemma {:induction false} EnumerateAll(keys: set<string>)
    ensures forall k :: k in Enumerate(keys) <==> k in keys
    ensures NoDuplicates(Enumerate(keys))
  {
    if keys != {} {
      var k :| k in keys && Enumerate(keys) == [k] + Enumerate(keys - {k});
      EnumerateAll(keys - {k});
    }
  }

  lemma {:induction false} SortedIsAscending(s: seq<string>)
    requires NoDuplicates(s)
    ensures Ascending(SortBy(Itself, s)) && (forall k :: k in SortBy(Itself, s) <==> k in s)
  {
    SortBySorts(Itself, s);
    var t := SortBy(Itself, s);
    forall k ensures k in t <==> k in s { assert k in t <==> k in multiset(t); }
    forall i, j | 0 <= i < j < |t| ensures Less(t[i], t[j]) {
      Trichotomy(t[i], t[j]);
      assert AtMost(Itself(t[i]), Itself(t[j]));
      OnceEach(s, t[i]);
      if t[i] == t[j] { TwiceInMultiset(t, i, j); }
    }
  }

  /** However a key set is enumerated, sorting gives the same ids. */
  lemma {:induction false} SortedIds(keys: set<string>, s: seq<string>)
    requires NoDuplicates(s) && forall k :: k in s <==> k in keys
    ensures SortBy(Itself, s) == Ids(keys)
  {
    EnumerateAll(keys);
    SameMembersSameMultiset(s, Enumerate(keys));
    SortForgetsOrder(Itself, s, Enumerate(keys));
  }

  lemma {:induction false} IdsAscend(keys: set<string>)
    ensures Ascending(Ids(keys)) && (forall k :: k in Ids(keys) <==> k in keys) && NoDuplicates(Ids(keys))
  {
    EnumerateAll(keys);
    SortedIsAscending(Enumerate(keys));
    var ids := Ids(keys);
    forall i, j | 0 <= i < j < |ids| ensures ids[i] != ids[j] {
      assert Less(ids[i], ids[j]);
      Irreflexive(ids[i]);
    }
  }

  predicate AllStored(rows: PlanRows, ids: seq<string>) {
    forall i :: 0 <= i < |ids| ==> ids[i] in rows
  }

  function PlansOf(rows: PlanRows, ids: seq<string>): (plans: seq<Plan>)
    requires AllStored(rows, ids)
    ensures |plans| == |ids| && forall i :: 0 <= i < |ids| ==> plans[i] == rows[ids[i]].plan
  {
    seq(|ids|, i requires 0 <= i < |ids| => rows[ids[i]].plan)
  }

  /** Every stored plan, deleted ones included, in id order. */
  ghost function StoredPlans(rows: PlanRows): seq<Plan> {
    IdsAscend(rows.Keys);
    PlansOf(rows, Ids(rows.Keys))
  }

  predicate RowsKeyed(rows: PlanRows) {
    "" !in rows && forall id :: id in rows ==> rows[id].plan.id == id
  }

  lemma {:induction false} StoredPlansDistinct(rows: PlanRows)
    requires RowsKeyed(rows)
    ensures DistinctPlans(StoredPlans(rows))
    ensures forall i :: 0 <= i < |StoredPlans(rows)| ==>
              StoredPlans(rows)[i].id in rows && StoredPlans(rows)[i] == rows[StoredPlans(rows)[i].id].plan
    ensures forall id :: id in rows ==> exists i :: 0 <= i < |StoredPlans(rows)| && StoredPlans(rows)[i].id == id
  {
    IdsAscend(rows.Keys);
    var ids, plans := Ids(rows.Keys), StoredPlans(rows);
    assert forall i :: 0 <= i < |ids| ==> ids[i] in rows && plans[i].id == ids[i];
    forall id | id in rows ensures exists i :: 0 <= i < |plans| && plans[i].id == id {
      var i :| 0 <= i < |ids| && ids[i] == id;
      assert plans[i].id == id;
    }
  }

  // ---------- what an operation does ----------

  datatype Receipt = Done(plan: Plan, replay: bool) | Refused(error: PlanError) | NotProjected(plan: Plan)

  datatype Effect = Effect(rows: PlanRows, states: States, receipt: Receipt)

  function Projected(proj: Projector, rows: PlanRows, states: States, p: Plan, replay: bool): Effect {
    var after := ProjectPlan(proj, states, p);
    if after.None? then Effect(rows, states, NotProjected(p)) else Effect(rows, after.value, Done(p, replay))
  }

  function Mutated(proj: Projector, rows: PlanRows, states: States, m: Mutation, now: Instant): Effect {
    match Decide(Find(rows, m.owner, m.id), m, now)
    case Refuse(e) => Effect(rows, states, Refused(e))
    case Unchanged(p) => Effect(rows, states, Done(p, true))
    case ReplayOf(p) => Projected(proj, rows, states, p, true)
    case Store(d) => Projected(proj, Replace(rows, d, m.expected), states, d, false)
  }

  function CreatedEffect(proj: Projector, rows: PlanRows, states: States, row: PlanRow): Effect {
    match CreateOutcome(rows, row)
    case CreateRefused(e) => Effect(InsertOrKeep(rows, row), states, Refused(e))
    case CreatedPlan(p, replay) => Projected(proj, InsertOrKeep(rows, row), states, p, replay)
  }

  /** What claims, misfire decisions and reschedules may do to the states: rows keep their source,
      revision and definition, and none is enabled. */
  ghost predicate CursorsMoved(before: States, after: States) {
    && before.Keys == after.Keys
    && forall key :: key in before ==>
         && after[key].source == before[key].source && after[key].revision == before[key].revision
         && after[key].definition == before[key].definition && (after[key].enabled ==> before[key].enabled)
  }

  /** Repeating a mutation that stored a new version, after any moves of cursors, stores nothing,
      answers with the same plan as a replay, and leaves the states as it finds them. */
  lemma {:induction false} RepeatedMutation(proj: Projector, rows: PlanRows, states: States, m: Mutation, now: Instant, moved: States, later: Instant)
    requires RowsKeyed(rows) && Wellformed(m)
    requires Decide(Find(rows, m.owner, m.id), m, now).Store? && Mutated(proj, rows, states, m, now).receipt.Done?
    requires CursorsMoved(Mutated(proj, rows, states, m, now).states, moved)
    ensures var once := Mutated(proj, rows, states, m, now);
      Mutated(proj, once.rows, moved, m, later) == Effect(once.rows, moved, Done(once.receipt.plan, true))
  {
    RepeatIsReplay(rows, m, now, later);
    var once := Mutated(proj, rows, states, m, now);
    OnePlan(proj, states, once.receipt.plan);
    ProjectedIsSettled(proj, states, moved, once.receipt.plan);
  }

  lemma {:induction false} ProjectedIsSettled(proj: Projector, states: States, moved: States, p: Plan)
    requires !Unprojectable(proj, states, p) && CursorsMoved(states[PlanKey(p.id) := RecoveredRow(proj, states, p)], moved)
    ensures ProjectPlan(proj, moved, p) == Some(moved)
  {
    var key := PlanKey(p.id);
    assert key in states[key := RecoveredRow(proj, states, p)];
    OnePlan(proj, moved, p);
    assert RecoveredRow(proj, moved, p) == moved[key];
    assert moved[key := moved[key]] == moved;
  }

  // ---------- one caller among many ----------

  function PhaseOf(r: Receipt): PlanRaces.Phase {
    match r
    case Done(p, replay) => PlanRaces.Answered(p, replay)
    case Refused(e) => PlanRaces.Refused(e)
    case NotProjected(_) => PlanRaces.ProjectionFailed
  }

  function Advanced(proj: Projector, w: PlanRaces.World, t: nat, now: Instant, steps: nat): PlanRaces.World
    decreases steps
  {
    if steps == 0 then w else Advanced(proj, PlanRaces.Step(proj, w, PlanRaces.Advance(t, now)), t, now, steps - 1)
  }

  predicate Arrives(w: PlanRaces.World, t: nat, effect: Effect) {
    w.rows == effect.rows && w.states == effect.states && t in w.callers && w.callers[t] == PhaseOf(effect.receipt)
  }

  lemma {:induction false} ArrivedStays(proj: Projector, w: PlanRaces.World, t: nat, now: Instant, steps: nat, effect: Effect)
    requires Arrives(w, t, effect)
    ensures Arrives(Advanced(proj, w, t, now, steps), t, effect)
    decreases steps
  {
    if steps > 0 { ArrivedStays(proj, PlanRaces.Step(proj, w, PlanRaces.Advance(t, now)), t, now, steps - 1, effect); }
  }

  lemma {:induction false} ArrivedByNow(proj: Projector, w: PlanRaces.World, t: nat, now: Instant, steps: nat, effect: Effect)
    requires steps > 0 && Arrives(PlanRaces.Step(proj, w, PlanRaces.Advance(t, now)), t, effect)
    ensures Arrives(Advanced(proj, w, t, now, steps), t, effect)
  {
    ArrivedStays(proj, PlanRaces.Step(proj, w, PlanRaces.Advance(t, now)), t, now, steps - 1, effect);
  }

  /** The four statements of a projection that nobody comes between. */
  lemma {:induction false} ProjectingArrives(proj: Projector, w: PlanRaces.World, t: nat, p: Plan, replay: bool, now: Instant, steps: nat)
    requires t in w.callers && w.callers[t] == PlanRaces.Projecting(p, replay) && steps >= 4
    ensures Arrives(Advanced(proj, w, t, now, steps), t, Projected(proj, w.rows, w.states, p, replay))
  {
    var a := PlanRaces.Step(proj, w, PlanRaces.Advance(t, now));
    if PlanSchedule(proj.cal, p).Some? {
      StatementsAlone(w.states, DefinitionOf(proj, p), FirstRunOf(proj, p), ScheduledPlan, p.status.Enabled?);
      if a.callers[t].Refreshing? {
        RefreshingArrives(proj, a, t, p, replay, now, steps - 1);
      } else {
        ArrivedByNow(proj, w, t, now, steps, Projected(proj, w.rows, w.states, p, replay));
      }
    } else {
      ArrivedByNow(proj, w, t, now, steps, Projected(proj, w.rows, w.states, p, replay));
    }
  }

  lemma {:induction false} RefreshingArrives(proj: Projector, w: PlanRaces.World, t: nat, p: Plan, replay: bool, now: Instant, steps: nat)
    requires t in w.callers && w.callers[t] == PlanRaces.Refreshing(p, replay) && steps >= 3 && PlanSchedule(proj.cal, p).Some?
    requires ReplaceRevision(w.states, DefinitionOf(proj, p), FirstRunOf(proj, p), ScheduledPlan, p.status.Enabled?).None?
    ensures Arrives(Advanced(proj, w, t, now, steps), t, Projected(proj, w.rows, w.states, p, replay))
  {
    var effect := Projected(proj, w.rows, w.states, p, replay);
    StatementsAlone(w.states, DefinitionOf(proj, p), FirstRunOf(proj, p), ScheduledPlan, p.status.Enabled?);
    if PlanRaces.Refreshed(proj, w.states, p).Some? {
      ArrivedByNow(proj, w, t, now, steps, effect);
    } else {
      var a := PlanRaces.Step(proj, w, PlanRaces.Advance(t, now));
      assert a == PlanRaces.To(w, t, PlanRaces.Inserting(p, replay));
      InsertingArrives(proj, a, t, p, replay, now, steps - 1);
    }
  }

  lemma {:induction false} InsertingArrives(proj: Projector, w: PlanRaces.World, t: nat, p: Plan, replay: bool, now: Instant, steps: nat)
    requires t in w.callers && w.callers[t] == PlanRaces.Inserting(p, replay) && steps >= 2 && PlanSchedule(proj.cal, p).Some?
    requires PlanRaces.Refreshed(proj, w.states, p).None?
    ensures Arrives(Advanced(proj, w, t, now, steps), t, Projected(proj, w.rows, w.states, p, replay))
  {
    var effect := Projected(proj, w.rows, w.states, p, replay);
    if PlanKey(p.id) !in w.states {
      ArrivedByNow(proj, w, t, now, steps, effect);
    } else {
      var a := PlanRaces.Step(proj, w, PlanRaces.Advance(t, now));
      assert a == PlanRaces.To(w, t, PlanRaces.RefreshingAgain(p, replay));
      ArrivedByNow(proj, a, t, now, steps - 1, effect);
    }
  }

  lemma {:induction false} ReplacingArrives(proj: Projector, w: PlanRaces.World, t: nat, m: Mutation, d: Plan, now: Instant)
    requires t in w.callers && w.callers[t] == PlanRaces.Replacing(m, d)
    requires CasAdmits(w.rows, d, m.expected) && Find(Replace(w.rows, d, m.expected), m.owner, m.id) == Some(d)
    ensures Arrives(Advanced(proj, w, t, now, 6), t, Projected(proj, Replace(w.rows, d, m.expected), w.states, d, false))
  {
    var written := PlanRaces.Step(proj, w, PlanRaces.Advance(t, now));
    var reread := PlanRaces.Step(proj, written, PlanRaces.Advance(t, now));
    assert reread.callers[t] == PlanRaces.Projecting(d, false);
    ProjectingArrives(proj, reread, t, d, false, now, 4);
  }

  /** A caller whose statements nobody comes between does exactly what the operation says. */
  lemma {:induction false} UndisturbedCaller(proj: Projector, w: PlanRaces.World, t: nat, m: Mutation, now: Instant)
    requires RowsKeyed(w.rows) && Wellformed(m) && t !in w.callers
    ensures var asked := PlanRaces.Step(proj, w, PlanRaces.Begin(t, PlanRaces.Mutate(m)));
      Arrives(Advanced(proj, asked, t, now, 7), t, Mutated(proj, w.rows, w.states, m, now))
  {
    var asked := PlanRaces.Step(proj, w, PlanRaces.Begin(t, PlanRaces.Mutate(m)));
    var decided := PlanRaces.Step(proj, asked, PlanRaces.Advance(t, now));
    match Decide(Find(w.rows, m.owner, m.id), m, now)
    case Refuse(e) => ArrivedStays(proj, decided, t, now, 6, Mutated(proj, w.rows, w.states, m, now));
    case Unchanged(p) => ArrivedStays(proj, decided, t, now, 6, Mutated(proj, w.rows, w.states, m, now));
    case ReplayOf(p) => ProjectingArrives(proj, decided, t, p, true, now, 6);
    case Store(d) =>
      RepeatIsReplay(w.rows, m, now, now);
      ReplacingArrives(proj, decided, t, m, d, now);
  }

  // ---------- the service ----------

  datatype PlanList = ListedPage(items: seq<Plan>, next: string) | ListRefused

  function PageSize(limit: int): (size: nat)
    requires 0 <= limit <= 100
    ensures limit > 0 ==> size == limit
    ensures limit == 0 ==> size == 50
  {
    if limit == 0 then 50 else limit
  }

  /** The plans an owner may list: not deleted, and of the wanted status when one is given. */
  function Listable(rows: PlanRows, owner: Owner, status: Option<PlanStatus>): set<string> {
    set id | id in rows && rows[id].plan.owner == owner && rows[id].plan.status != Deleted
             && (status.None? || rows[id].plan.status == status.value)
  }

  /** Following the cursors of a listing from its start shows every listable plan once, in id order. */
  lemma {:induction false} ListingShowsEveryPlanOnce(rows: PlanRows, owner: Owner, status: Option<PlanStatus>, limit: int)
    requires RowsKeyed(rows) && 0 <= limit <= 100
    ensures var ids := Ids(Listable(rows, owner, status));
      FollowCursors(ids, "", PageSize(limit), |ids|) == ids && NoDuplicates(ids)
      && forall id :: id in ids <==> id in rows && rows[id].plan.owner == owner && rows[id].plan.status != Deleted
                                     && (status.None? || rows[id].plan.status == status.value)
  {
    var ids := Ids(Listable(rows, owner, status));
    IdsAscend(Listable(rows, owner, status));
    PagesAreComplete(ids, "", PageSize(limit), |ids|);
  }

  class PlanStore {
    const runs: RunStore.Store
    const proj: Projector
    var rows: PlanRows

    ghost predicate Valid()
      reads this
    {
      RowsKeyed(rows)
    }

    constructor (runs: RunStore.Store, proj: Projector)
      ensures this.runs == runs && this.proj == proj && rows == map[] && Valid()
    {
      this.runs, this.proj, rows := runs, proj, map[];
    }

    /** The engine's answer to an ordered query over the given keys, behind a cursor, up to a limit. */
    method SelectIds(keys: set<string>, after: string, limit: nat) returns (ids: seq<string>)
      ensures ids == Page(Ids(keys), after, limit)
    {
      var rest, found := keys, [];
      while rest != {}
        invariant rest <= keys && NoDuplicates(found)
        invariant forall k :: k in found <==> k in keys && k !in rest
        decreases rest
      {
        var k :| k in rest;
        found := found + [k];
        rest := rest - {k};
      }
      SortedIds(keys, found);
      ids := Page(SortBy(Itself, found), after, limit);
    }

    method Project(p: Plan) returns (ok: bool)
      modifies runs`states
      ensures var after := ProjectPlan(proj, old(runs.states), p);
        ok == after.Some? && runs.states == (if after.Some? then after.value else old(runs.states))
    {
      var d: Definition;
      var next: Instant;
      match p.body.trigger.kind {
        case Once =>
          if p.body.trigger.at.None? { return false; }
          next := p.body.trigger.at.value;
          d := PlanDefinition(proj, p, Schedule(true, FormatTime(next)));
        case Recurring =>
          if p.body.trigger.schedule.None? { return false; }
          var anchor := p.createdAt;
          if p.revision > 1 && p.updatedAt != 0 { anchor := p.updatedAt; }
          next := proj.cal.next(p.body.trigger.schedule.value, anchor);
          d := PlanDefinition(proj, p, p.body.trigger.schedule.value);
        case OtherKind => return false;
      }
      var done := runs.ReconcileWith(d, next, ScheduledPlan, p.status.Enabled?);
      return done == RunStore.Done;
    }

    method Receive(p: Plan, replay: bool) returns (r: Receipt)
      modifies runs`states
      ensures Effect(rows, runs.states, r) == Projected(proj, old(rows), old(runs.states), p, replay)
    {
      var ok := Project(p);
      return if ok then Done(p, replay) else NotProjected(p);
    }

    /** Stores a plan or finds it stored. */
    method Create(id: string, owner: Owner, client: string, body: Body, status: PlanStatus, now: Instant) returns (r: Receipt)
      requires Valid() && id != ""
      modifies this`rows, runs`states
      ensures Valid()
      ensures Effect(rows, runs.states, r)
              == CreatedEffect(proj, old(rows), old(runs.states), NewRow(id, owner, client, body, status, now))
    {
      var normal := NormalizeBody(body);
      var row := PlanRow(Plan(id, owner, normal, status, 1, now, now), client, normal, status);
      var unknown := id !in rows;
      if unknown { rows := rows[id := row]; }
      var stored := rows[id];
      if stored.plan.owner != owner { return Refused(NotFound); }
      if stored.client != client || stored.request != normal || stored.requestStatus != status { return Refused(Conflict); }
      r := Receive(stored.plan, !unknown);
    }

    /** Writes the desired version if the stored one still has the expected revision, and reads it back. */
    method ReplacePlan(desired: Plan, expected: int) returns (r: Option<Plan>)
      requires Valid()
      modifies this`rows
      ensures Valid()
      ensures rows == Replace(old(rows), desired, expected)
      ensures r == if CasAdmits(old(rows), desired, expected) then Find(rows, desired.owner, desired.id) else None
    {
      var current := Find(rows, desired.owner, desired.id);
      if current.None? || current.value.revision != expected { return None; }
      var row := rows[desired.id];
      rows := rows[desired.id := row.(plan := row.plan.(body := desired.body, status := desired.status,
                                                         revision := desired.revision, updatedAt := desired.updatedAt))];
      return Find(rows, desired.owner, desired.id);
    }

    method StoreVersion(desired: Plan, expected: int) returns (r: Receipt)
      requires Valid() && CasAdmits(rows, desired, expected) && desired.createdAt == rows[desired.id].plan.createdAt
      modifies this`rows, runs`states
      ensures Valid()
      ensures Effect(rows, runs.states, r)
              == Projected(proj, Replace(old(rows), desired, expected), old(runs.states), desired, false)
    {
      var stored := ReplacePlan(desired, expected);
      r := Receive(stored.value, false);
    }

    method Update(owner: Owner, id: string, expected: int, body: Body, now: Instant) returns (r: Receipt)
      requires Valid()
      modifies this`rows, runs`states
      ensures Valid()
      ensures Effect(rows, runs.states, r)
              == Mutated(proj, old(rows), old(runs.states), Mutation.Update(owner, id, expected, body), now)
    {
      if expected < 1 { return Refused(Invalid); }
      var current := Find(rows, owner, id);
      if current.None? || current.value.status == Deleted { return Refused(NotFound); }
      var p := current.value;
      var desired := p.(body := NormalizeBody(body), revision := expected + 1);
      if p.revision == desired.revision && MutableEqual(p, desired) {
        r := Receive(p, true);
        return;
      }
      if p.revision != expected { return Refused(Conflict); }
      r := StoreVersion(desired.(updatedAt := now), expected);
    }

    /** Pause and resume. */
    method ChangeStatus(owner: Owner, id: string, expected: int, status: PlanStatus, now: Instant) returns (r: Receipt)
      requires Valid() && (status == Paused || status == PlanStatus.Enabled)
      modifies this`rows, runs`states
      ensures Valid()
      ensures Effect(rows, runs.states, r)
              == Mutated(proj, old(rows), old(runs.states), Mutation.ChangeStatus(owner, id, expected, status), now)
    {
      if expected < 1 { return Refused(Invalid); }
      var current := Find(rows, owner, id);
      if current.None? || current.value.status == Deleted { return Refused(NotFound); }
      var p := current.value;
      if p.revision == expected + 1 && p.status == status {
        r := Receive(p, true);
        return;
      }
      if p.revision != expected { return Refused(Conflict); }
      if p.status == status { return Done(p, true); }
      if status == Paused && p.status != PlanStatus.Enabled { return Refused(Conflict); }
      if status == PlanStatus.Enabled && p.status != Paused && p.status != Disabled { return Refused(Conflict); }
      r := StoreVersion(p.(status := status, revision := p.revision + 1, updatedAt := now), p.revision);
    }

    method Delete(owner: Owner, id: string, expected: int, now: Instant) returns (r: Receipt)
      requires Valid()
      modifies this`rows, runs`states
      ensures Valid()
      ensures Effect(rows, runs.states, r)
              == Mutated(proj, old(rows), old(runs.states), Mutation.Delete(owner, id, expected), now)
    {
      if expected < 1 { return Refused(Invalid); }
      var current := Find(rows, owner, id);
      if current.None? { return Refused(NotFound); }
      var p := current.value;
      if p.status == Deleted {
        if p.revision != expected + 1 { return Refused(NotFound); }
        r := Receive(p, true);
        return;
      }
      if p.revision != expected { return Refused(Conflict); }
      r := StoreVersion(p.(status := Deleted, revision := p.revision + 1, updatedAt := now), p.revision);
    }

    /** One page of an owner's plans: with one id more than fits, the next page starts behind the
        last id that does. */
    method List(owner: Owner, status: Option<PlanStatus>, cursor: string, limit: int) returns (r: PlanList)
      requires Valid()
      ensures r.ListRefused? <==> limit < 0 || limit > 100 || status == Some(Deleted)
      ensures r.ListedPage? ==>
        var ids, size := Ids(Listable(rows, owner, status)), PageSize(limit);
        && AllStored(rows, Page(ids, cursor, size))
        && r.items == PlansOf(rows, Page(ids, cursor, size))
        && r.next == if |Following(ids, cursor)| <= size then "" else Following(ids, cursor)[size - 1]
    {
      if limit < 0 || limit > 100 || status == Some(Deleted) { return ListRefused; }
      var size := if limit == 0 then 50 else limit;
      PageWithOneMore(rows, owner, status, cursor, size);
      var ids := SelectIds(Listable(rows, owner, status), cursor, size + 1);
      var next := "";
      if |ids| > size {
        ids := ids[..size];
        next := ids[size - 1];
      }
      var items := ReadPlans(ids);
      return ListedPage(items, next);
    }

    method ReadPlans(ids: seq<string>) returns (items: seq<Plan>)
      requires AllStored(rows, ids)
      ensures items == PlansOf(rows, ids)
    {
      items := [];
      var i := 0;
      while i < |ids|
        invariant 0 <= i <= |ids| && |items| == i
        invariant forall j :: 0 <= j < i ==> items[j] == rows[ids[j]].plan
      {
        items := items + [rows[ids[i]].plan];
        i := i + 1;
      }
    }

    /** Projects the plans in order up to the first that cannot be projected. */
    method ProjectEach(plans: seq<Plan>) returns (ok: bool)
      modifies runs`states
      ensures Hydrated(runs.states, ok) == Hydrate(proj, old(runs.states), plans)
    {
      var i := 0;
      assert plans[0..] == plans;
      while i < |plans|
        invariant i <= |plans| && Hydrate(proj, runs.states, plans[i..]) == Hydrate(proj, old(runs.states), plans)
      {
        assert plans[i..][1..] == plans[i + 1..];
        ok := Project(plans[i]);
        if !ok { return; }
        i := i + 1;
      }
      return true;
    }

    /** Projects every stored plan again, page by page; None when one cannot be projected, with the
        plans before it projected.  The cursor always advances, so the check for that never fails. */
    method HydratePlans() returns (found: Option<bool>)
      requires Valid()
      modifies runs`states
      ensures Hydrated(runs.states, found.Some?) == Hydrate(proj, old(runs.states), StoredPlans(rows))
      ensures found.Some? ==> (found.value <==> rows != map[])
    {
      ghost var start := runs.states;
      StoredBehindStart(rows);
      var any, after := false, "";
      while true
        invariant Hydrate(proj, runs.states, PlansBehind(rows, after)) == Hydrate(proj, start, StoredPlans(rows))
        invariant any || |PlansBehind(rows, after)| == |StoredPlans(rows)|
        invariant any ==> rows != map[]
        decreases |PlansBehind(rows, after)|
      {
        PageThenRest(rows, after, 200);
        var ids := SelectIds(rows.Keys, after, 200);
        var plans := ReadPlans(ids);
        HydrateThen(proj, runs.states, plans, PlansAfterPage(rows, after, 200));
        var ok := ProjectEach(plans);
        if !ok { return None; }
        if |plans| > 0 { any := true; }
        if |plans| < 200 {
          EveryPlanListed(rows);
          return Some(any);
        }
        var next := plans[|plans| - 1].id;
        if AtMost(next, after) { assert false; }
        after := next;
      }
    }
  }

  // ---------- pages of a listing and of a recovery ----------

  /** Asking for one id more than fits tells whether anything follows the page. */
  lemma {:induction false} PageWithOneMore(rows: PlanRows, owner: Owner, status: Option<PlanStatus>, cursor: string, size: nat)
    requires size >= 1
    ensures var ids := Ids(Listable(rows, owner, status));
      var more := Page(ids, cursor, size + 1);
      && (|more| > size <==> |Following(ids, cursor)| > size)
      && Page(ids, cursor, size) == (if |more| > size then more[..size] else more)
      && (|more| > size ==> more[..size][size - 1] == Following(ids, cursor)[size - 1])
      && AllStored(rows, Page(ids, cursor, size))
  {
    IdsAscend(Listable(rows, owner, status));
    var ids := Ids(Listable(rows, owner, status));
    var page := Page(ids, cursor, size);
    var n := FollowingIsSuffix(ids, cursor);
    forall i | 0 <= i < |page| ensures page[i] in rows { assert page[i] == ids[n + i] && ids[n + i] in ids; }
  }

  /** The stored plans behind a cursor. */
  ghost function PlansBehind(rows: PlanRows, after: string): (plans: seq<Plan>)
  {
    BehindIsStored(rows, after);
    PlansOf(rows, Following(Ids(rows.Keys), after))
  }

  /** Those of them that a page leaves for later. */
  ghost function PlansAfterPage(rows: PlanRows, after: string, limit: nat): seq<Plan> {
    var plans := PlansBehind(rows, after);
    if |plans| <= limit then [] else plans[limit..]
  }

  lemma {:induction false} BehindIsStored(rows: PlanRows, after: string)
    ensures AllStored(rows, Following(Ids(rows.Keys), after))
  {
    IdsAscend(rows.Keys);
    var ids := Ids(rows.Keys);
    var n := FollowingIsSuffix(ids, after);
    forall i | 0 <= i < |Following(ids, after)| ensures Following(ids, after)[i] in rows { assert ids[n + i] in ids; }
  }

  lemma {:induction false} StoredBehindStart(rows: PlanRows)
    ensures PlansBehind(rows, "") == StoredPlans(rows)
  {
  }

  /** What is behind a cursor is the page and then the rest; a short page leaves nothing, and a full
      one ends in a cursor that is further on and has the rest behind it. */
  lemma {:induction false} PageThenRest(rows: PlanRows, after: string, limit: nat)
    requires RowsKeyed(rows) && limit >= 1
    ensures var ids := Page(Ids(rows.Keys), after, limit);
      && AllStored(rows, ids) && |ids| <= limit
      && PlansBehind(rows, after) == PlansOf(rows, ids) + PlansAfterPage(rows, after, limit)
      && (|ids| < limit ==> PlansAfterPage(rows, after, limit) == [])
      && (|ids| == limit ==> Less(after, PlansOf(rows, ids)[limit - 1].id)
                             && PlansAfterPage(rows, after, limit) == PlansBehind(rows, PlansOf(rows, ids)[limit - 1].id))
  {
    var all, rest := Ids(rows.Keys), Following(Ids(rows.Keys), after);
    BehindIsStored(rows, after);
    PlansOfSplit(rows, rest, if |rest| <= limit then |rest| else limit);
    if |rest| >= limit {
      IdsAscend(rows.Keys);
      assert rest[limit - 1] in rows;
      CursorAdvances(all, after, limit);
      BehindIsStored(rows, rest[limit - 1]);
    }
  }

  lemma {:induction false} PlansOfSplit(rows: PlanRows, ids: seq<string>, k: nat)
    requires AllStored(rows, ids) && k <= |ids|
    ensures AllStored(rows, ids[..k]) && AllStored(rows, ids[k..])
    ensures PlansOf(rows, ids) == PlansOf(rows, ids[..k]) + PlansOf(rows, ids[k..])
    ensures PlansOf(rows, ids)[k..] == PlansOf(rows, ids[k..])
    ensures k == |ids| ==> ids[..k] == ids
  {
  }

  lemma {:induction false} EveryPlanListed(rows: PlanRows)
    ensures |StoredPlans(rows)| > 0 <==> rows != map[]
  {
    IdsAscend(rows.Keys);
    if |Ids(rows.Keys)| > 0 { assert Ids(rows.Keys)[0] in rows; }
    if rows != map[] {
      var k :| k in rows;
      assert k in Ids(rows.Keys);
    }
  }

  // ---------- recovery as one pass ----------

  datatype Hydrated = Hydrated(states: States, complete: bool)

  /** One pass in order that stops at the first plan that cannot be projected. */
  function Hydrate(proj: Projector, states: States, plans: seq<Plan>): Hydrated
    decreases |plans|
  {
    if |plans| == 0 then Hydrated(states, true) else
      var next := ProjectPlan(proj, states, plans[0]);
      if next.None? then Hydrated(states, false) else Hydrate(proj, next.value, plans[1..])
  }

  lemma {:induction false} HydrateThen(proj: Projector, states: States, a: seq<Plan>, b: seq<Plan>)
    ensures var first := Hydrate(proj, states, a);
      Hydrate(proj, states, a + b) == if first.complete then Hydrate(proj, first.states, b) else first
    decreases |a|
  {
    if |a| == 0 {
      assert a + b == b;
    } else {
      assert (a + b)[1..] == a[1..] + b;
      var next := ProjectPlan(proj, states, a[0]);
      if next.Some? { HydrateThen(proj, next.value, a[1..], b); }
    }
  }

  /** A complete pass is what projecting all plans gives; it is incomplete exactly when that fails. */
  lemma {:induction false} HydrateProjectsAll(proj: Projector, states: States, plans: seq<Plan>)
    ensures var pass := Hydrate(proj, states, plans);
      ProjectAll(proj, states, plans) == if pass.complete then Some(pass.states) else None
  {
    if |plans| > 0 {
      var init, last := plans[..|plans| - 1], plans[|plans| - 1];
      HydrateProjectsAll(proj, states, init);
      HydrateThen(proj, states, init, [last]);
      assert init + [last] == plans;
    }
  }

  /** So a service that recovers leaves every stored plan its row, or stops at one that has none. */
  lemma {:induction false} HydrationRecovers(proj: Projector, rows: PlanRows, states: States)
    requires RowsKeyed(rows)
    ensures var pass, plans := Hydrate(proj, states, StoredPlans(rows)), StoredPlans(rows);
      && (pass.complete <==> !SomeUnprojectable(proj, states, plans))
      && (pass.complete ==> Recovered(proj, states, pass.states, plans) && Hydrate(proj, pass.states, plans) == pass)
  {
    var plans := StoredPlans(rows);
    StoredPlansDistinct(rows);
    HydrateProjectsAll(proj, states, plans);
    RecoveryRestores(proj, states, plans);
    var pass := Hydrate(proj, states, plans);
    if pass.complete {
      RecoveringTwice(proj, states, plans);
      HydrateProjectsAll(proj, pass.states, plans);
    }
  }
}
