/** Scheduled plans: the stored rows, the management operations on them, and how they normalise
    what a caller sends. */
module Plans {
  import opened TextOrder
  import opened Options
  import opened StoredTime
  import opened RunTables

  // ---------- plans ----------

  datatype Owner = Owner(workspace: string, user: string, product: string)

  datatype Kind = Once | Recurring | OtherKind

  datatype Policy = Policy(misfire: string, grace: int, maxAttempts: int, retryInitial: int, retryMax: int, timeout: int)

  datatype Trigger = Trigger(kind: Kind, at: Option<Instant>, schedule: Option<Schedule>, policy: Policy)

  datatype Body = Body(name: string, timezone: string, trigger: Trigger, input: string, actions: seq<string>, target: string, conversation: string)

  datatype PlanStatus = Enabled | Disabled | Paused | Deleted

  datatype Plan = Plan(id: string, owner: Owner, body: Body, status: PlanStatus, revision: int, createdAt: Instant, updatedAt: Instant)

  datatype PlanRow = PlanRow(plan: Plan, client: string, request: Body, requestStatus: PlanStatus)

  type PlanRows = map<string, PlanRow>

  // ---------- normalisation ----------

  const MINUTE: int := 60 * SECOND

  function NormalizePolicy(kind: Kind, p: Policy): Policy {
    Policy(if p.misfire != "" then p.misfire else if kind == Once then "catch_up_one" else "skip",
           if p.grace == 0 then MINUTE else p.grace,
           if p.maxAttempts == 0 then 3 else p.maxAttempts,
           if p.retryInitial == 0 then 30 * SECOND else p.retryInitial,
           if p.retryMax == 0 then 15 * MINUTE else p.retryMax,
           if p.timeout == 0 then 5 * MINUTE else p.timeout)
  }

  function SortActions(actions: seq<string>): seq<string> {
    SortBy(Itself, actions)
  }

  function NormalizeBody(b: Body): Body {
    b.(actions := SortActions(b.actions),
       trigger := b.trigger.(policy := NormalizePolicy(b.trigger.kind, b.trigger.policy)))
  }

  /** Normalising is idempotent, and the order in which actions are listed does not survive it. */
  lemma {:induction false} NormalizeSettles(b: Body, c: Body)
    ensures NormalizeBody(NormalizeBody(b)) == NormalizeBody(b)
    ensures multiset(b.actions) == multiset(c.actions) && b.(actions := []) == c.(actions := []) ==> NormalizeBody(b) == NormalizeBody(c)
  {
    SortBySorts(Itself, b.actions);
    assert forall i, j :: 0 <= i < |b.actions| && 0 <= j < |b.actions| && Itself(b.actions[i]) == Itself(b.actions[j]) ==> b.actions[i] == b.actions[j];
    SortForgetsOrder(Itself, b.actions, SortActions(b.actions));
    assert SortActions(SortActions(b.actions)) == SortActions(b.actions);
    if multiset(b.actions) == multiset(c.actions) && b.(actions := []) == c.(actions := []) {
      SortForgetsOrder(Itself, b.actions, c.actions);
      assert c == b.(actions := c.actions);
    }
  }

  // ---------- the store's two writes ----------

  /** A row is visible to its owner only. */
  function Find(rows: PlanRows, owner: Owner, id: string): Option<Plan> {
    if id in rows && rows[id].plan.owner == owner then Some(rows[id].plan) else None
  }

  function InsertOrKeep(rows: PlanRows, row: PlanRow): PlanRows {
    if row.plan.id in rows then rows else rows[row.plan.id := row]
  }

  predicate CasAdmits(rows: PlanRows, desired: Plan, expected: int) {
    Find(rows, desired.owner, desired.id).Some? && rows[desired.id].plan.revision == expected
  }

  /** The whole mutable state, under the expected revision; identity and creation time stay. */
  function Replace(rows: PlanRows, desired: Plan, expected: int): PlanRows {
    if !CasAdmits(rows, desired, expected) then rows else
      var row := rows[desired.id];
      rows[desired.id := row.(plan := row.plan.(body := desired.body, status := desired.status, revision := desired.revision,
                                                 updatedAt := desired.updatedAt))]
  }

  // ---------- management operations ----------

  datatype Mutation =
    | Update(owner: Owner, id: string, expected: int, body: Body)
    | ChangeStatus(owner: Owner, id: string, expected: int, status: PlanStatus)
    | Delete(owner: Owner, id: string, expected: int)

  datatype PlanError = Invalid | NotFound | Conflict

  /** What an operation decides from the plan it read: refuse, report the stored plan as a replay
      (projecting it again or not), or store a next revision. */
  datatype Decision = Refuse(error: PlanError) | ReplayOf(plan: Plan) | Unchanged(plan: Plan) | Store(desired: Plan)

  predicate MutableEqual(a: Plan, b: Plan) {
    a.body == b.body && a.status == b.status
  }

  function Decide(current: Option<Plan>, m: Mutation, now: Instant): Decision {
    if m.expected < 1 then Refuse(Invalid)
    else if current.None? then Refuse(NotFound)
    else
      var p := current.value;
      match m
      case Update(_, _, expected, body) =>
        var desired := p.(body := NormalizeBody(body), revision := expected + 1);
        if p.status == Deleted then Refuse(NotFound)
        else if p.revision == desired.revision && MutableEqual(p, desired) then ReplayOf(p)
        else if p.revision != expected then Refuse(Conflict)
        else Store(desired.(updatedAt := now))
      case ChangeStatus(_, _, expected, status) =>
        if p.status == Deleted then Refuse(NotFound)
        else if p.revision == expected + 1 && p.status == status then ReplayOf(p)
        else if p.revision != expected then Refuse(Conflict)
        else if p.status == status then Unchanged(p)
        else if status == Paused && p.status != Enabled then Refuse(Conflict)
        else if status == Enabled && p.status != Paused && p.status != Disabled then Refuse(Conflict)
        else Store(p.(status := status, revision := p.revision + 1, updatedAt := now))
      case Delete(_, _, expected) =>
        if p.status == Deleted then (if p.revision == expected + 1 then ReplayOf(p) else Refuse(NotFound))
        else if p.revision != expected then Refuse(Conflict)
        else Store(p.(status := Deleted, revision := p.revision + 1, updatedAt := now))
  }

  /** Only pause and resume change a status. */
  predicate Wellformed(m: Mutation) {
    m.ChangeStatus? ==> m.status == Paused || m.status == Enabled
  }

  /** A stored mutation moves the plan to the next revision and keeps who and when it was created. */
  lemma {:induction false} StoreIsNextRevision(p: Plan, m: Mutation, now: Instant)
    requires Decide(Some(p), m, now).Store? && Wellformed(m)
    ensures var d := Decide(Some(p), m, now).desired;
      && d.revision == p.revision + 1 == m.expected + 1 && p.status != Deleted
      && d.id == p.id && d.owner == p.owner && d.createdAt == p.createdAt
      && (d.status == Deleted <==> m.Delete?)
  {
  }

  /** Repeating a stored mutation, with nothing in between, stores nothing and reports the stored
      plan, whenever it is repeated. */
  lemma {:induction false} RepeatIsReplay(rows: PlanRows, m: Mutation, now: Instant, later: Instant)
    requires Wellformed(m) && Decide(Find(rows, m.owner, m.id), m, now).Store?
    requires m.id in rows ==> rows[m.id].plan.id == m.id
    ensures var desired := Decide(Find(rows, m.owner, m.id), m, now).desired;
      var after := Replace(rows, desired, m.expected);
      && CasAdmits(rows, desired, m.expected)
      && Find(after, m.owner, m.id) == Some(desired)
      && Decide(Find(after, m.owner, m.id), m, later) == ReplayOf(desired)
  {
  }

  // ---------- creation ----------

  function NewRow(id: string, owner: Owner, client: string, body: Body, status: PlanStatus, now: Instant): PlanRow {
    PlanRow(Plan(id, owner, NormalizeBody(body), status, 1, now, now), client, NormalizeBody(body), status)
  }

  datatype Created = CreatedPlan(plan: Plan, replay: bool) | CreateRefused(error: PlanError)

  /** The request digest is that of the normalised request, so it compares as the request does. */
  function CreateOutcome(rows: PlanRows, row: PlanRow): Created {
    var stored := InsertOrKeep(rows, row)[row.plan.id];
    if stored.plan.owner != row.plan.owner then CreateRefused(NotFound)
    else if stored.client != row.client || stored.request != row.request || stored.requestStatus != row.requestStatus then CreateRefused(Conflict)
    else CreatedPlan(stored.plan, row.plan.id in rows)
  }

  /** A create on a known id changes nothing, whatever has happened to the plan since: it reports
      the plan as it now is, deleted included, or refuses. */
  lemma {:induction false} CreateNeverRevives(rows: PlanRows, row: PlanRow)
    requires row.plan.id in rows
    ensures InsertOrKeep(rows, row) == rows
    ensures match CreateOutcome(rows, row)
      case CreatedPlan(plan, replay) => replay && plan == rows[row.plan.id].plan
      case CreateRefused(_) => true
  {
  }
}
