/** Scheduled plans as execution rows: how a plan is projected, and what projecting every stored
    plan again restores. */
module PlanProjection {
  import opened Options
  import opened StoredTime
  import opened RunTables
  import opened Projection
  import opened Plans

  // ---------- revisions and keys as text ----------

  function Decimal(n: int): string
    decreases if n < 0 then 1 - n else n
  {
    if n < 0 then "-" + Decimal(-n) else if n < 10 then [Digit(n)] else Decimal(n / 10) + [Digit(n % 10)]
  }

  lemma {:induction false} DecimalRead(n: nat)
    ensures AllDigits(Decimal(n)) && Number(Decimal(n)) == n && |Decimal(n)| > 0
  {
    if n >= 10 {
      DecimalRead(n / 10);
      var s := Decimal(n / 10);
      assert Decimal(n)[..|s|] == s && Decimal(n)[|s|] == Digit(n % 10);
    } else {
      assert Decimal(n)[..0] == "";
    }
  }

  /** Two revisions have one text only if they are one revision. */
  lemma {:induction false} DecimalInjective(m: nat, n: nat)
    ensures Decimal(m) == Decimal(n) ==> m == n
  {
    DecimalRead(m);
    DecimalRead(n);
  }

  function PlanKey(id: string): string {
    "scheduled-plan:" + id
  }

  lemma {:induction false} PlanKeyInjective(a: string, b: string)
    ensures PlanKey(a) == PlanKey(b) ==> a == b
  {
    assert PlanKey(a)[15..] == a && PlanKey(b)[15..] == b;
  }

  // ---------- projecting one plan ----------

  /** The calendar, and how the rest of a plan is written into a definition. */
  datatype Projector = Projector(cal: Calendar, text: Plan -> string)

  function Anchor(p: Plan): Instant {
    if p.revision > 1 && p.updatedAt != 0 then p.updatedAt else p.createdAt
  }

  /** The schedule and first cursor of a plan; None when its trigger does not say when. */
  function PlanSchedule(cal: Calendar, p: Plan): Option<(Schedule, Instant)> {
    match p.body.trigger.kind
    case Once => if p.body.trigger.at.None? then None
                 else Some((Schedule(true, FormatTime(p.body.trigger.at.value)), p.body.trigger.at.value))
    case Recurring => if p.body.trigger.schedule.None? then None
                      else Some((p.body.trigger.schedule.value, cal.next(p.body.trigger.schedule.value, Anchor(p))))
    case OtherKind => None
  }

  function PlanDefinition(proj: Projector, p: Plan, schedule: Schedule): Definition {
    Definition(PlanKey(p.id), Decimal(p.revision), p.status.Enabled?, schedule,
               NormalizePolicy(p.body.trigger.kind, p.body.trigger.policy).maxAttempts, 0, proj.text(p))
  }

  /** The definition a plan is projected as, and the first cursor it would get. */
  function DefinitionOf(proj: Projector, p: Plan): Definition
    requires PlanSchedule(proj.cal, p).Some?
  {
    PlanDefinition(proj, p, PlanSchedule(proj.cal, p).value.0)
  }

  function FirstRunOf(proj: Projector, p: Plan): Instant
    requires PlanSchedule(proj.cal, p).Some?
  {
    PlanSchedule(proj.cal, p).value.1
  }

  function ProjectPlan(proj: Projector, states: States, p: Plan): Option<States> {
    var s := PlanSchedule(proj.cal, p);
    if s.None? then None
    else Reconcile(states, PlanDefinition(proj, p, s.value.0), s.value.1, ScheduledPlan, p.status.Enabled?)
  }

  function ProjectAll(proj: Projector, states: States, plans: seq<Plan>): Option<States> {
    if |plans| == 0 then Some(states) else
      var before := ProjectAll(proj, states, plans[..|plans| - 1]);
      if before.None? then None else ProjectPlan(proj, before.value, plans[|plans| - 1])
  }

  // ---------- what recovery restores ----------

  ghost predicate DistinctPlans(plans: seq<Plan>) {
    forall i, j :: 0 <= i < j < |plans| ==> plans[i].id != plans[j].id
  }

  predicate Unprojectable(proj: Projector, states: States, p: Plan) {
    PlanSchedule(proj.cal, p).None? || (PlanKey(p.id) in states && states[PlanKey(p.id)].source != ScheduledPlan)
  }

  /** A plan's row after recovery.  At the stored revision only its definition is refreshed, and the
      row is enabled only if it was; otherwise the row is as the plan says. */
  function RecoveredRow(proj: Projector, before: States, p: Plan): DefState
    requires !Unprojectable(proj, before, p)
  {
    var s := PlanSchedule(proj.cal, p).value;
    var d := PlanDefinition(proj, p, s.0);
    if d.key !in before then DefState(ScheduledPlan, d.revision, d.enabled, d, s.1, None, "", 0)
    else if before[d.key].revision != d.revision
    then before[d.key].(revision := d.revision, enabled := d.enabled, definition := d, nextRun := s.1)
    else before[d.key].(definition := d, enabled := before[d.key].enabled && d.enabled)
  }

  ghost predicate HasPlan(plans: seq<Plan>, key: string) {
    exists i :: 0 <= i < |plans| && PlanKey(plans[i].id) == key
  }

  ghost predicate SomeUnprojectable(proj: Projector, states: States, plans: seq<Plan>) {
    exists i :: 0 <= i < |plans| && Unprojectable(proj, states, plans[i])
  }

  predicate HasItsRow(proj: Projector, before: States, after: States, p: Plan) {
    && !Unprojectable(proj, before, p)
    && PlanKey(p.id) in after && after[PlanKey(p.id)] == RecoveredRow(proj, before, p)
  }

  ghost predicate Recovered(proj: Projector, before: States, after: States, plans: seq<Plan>) {
    && !SomeUnprojectable(proj, before, plans)
    && (forall i :: 0 <= i < |plans| ==> HasItsRow(proj, before, after, plans[i]))
    && (forall key :: key in before && !HasPlan(plans, key) ==> key in after && after[key] == before[key])
    && (forall key :: key in after ==> key in before || HasPlan(plans, key))
  }

  lemma {:induction false} OnePlan(proj: Projector, states: States, p: Plan)
    ensures ProjectPlan(proj, states, p).None? <==> Unprojectable(proj, states, p)
    ensures !Unprojectable(proj, states, p) ==>
      ProjectPlan(proj, states, p) == Some(states[PlanKey(p.id) := RecoveredRow(proj, states, p)])
  {
  }

  lemma {:induction false} HasPlanStep(plans: seq<Plan>, key: string)
    requires |plans| > 0
    ensures HasPlan(plans, key) <==> HasPlan(plans[..|plans| - 1], key) || PlanKey(plans[|plans| - 1].id) == key
  {
    var init := plans[..|plans| - 1];
    if HasPlan(init, key) {
      var i :| 0 <= i < |init| && PlanKey(init[i].id) == key;
      assert PlanKey(plans[i].id) == key;
    }
    if HasPlan(plans, key) {
      var i :| 0 <= i < |plans| && PlanKey(plans[i].id) == key;
      if i < |init| { assert PlanKey(init[i].id) == key; }
    }
  }

  lemma {:induction false} UnprojectableStep(proj: Projector, states: States, plans: seq<Plan>)
    requires |plans| > 0
    ensures SomeUnprojectable(proj, states, plans)
            <==> SomeUnprojectable(proj, states, plans[..|plans| - 1]) || Unprojectable(proj, states, plans[|plans| - 1])
  {
    var init := plans[..|plans| - 1];
    if SomeUnprojectable(proj, states, init) {
      var i :| 0 <= i < |init| && Unprojectable(proj, states, init[i]);
      assert Unprojectable(proj, states, plans[i]);
    }
    if SomeUnprojectable(proj, states, plans) {
      var i :| 0 <= i < |plans| && Unprojectable(proj, states, plans[i]);
      if i < |init| { assert Unprojectable(proj, states, init[i]); }
    }
  }

  /** Whatever rows were there, lost, stale or projected out of order, projecting every plan fails
      exactly when some plan cannot be projected, and otherwise leaves each plan its row. */
  lemma {:induction false} RecoveryRestores(proj: Projector, states: States, plans: seq<Plan>)
    requires DistinctPlans(plans)
    ensures var after := ProjectAll(proj, states, plans);
      && (after.None? <==> SomeUnprojectable(proj, states, plans))
      && (after.Some? ==> Recovered(proj, states, after.value, plans))
  {
    if |plans| > 0 {
      var init, p := plans[..|plans| - 1], plans[|plans| - 1];
      RecoveryRestores(proj, states, init);
      UnprojectableStep(proj, states, plans);
      var before := ProjectAll(proj, states, init);
      if before.Some? { RecoverOneMore(proj, states, before.value, plans); }
    }
  }

  lemma {:induction false} RecoverOneMore(proj: Projector, states: States, mid: States, plans: seq<Plan>)
    requires |plans| > 0 && DistinctPlans(plans) && Recovered(proj, states, mid, plans[..|plans| - 1])
    ensures var p := plans[|plans| - 1];
      && (Unprojectable(proj, mid, p) <==> Unprojectable(proj, states, p))
      && (!Unprojectable(proj, mid, p) ==>
            ProjectPlan(proj, mid, p).Some? && Recovered(proj, states, ProjectPlan(proj, mid, p).value, plans))
  {
    var init, p := plans[..|plans| - 1], plans[|plans| - 1];
    var key := PlanKey(p.id);
    forall i | 0 <= i < |init| ensures PlanKey(init[i].id) != key {
      assert plans[i].id != p.id;
      PlanKeyInjective(init[i].id, p.id);
    }
    assert !HasPlan(init, key);
    assert key in mid <==> key in states;
    OnePlan(proj, mid, p);
    if !Unprojectable(proj, mid, p) {
      var after := ProjectPlan(proj, mid, p).value;
      UnprojectableStep(proj, states, plans);
      forall i | 0 <= i < |plans|
        ensures HasItsRow(proj, states, after, plans[i])
      {
        if i < |init| { assert init[i] == plans[i] && HasItsRow(proj, states, mid, init[i]); }
      }
      forall k ensures HasPlan(plans, k) <==> HasPlan(init, k) || key == k { HasPlanStep(plans, k); }
    }
  }

  /** Afterwards every plan's row is at the plan's revision and enabled only if the plan is; a row
      that was at that revision keeps its cursor, and a spent one stays spent. */
  lemma {:induction false} RecoveryNeverOverclaims(proj: Projector, states: States, plans: seq<Plan>, i: nat)
    requires DistinctPlans(plans) && i < |plans| && ProjectAll(proj, states, plans).Some?
    ensures var p, key, after := plans[i], PlanKey(plans[i].id), ProjectAll(proj, states, plans).value;
      && key in after && after[key].revision == Decimal(p.revision) && after[key].source == ScheduledPlan
      && after[key].definition.revision == Decimal(p.revision)
      && (after[key].enabled ==> p.status.Enabled?)
      && (key in states && states[key].revision == Decimal(p.revision) ==>
            after[key].nextRun == states[key].nextRun && (after[key].enabled <==> states[key].enabled && p.status.Enabled?))
      && (key !in states || states[key].revision != Decimal(p.revision) ==> (after[key].enabled <==> p.status.Enabled?))
  {
    RecoveryRestores(proj, states, plans);
    assert HasItsRow(proj, states, ProjectAll(proj, states, plans).value, plans[i]);
  }

  lemma {:induction false} RecoveredRowSettles(proj: Projector, before: States, after: States, p: Plan)
    requires HasItsRow(proj, before, after, p)
    ensures HasItsRow(proj, after, after, p)
  {
  }

  lemma {:induction false} ProjectedAgain(proj: Projector, before: States, once: States, plans: seq<Plan>)
    requires Recovered(proj, before, once, plans)
    ensures !SomeUnprojectable(proj, once, plans)
    ensures forall i :: 0 <= i < |plans| ==> HasItsRow(proj, once, once, plans[i])
  {
    forall i | 0 <= i < |plans| ensures HasItsRow(proj, once, once, plans[i]) {
      assert HasItsRow(proj, before, once, plans[i]);
      RecoveredRowSettles(proj, before, once, plans[i]);
    }
  }

  lemma {:induction false} RecoveredFromItself(proj: Projector, once: States, twice: States, plans: seq<Plan>)
    requires Recovered(proj, once, twice, plans)
    requires forall i :: 0 <= i < |plans| ==> HasItsRow(proj, once, once, plans[i])
    ensures twice == once
  {
    forall key ensures (key in twice <==> key in once) && (key in once ==> twice[key] == once[key]) {
      if HasPlan(plans, key) {
        var i :| 0 <= i < |plans| && PlanKey(plans[i].id) == key;
        assert HasItsRow(proj, once, once, plans[i]) && HasItsRow(proj, once, twice, plans[i]);
      }
    }
  }

  /** Recovering again, on a recovered projection, changes nothing. */
  lemma {:induction false} RecoveringTwice(proj: Projector, states: States, plans: seq<Plan>)
    requires DistinctPlans(plans) && ProjectAll(proj, states, plans).Some?
    ensures ProjectAll(proj, ProjectAll(proj, states, plans).value, plans) == ProjectAll(proj, states, plans)
  {
    RecoveryRestores(proj, states, plans);
    var once := ProjectAll(proj, states, plans).value;
    ProjectedAgain(proj, states, once, plans);
    RecoveryRestores(proj, once, plans);
    RecoveredFromItself(proj, once, ProjectAll(proj, once, plans).value, plans);
  }

  /** Two projections of one plan, one after the other: the row is that of whichever comes last, so an
      older revision landing late brings its row back, enabled if it was, until the plan is recovered.
      Projections that overlap are another matter: see `PlanOverlaps`. */
  lemma {:induction false} LateProjectionWins(proj: Projector, states: States, older: Plan, newer: Plan)
    requires older.id == newer.id && 1 <= older.revision < newer.revision
    requires !Unprojectable(proj, states, older) && !Unprojectable(proj, states, newer)
    ensures var key := PlanKey(older.id);
      var mid := ProjectPlan(proj, states, newer);
      && mid.Some? && ProjectPlan(proj, mid.value, older).Some?
      && var late := ProjectPlan(proj, mid.value, older).value;
      && key in late && late[key].revision == Decimal(older.revision)
      && (late[key].enabled <==> older.status.Enabled?)
      && ProjectPlan(proj, late, newer).Some?
      && var recovered := ProjectPlan(proj, late, newer).value[key];
      && recovered.revision == Decimal(newer.revision) && (recovered.enabled <==> newer.status.Enabled?)
  {
    OnePlan(proj, states, newer);
    var mid := ProjectPlan(proj, states, newer).value;
    OnePlan(proj, mid, older);
    DecimalInjective(older.revision, newer.revision);
    OnePlan(proj, ProjectPlan(proj, mid, older).value, newer);
  }
}
