/** When projections of one plan overlap: exactly when an execution row stays true to the plan
    version whose revision it carries, and a run in which it does not. */
module PlanOverlaps {
  import opened Options
  import opened StoredTime
  import RunTables
  import opened Projection
  import opened Plans
  import opened PlanProjection
  import opened PlanRaces

  type States = RunTables.States

  // ---------- a row that is true to its revision ----------

  /** The row of a version: its revision, its definition, and enabled as it is unless spent since. */
  predicate Holds(proj: Projector, row: RunTables.DefState, p: Plan, spent: bool) {
    && row.revision == Decimal(p.revision) && Defines(proj, row, p)
    && (row.enabled <==> p.status.Enabled? && !spent)
  }

  ghost predicate Faithful(proj: Projector, w: World, id: string) {
    IsPlanRow(w.states, id) ==>
      id in w.versions && exists k :: 0 <= k < |w.versions[id]| && Holds(proj, w.states[PlanKey(id)], w.versions[id][k], PlanKey(id) in w.spent)
  }

  /** A projection that found no row of another revision at first, and now refreshes one. */
  predicate Overlaps(proj: Projector, w: World, act: Act, id: string) {
    && act.Advance? && act.caller in w.callers
    && (w.callers[act.caller].Refreshing? || w.callers[act.caller].RefreshingAgain?)
    && w.callers[act.caller].plan.id == id
    && IsPlanRow(w.states, id) && w.states[PlanKey(id)].revision != Decimal(w.callers[act.caller].plan.revision)
  }

  // ---------- one step ----------

  /** Nothing about the row, and no version of its plan, has gone. */
  lemma {:induction false} UntouchedRow(proj: Projector, w: World, w': World, id: string)
    requires Extends(w.versions, w'.versions)
    requires IsPlanRow(w'.states, id) <==> IsPlanRow(w.states, id)
    requires IsPlanRow(w.states, id) ==> id in w.versions && w'.states[PlanKey(id)] == w.states[PlanKey(id)]
    requires PlanKey(id) in w'.spent <==> PlanKey(id) in w.spent
    requires Faithful(proj, w, id)
    ensures Faithful(proj, w', id)
  {
    if IsPlanRow(w.states, id) {
      var k :| 0 <= k < |w.versions[id]| && Holds(proj, w.states[PlanKey(id)], w.versions[id][k], PlanKey(id) in w.spent);
      assert w.versions[id] <= w'.versions[id];
      assert Holds(proj, w'.states[PlanKey(id)], w'.versions[id][k], PlanKey(id) in w'.spent);
    }
  }

  lemma {:induction false} WrittenIsFaithful(proj: Projector, w: World, t: nat, now: Instant)
    requires Inv(proj, w) && t in w.callers && (w.callers[t].Projecting? || w.callers[t].Inserting?)
    requires Progress(proj, w, t, now).callers[t].Answered?
    ensures Faithful(proj, Progress(proj, w, t, now), w.callers[t].plan.id)
  {
    var p, w' := w.callers[t].plan, Progress(proj, w, t, now);
    assert CallerOk(proj, w.versions, w.callers[t]);
    assert Holds(proj, w'.states[PlanKey(p.id)], w'.versions[p.id][p.revision - 1], PlanKey(p.id) in w'.spent);
  }

  lemma {:induction false} RefreshIsFaithfulExactly(proj: Projector, w: World, w': World, p: Plan)
    requires Inv(proj, w) && IsVersion(w.versions, p) && Refreshed(proj, w.states, p).Some? && Faithful(proj, w, p.id)
    requires w'.states == Refreshed(proj, w.states, p).value && w'.versions == w.versions && w'.spent == w.spent
    ensures Faithful(proj, w', p.id) <==> w.states[PlanKey(p.id)].revision == Decimal(p.revision)
  {
    var key, vs := PlanKey(p.id), w.versions[p.id];
    assert w'.states[key].definition.revision == Decimal(p.revision);
    if w.states[key].revision == Decimal(p.revision) {
      var k :| 0 <= k < |vs| && Holds(proj, w.states[key], vs[k], key in w.spent);
      assert StoredOk(w, p.id);
      DecimalInjective(vs[k].revision, p.revision);
      assert Holds(proj, w'.states[key], vs[p.revision - 1], key in w'.spent);
    }
  }

  /** A statement that matches nothing, or is of another plan, leaves the row alone. */
  lemma {:induction false} OtherStatementFaithful(proj: Projector, w: World, t: nat, now: Instant, id: string)
    requires Inv(proj, w) && Faithful(proj, w, id) && t in w.callers && InProjection(w.callers[t])
    requires w.callers[t].plan.id != id || !Progress(proj, w, t, now).callers[t].Answered?
    ensures Faithful(proj, Progress(proj, w, t, now), id)
  {
    PlanKeyInjective(w.callers[t].plan.id, id);
    assert RowFromVersion(proj, w.versions, w.states, id);
    var w' := Progress(proj, w, t, now);
    assert w'.versions == w.versions;
    assert PlanKey(id) in w'.states <==> PlanKey(id) in w.states;
    assert PlanKey(id) in w.states ==> w'.states[PlanKey(id)] == w.states[PlanKey(id)];
    UntouchedRow(proj, w, w', id);
  }

  lemma {:induction false} ProjectionStepFaithful(proj: Projector, w: World, t: nat, now: Instant, id: string)
    requires Inv(proj, w) && Faithful(proj, w, id) && t in w.callers && InProjection(w.callers[t])
    ensures Faithful(proj, Progress(proj, w, t, now), id) <==> !Overlaps(proj, w, Advance(t, now), id)
  {
    var c, w' := w.callers[t], Progress(proj, w, t, now);
    assert CallerOk(proj, w.versions, c);
    if c.plan.id != id || !w'.callers[t].Answered? {
      OtherStatementFaithful(proj, w, t, now, id);
      assert !Overlaps(proj, w, Advance(t, now), id);
    } else if c.Projecting? || c.Inserting? {
      WrittenIsFaithful(proj, w, t, now);
    } else {
      RefreshIsFaithfulExactly(proj, w, w', c.plan);
    }
  }

  lemma {:induction false} CursorMoveFaithful(proj: Projector, w: World, act: Act, id: string)
    requires act.MoveCursor? && Faithful(proj, w, id)
    ensures Faithful(proj, Step(proj, w, act), id)
  {
    var w' := Step(proj, w, act);
    if IsPlanRow(w'.states, id) {
      var k :| 0 <= k < |w.versions[id]| && Holds(proj, w.states[PlanKey(id)], w.versions[id][k], PlanKey(id) in w.spent);
      assert Holds(proj, w'.states[PlanKey(id)], w'.versions[id][k], PlanKey(id) in w'.spent);
    }
  }

  lemma {:induction false} QuietStatement(proj: Projector, w: World, t: nat, now: Instant)
    requires t in w.callers && !InProjection(w.callers[t])
    ensures Progress(proj, w, t, now).states == w.states && Progress(proj, w, t, now).spent == w.spent
  {
  }

  lemma {:induction false} QuietFaithful(proj: Projector, w: World, act: Act, id: string)
    requires Inv(proj, w) && Faithful(proj, w, id)
    requires !act.MoveCursor? && (act.Advance? && act.caller in w.callers ==> !InProjection(w.callers[act.caller]))
    ensures Faithful(proj, Step(proj, w, act), id)
  {
    StepInv(proj, w, act);
    assert RowFromVersion(proj, w.versions, w.states, id);
    if act.Advance? && act.caller in w.callers { QuietStatement(proj, w, act.caller, act.now); }
    UntouchedRow(proj, w, Step(proj, w, act), id);
  }

  /** A step keeps a row true to its revision if and only if it is not an overlapping refresh. */
  lemma {:induction false} StepFaithfulExactly(proj: Projector, w: World, act: Act, id: string)
    requires Inv(proj, w) && Faithful(proj, w, id)
    ensures Faithful(proj, Step(proj, w, act), id) <==> !Overlaps(proj, w, act, id)
  {
    if act.Advance? && act.caller in w.callers && InProjection(w.callers[act.caller]) {
      ProjectionStepFaithful(proj, w, act.caller, act.now, id);
    } else if act.MoveCursor? {
      CursorMoveFaithful(proj, w, act, id);
    } else {
      QuietFaithful(proj, w, act, id);
    }
  }

  // ---------- whole runs ----------

  function At(proj: Projector, w: World, acts: seq<Act>, n: nat): World
    requires n <= |acts|
  {
    Run(proj, w, acts[..n])
  }

  lemma {:induction false} AtNext(proj: Projector, w: World, acts: seq<Act>, n: nat)
    requires n < |acts|
    ensures At(proj, w, acts, n + 1) == Step(proj, At(proj, w, acts, n), acts[n])
  {
    assert acts[..n + 1][..n] == acts[..n];
  }

  ghost predicate FaithfulThroughout(proj: Projector, w: World, acts: seq<Act>, id: string) {
    forall n :: 0 <= n <= |acts| ==> Faithful(proj, At(proj, w, acts, n), id)
  }

  ghost predicate NeverOverlaps(proj: Projector, w: World, acts: seq<Act>, id: string) {
    forall n :: 0 <= n < |acts| ==> !Overlaps(proj, At(proj, w, acts, n), acts[n], id)
  }

  lemma {:induction false} FaithfulUpTo(proj: Projector, w: World, acts: seq<Act>, id: string, n: nat)
    requires Inv(proj, w) && Faithful(proj, w, id) && n <= |acts| && NeverOverlaps(proj, w, acts, id)
    ensures Faithful(proj, At(proj, w, acts, n), id)
  {
    if n == 0 {
      assert acts[..0] == [];
    } else {
      FaithfulUpTo(proj, w, acts, id, n - 1);
      RunInv(proj, w, acts[..n - 1]);
      AtNext(proj, w, acts, n - 1);
      StepFaithfulExactly(proj, At(proj, w, acts, n - 1), acts[n - 1], id);
    }
  }

  /** Over any run of any callers, a plan's row is true to its revision at every moment if and only
      if no projection of the plan ever refreshes a row that has meanwhile got another revision. */
  lemma {:induction false} FaithfulThroughoutExactly(proj: Projector, states: States, acts: seq<Act>, id: string)
    requires NoPlanRows(states)
    ensures FaithfulThroughout(proj, Start(states), acts, id) <==> NeverOverlaps(proj, Start(states), acts, id)
  {
    var w := Start(states);
    StartInv(proj, states);
    if NeverOverlaps(proj, w, acts, id) {
      forall n | 0 <= n <= |acts| ensures Faithful(proj, At(proj, w, acts, n), id) { FaithfulUpTo(proj, w, acts, id, n); }
    }
    if FaithfulThroughout(proj, w, acts, id) {
      forall n | 0 <= n < |acts| ensures !Overlaps(proj, At(proj, w, acts, n), acts[n], id) {
        RunInv(proj, w, acts[..n]);
        AtNext(proj, w, acts, n);
        assert Faithful(proj, At(proj, w, acts, n), id) && Faithful(proj, At(proj, w, acts, n + 1), id);
        StepFaithfulExactly(proj, At(proj, w, acts, n), acts[n], id);
      }
    }
  }

  // ---------- rows that go back ----------

  ghost predicate RowAt(states: States, id: string, revision: nat) {
    IsPlanRow(states, id) && states[PlanKey(id)].revision == Decimal(revision)
  }

  /** The first statement of a projection finds the plan's row at a later revision than its own. */
  ghost predicate GoesBack(proj: Projector, w: World, act: Act, id: string) {
    && act.Advance? && act.caller in w.callers && w.callers[act.caller].Projecting? && w.callers[act.caller].plan.id == id
    && PlanSchedule(proj.cal, w.callers[act.caller].plan).Some?
    && exists n: nat :: RowAt(w.states, id, n) && w.callers[act.caller].plan.revision < n
  }

  lemma {:induction false} RevisionWrittenAt(proj: Projector, w: World, t: nat, now: Instant)
    requires Inv(proj, w) && t in w.callers && w.callers[t].Projecting? && PlanSchedule(proj.cal, w.callers[t].plan).Some?
    requires IsPlanRow(w.states, w.callers[t].plan.id)
    ensures w.callers[t].plan.revision >= 1
    ensures RowAt(Progress(proj, w, t, now).states, w.callers[t].plan.id, w.callers[t].plan.revision)
  {
    assert CallerOk(proj, w.versions, w.callers[t]);
  }

  /** Every other step leaves the revision of an existing row as it is. */
  lemma {:induction false} RevisionKept(proj: Projector, w: World, act: Act, id: string)
    requires IsPlanRow(w.states, id)
    requires !(act.Advance? && act.caller in w.callers && w.callers[act.caller].Projecting? && w.callers[act.caller].plan.id == id
               && PlanSchedule(proj.cal, w.callers[act.caller].plan).Some?)
    ensures IsPlanRow(Step(proj, w, act).states, id)
    ensures Step(proj, w, act).states[PlanKey(id)].revision == w.states[PlanKey(id)].revision
  {
    if act.Advance? && act.caller in w.callers {
      if InProjection(w.callers[act.caller]) {
        PlanKeyInjective(w.callers[act.caller].plan.id, id);
      } else {
        QuietStatement(proj, w, act.caller, act.now);
      }
    }
  }

  /** A step takes a row to an earlier revision if and only if it goes back in that sense. */
  lemma {:induction false} StepGoesBackExactly(proj: Projector, w: World, act: Act, id: string, n: nat) returns (m: nat)
    requires Inv(proj, w) && RowAt(w.states, id, n)
    ensures RowAt(Step(proj, w, act).states, id, m)
    ensures m < n <==> GoesBack(proj, w, act, id)
  {
    if act.Advance? && act.caller in w.callers && w.callers[act.caller].Projecting? && w.callers[act.caller].plan.id == id
       && PlanSchedule(proj.cal, w.callers[act.caller].plan).Some? {
      RevisionWrittenAt(proj, w, act.caller, act.now);
      m := w.callers[act.caller].plan.revision;
      forall k: nat | RowAt(w.states, id, k) ensures k == n { DecimalInjective(k, n); }
    } else {
      RevisionKept(proj, w, act, id);
      m := n;
    }
  }

  /** From some moment of a run to a later one the row of a plan goes to an earlier revision. */
  ghost predicate RowLowered(proj: Projector, w: World, acts: seq<Act>, id: string, i: nat, j: nat)
    requires i <= j <= |acts|
  {
    exists n: nat, m: nat :: RowAt(At(proj, w, acts, i).states, id, n) && RowAt(At(proj, w, acts, j).states, id, m) && m < n
  }

  ghost predicate NeverLowered(proj: Projector, w: World, acts: seq<Act>, id: string) {
    forall i, j :: 0 <= i <= j <= |acts| ==> !RowLowered(proj, w, acts, id, i, j)
  }

  ghost predicate NeverGoesBack(proj: Projector, w: World, acts: seq<Act>, id: string) {
    forall n :: 0 <= n < |acts| ==> !GoesBack(proj, At(proj, w, acts, n), acts[n], id)
  }

  lemma {:induction false} RowOnlyRises(proj: Projector, w: World, acts: seq<Act>, id: string, i: nat, j: nat, n: nat) returns (m: nat)
    requires Inv(proj, w) && NeverGoesBack(proj, w, acts, id)
    requires i <= j <= |acts| && RowAt(At(proj, w, acts, i).states, id, n)
    ensures RowAt(At(proj, w, acts, j).states, id, m) && m >= n
    decreases j - i
  {
    if i == j {
      m := n;
    } else {
      m := RowOnlyRises(proj, w, acts, id, i, j - 1, n);
      RunInv(proj, w, acts[..j - 1]);
      AtNext(proj, w, acts, j - 1);
      m := StepGoesBackExactly(proj, At(proj, w, acts, j - 1), acts[j - 1], id, m);
    }
  }

  lemma {:induction false} BackIsLower(proj: Projector, w: World, acts: seq<Act>, id: string, n: nat)
    requires Inv(proj, w) && n < |acts| && GoesBack(proj, At(proj, w, acts, n), acts[n], id)
    ensures RowLowered(proj, w, acts, id, n, n + 1)
  {
    RunInv(proj, w, acts[..n]);
    AtNext(proj, w, acts, n);
    var k: nat :| RowAt(At(proj, w, acts, n).states, id, k);
    var m := StepGoesBackExactly(proj, At(proj, w, acts, n), acts[n], id, k);
  }

  /** Over any run of any callers, the row of a plan is never at an earlier revision than it has been
      if and only if no projection, at its first statement, finds the row at a later revision. */
  lemma {:induction false} NeverLoweredExactly(proj: Projector, states: States, acts: seq<Act>, id: string)
    requires NoPlanRows(states)
    ensures NeverLowered(proj, Start(states), acts, id) <==> NeverGoesBack(proj, Start(states), acts, id)
  {
    var w := Start(states);
    StartInv(proj, states);
    if NeverGoesBack(proj, w, acts, id) {
      forall i, j | 0 <= i <= j <= |acts| ensures !RowLowered(proj, w, acts, id, i, j) {
        forall n: nat, m: nat | RowAt(At(proj, w, acts, i).states, id, n) && RowAt(At(proj, w, acts, j).states, id, m) ensures m >= n {
          var k := RowOnlyRises(proj, w, acts, id, i, j, n);
          DecimalInjective(k, m);
        }
      }
    }
    if NeverLowered(proj, w, acts, id) {
      forall n | 0 <= n < |acts| ensures !GoesBack(proj, At(proj, w, acts, n), acts[n], id) {
        if GoesBack(proj, At(proj, w, acts, n), acts[n], id) { BackIsLower(proj, w, acts, id, n); }
      }
    }
  }

  // ---------- what an overlap takes ----------

  function RevisionAt(states: States, id: string): Option<string> {
    if IsPlanRow(states, id) then Some(states[PlanKey(id)].revision) else None
  }

  /** The first statement of a projection of p, matching no row of another revision. */
  predicate FindsNoOther(proj: Projector, w: World, act: Act, t: nat, p: Plan) {
    && act.Advance? && act.caller == t && t in w.callers && w.callers[t].Projecting? && w.callers[t].plan == p
    && Progress(proj, w, t, act.now).callers[t].Refreshing?
  }

  /** A projection of some other revision of the same plan writes that revision. */
  predicate WritesOther(proj: Projector, w: World, act: Act, p: Plan) {
    && act.Advance? && act.caller in w.callers && (w.callers[act.caller].Projecting? || w.callers[act.caller].Inserting?)
    && w.callers[act.caller].plan.id == p.id
    && Decimal(w.callers[act.caller].plan.revision) != Decimal(p.revision)
    && Progress(proj, w, act.caller, act.now).callers[act.caller].Answered?
  }

  predicate Underway(w: World, t: nat, p: Plan) {
    t in w.callers && (w.callers[t].Refreshing? || w.callers[t].Inserting? || w.callers[t].RefreshingAgain?) && w.callers[t].plan == p
  }

  predicate OnlyMoves(w: World, w': World, u: nat) {
    u in w'.callers && w'.callers == w.callers[u := w'.callers[u]]
  }

  lemma {:induction false} AskMovesOne(proj: Projector, w: World, u: nat, now: Instant)
    requires u in w.callers && w.callers[u].Asking?
    ensures var w' := Progress(proj, w, u, now); OnlyMoves(w, w', u) && !w'.callers[u].Refreshing? && !w'.callers[u].Inserting?
                                                 && !w'.callers[u].RefreshingAgain?
  {
  }

  lemma {:induction false} WriteMovesOne(proj: Projector, w: World, u: nat, now: Instant)
    requires u in w.callers && !w.callers[u].Asking? && !InProjection(w.callers[u])
    ensures var w' := Progress(proj, w, u, now);
      OnlyMoves(w, w', u) && (w' != w ==> !w'.callers[u].Refreshing? && !w'.callers[u].Inserting? && !w'.callers[u].RefreshingAgain?)
  {
  }

  lemma {:induction false} ProjectionMovesOne(proj: Projector, w: World, u: nat, now: Instant)
    requires u in w.callers && InProjection(w.callers[u])
    ensures var w' := Progress(proj, w, u, now);
      OnlyMoves(w, w', u)
      && (Underway(w', u, w.callers[u].plan) || w'.callers[u].Answered? || w'.callers[u].ProjectionFailed?)
      && (Underway(w', u, w.callers[u].plan) && !Underway(w, u, w.callers[u].plan) ==> w.callers[u].Projecting? && w'.callers[u].Refreshing?)
  {
  }

  lemma {:induction false} UnderwaySince(proj: Projector, w: World, act: Act, t: nat, p: Plan)
    requires Underway(Step(proj, w, act), t, p)
    ensures Underway(w, t, p) || FindsNoOther(proj, w, act, t, p)
  {
    if act.Advance? && act.caller in w.callers { AdvanceUnderway(proj, w, act.caller, act.now, t, p); }
  }

  lemma {:induction false} AdvanceUnderway(proj: Projector, w: World, u: nat, now: Instant, t: nat, p: Plan)
    requires u in w.callers && Underway(Progress(proj, w, u, now), t, p)
    ensures Underway(w, t, p) || FindsNoOther(proj, w, Advance(u, now), t, p)
  {
    if w.callers[u].Asking? { AskMovesOne(proj, w, u, now); }
    else if !InProjection(w.callers[u]) { WriteMovesOne(proj, w, u, now); }
    else { ProjectionMovesOne(proj, w, u, now); }
  }

  /** Only a statement that writes a revision changes the revision of a plan's row. */
  lemma {:induction false} RevisionChange(proj: Projector, w: World, act: Act, p: Plan)
    requires var after := RevisionAt(Step(proj, w, act).states, p.id);
      RevisionAt(w.states, p.id) != after && after.Some? && after.value != Decimal(p.revision)
    ensures WritesOther(proj, w, act, p)
  {
    if act.Advance? && act.caller in w.callers {
      if InProjection(w.callers[act.caller]) {
        RevisionStatement(proj, w, act.caller, act.now, p);
      } else {
        QuietStatement(proj, w, act.caller, act.now);
      }
    }
  }

  lemma {:induction false} RevisionStatement(proj: Projector, w: World, u: nat, now: Instant, p: Plan)
    requires u in w.callers && InProjection(w.callers[u])
    requires var after := RevisionAt(Progress(proj, w, u, now).states, p.id);
      RevisionAt(w.states, p.id) != after && after.Some? && after.value != Decimal(p.revision)
    ensures WritesOther(proj, w, Advance(u, now), p)
  {
    PlanKeyInjective(w.callers[u].plan.id, p.id);
  }

  /** A projection under way whose row is at another revision: since its first statement, another
      revision of the plan was written. */
  lemma {:induction false} OtherCameBetween(proj: Projector, w: World, acts: seq<Act>, t: nat, p: Plan, n: nat) returns (i: nat, j: nat)
    requires n <= |acts| && (t in w.callers ==> !InProjection(w.callers[t]))
    requires var v := At(proj, w, acts, n);
      Underway(v, t, p) && RevisionAt(v.states, p.id).Some? && RevisionAt(v.states, p.id).value != Decimal(p.revision)
    ensures i < j < n && FindsNoOther(proj, At(proj, w, acts, i), acts[i], t, p) && WritesOther(proj, At(proj, w, acts, j), acts[j], p)
  {
    assert acts[..0] == [];
    if n == 0 {
      assert false;
    } else {
      var before, act := At(proj, w, acts, n - 1), acts[n - 1];
      AtNext(proj, w, acts, n - 1);
      UnderwaySince(proj, before, act, t, p);
      assert !FindsNoOther(proj, before, act, t, p);
      if RevisionAt(before.states, p.id) == RevisionAt(At(proj, w, acts, n).states, p.id) {
        i, j := OtherCameBetween(proj, w, acts, t, p, n - 1);
      } else {
        RevisionChange(proj, before, act, p);
        i := BeganAt(proj, w, acts, t, p, n - 1);
        j := n - 1;
      }
    }
  }

  lemma {:induction false} BeganAt(proj: Projector, w: World, acts: seq<Act>, t: nat, p: Plan, n: nat) returns (i: nat)
    requires n <= |acts| && (t in w.callers ==> !InProjection(w.callers[t])) && Underway(At(proj, w, acts, n), t, p)
    ensures i < n && FindsNoOther(proj, At(proj, w, acts, i), acts[i], t, p)
  {
    assert acts[..0] == [];
    if n == 0 {
      assert false;
    } else {
      AtNext(proj, w, acts, n - 1);
      UnderwaySince(proj, At(proj, w, acts, n - 1), acts[n - 1], t, p);
      if Underway(At(proj, w, acts, n - 1), t, p) { i := BeganAt(proj, w, acts, t, p, n - 1); } else { i := n - 1; }
    }
  }

  /** An overlap happens only when, between the first statement of a projection and its refresh, a
      projection of another revision commits; without that, rows are true to their revisions. */
  lemma {:induction false} OverlapNeedsAnotherProjection(proj: Projector, states: States, acts: seq<Act>, id: string, n: nat) returns (i: nat, j: nat, p: Plan)
    requires n < |acts| && Overlaps(proj, At(proj, Start(states), acts, n), acts[n], id)
    ensures p.id == id && i < j < n
    ensures FindsNoOther(proj, At(proj, Start(states), acts, i), acts[i], acts[n].caller, p)
    ensures WritesOther(proj, At(proj, Start(states), acts, j), acts[j], p)
  {
    p := At(proj, Start(states), acts, n).callers[acts[n].caller].plan;
    i, j := OtherCameBetween(proj, Start(states), acts, acts[n].caller, p, n);
  }

  // ---------- runs in which rows end up wrong ----------

  /** One more act. */
  lemma {:induction false} Then(proj: Projector, w: World, acts: seq<Act>, v: World, act: Act) returns (acts': seq<Act>, v': World)
    requires v == Run(proj, w, acts)
    ensures acts' == acts + [act] && v' == Step(proj, v, act) && v' == Run(proj, w, acts')
  {
    acts', v' := acts + [act], Step(proj, v, act);
    assert acts'[..|acts'| - 1] == acts;
  }

  function RowOf(proj: Projector, p: Plan): RunTables.DefState
    requires PlanSchedule(proj.cal, p).Some?
  {
    RunTables.DefState(RunTables.ScheduledPlan, Decimal(p.revision), p.status.Enabled?, DefinitionOf(proj, p), FirstRunOf(proj, p), None, "", 0)
  }

  /** A plan just created, stored and not yet projected. */
  predicate JustCreated(w: World, row: PlanRow, c: Phase) {
    && w.rows == map[row.plan.id := row] && w.states == map[] && w.callers == map[0 := c]
    && w.versions == map[row.plan.id := [row.plan]] && w.spent == {}
  }

  lemma {:induction false} Creating(proj: Projector, row: PlanRow) returns (acts: seq<Act>, w: World)
    requires row.plan.revision == 1 && row.plan.status != Deleted
    ensures w == Run(proj, Start(map[]), acts) && JustCreated(w, row, Projecting(row.plan, false))
  {
    var w0 := Start(map[]);
    acts, w := Then(proj, w0, [], w0, Begin(0, Create(row)));
    assert w == To(w0, 0, Asking(Create(row)));
    acts, w := Then(proj, w0, acts, w, Advance(0, 0));
    assert [] + [row.plan] == [row.plan];
    assert JustCreated(w, row, Inserted(row, false));
    assert CreateOutcome(w.rows, row) == CreatedPlan(row.plan, true);
    acts, w := Then(proj, w0, acts, w, Advance(0, 0));
    assert w.callers == map[0 := Projecting(row.plan, false)];
  }

  lemma {:induction false} Deciding(proj: Projector, acts0: seq<Act>, v: World, t: nat, p: Plan, status: PlanStatus)
    returns (acts: seq<Act>, w: World, d: Plan)
    requires v == Run(proj, Start(map[]), acts0) && t !in v.callers
    requires p.id in v.rows && v.rows[p.id].plan == p && p.revision >= 1
    requires (status == Paused && p.status.Enabled?) || (status.Enabled? && p.status == Disabled)
    ensures d == p.(status := status, revision := p.revision + 1, updatedAt := 0)
    ensures w == Run(proj, Start(map[]), acts) && w == To(v, t, Replacing(ChangeStatus(p.owner, p.id, p.revision, status), d))
  {
    var w0, m := Start(map[]), ChangeStatus(p.owner, p.id, p.revision, status);
    d := p.(status := status, revision := p.revision + 1, updatedAt := 0);
    acts, w := Then(proj, w0, acts0, v, Begin(t, Mutate(m)));
    assert w == To(v, t, Asking(Mutate(m))) && Decide(Find(w.rows, m.owner, m.id), m, 0) == Store(d);
    acts, w := Then(proj, w0, acts, w, Advance(t, 0));
  }

  /** A status change that nobody disturbs, up to where its projection begins. */
  lemma {:induction false} Changing(proj: Projector, acts0: seq<Act>, v: World, t: nat, p: Plan, status: PlanStatus)
    returns (acts: seq<Act>, w: World, d: Plan)
    requires v == Run(proj, Start(map[]), acts0) && t !in v.callers
    requires p.id in v.rows && v.rows[p.id].plan == p && p.revision >= 1
    requires p.id in v.versions
    requires (status == Paused && p.status.Enabled?) || (status.Enabled? && p.status == Disabled)
    ensures w == Run(proj, Start(map[]), acts) && d == p.(status := status, revision := p.revision + 1, updatedAt := 0)
    ensures w.callers == v.callers[t := Projecting(d, false)] && w.states == v.states && w.spent == v.spent
    ensures p.id in w.rows && w.rows[p.id].plan == d && w.versions == v.versions[p.id := v.versions[p.id] + [d]]
  {
    var w0, m := Start(map[]), ChangeStatus(p.owner, p.id, p.revision, status);
    acts, w, d := Deciding(proj, acts0, v, t, p, status);
    acts, w := Then(proj, w0, acts, w, Advance(t, 0));
    assert w.callers == v.callers[t := Replaced(m)] && Find(w.rows, m.owner, m.id) == Some(d);
    acts, w := Then(proj, w0, acts, w, Advance(t, 0));
  }

  /** The first projection of a plan: no row of another revision, no row at all, a new row. */
  lemma {:induction false} FirstProjection(proj: Projector, w: World, t: nat, now: Instant)
    requires t in w.callers && w.callers[t].Projecting? && PlanSchedule(proj.cal, w.callers[t].plan).Some?
    requires PlanKey(w.callers[t].plan.id) !in w.states
    ensures var p, replay := w.callers[t].plan, w.callers[t].replay;
      var a := Step(proj, w, Advance(t, now));
      var b := Step(proj, a, Advance(t, now));
      var c := Step(proj, b, Advance(t, now));
      c == w.(states := w.states[PlanKey(p.id) := RowOf(proj, p)], spent := w.spent - {PlanKey(p.id)},
              callers := w.callers[t := Answered(p, replay)])
  {
    var a := Step(proj, w, Advance(t, now));
    assert a == To(w, t, Refreshing(w.callers[t].plan, w.callers[t].replay));
    var b := Step(proj, a, Advance(t, now));
    assert b == To(a, t, Inserting(w.callers[t].plan, w.callers[t].replay));
  }

  /** For every enabled plan there is a run that leaves its row at the first revision, and enabled,
      although the stored plan has been paused at the second. */
  lemma {:induction false} OlderRowUnderNewerPlan(proj: Projector, row: PlanRow) returns (acts: seq<Act>)
    requires row.plan.revision == 1 && row.plan.status.Enabled? && PlanSchedule(proj.cal, row.plan).Some?
    ensures var w := Run(proj, Start(map[]), acts); var id := row.plan.id;
      && id in w.rows && w.rows[id].plan.revision == 2 && w.rows[id].plan.status == Paused
      && IsPlanRow(w.states, id) && w.states[PlanKey(id)].revision == Decimal(1) && w.states[PlanKey(id)].enabled
  {
    var w0, p := Start(map[]), row.plan;
    var w: World, d: Plan;
    acts, w := Creating(proj, row);
    acts, w, d := Changing(proj, acts, w, 1, p, Paused);
    FirstProjection(proj, w, 1, 0);
    acts, w := Then(proj, w0, acts, w, Advance(1, 0));
    acts, w := Then(proj, w0, acts, w, Advance(1, 0));
    acts, w := Then(proj, w0, acts, w, Advance(1, 0));
    assert w.states == map[PlanKey(p.id) := RowOf(proj, d)] && w.callers[0] == Projecting(p, false);
    DecimalInjective(1, 2);
    acts, w := Then(proj, w0, acts, w, Advance(0, 0));
  }

  /** For every disabled plan there is a run in which it is enabled at its second revision and its
      row, at that revision too, ends up disabled with the first revision's definition, not spent;
      and projecting the plan again mends the definition but does not enable the row. */
  lemma {:induction false} OverlapUndoesResume(proj: Projector, row: PlanRow) returns (acts: seq<Act>)
    requires row.plan.revision == 1 && row.plan.status == Disabled && PlanSchedule(proj.cal, row.plan).Some?
    ensures var w := Run(proj, Start(map[]), acts); var id, key := row.plan.id, PlanKey(row.plan.id);
      && id in w.rows && w.rows[id].plan.revision == 2 && w.rows[id].plan.status.Enabled?
      && IsPlanRow(w.states, id) && w.states[key].revision == Decimal(2) && w.states[key].definition == DefinitionOf(proj, row.plan)
      && !w.states[key].enabled && key !in w.spent && !Faithful(proj, w, id)
      && ProjectPlan(proj, w.states, w.rows[id].plan).Some?
      && !ProjectPlan(proj, w.states, w.rows[id].plan).value[key].enabled
  {
    var w0, p, key := Start(map[]), row.plan, PlanKey(row.plan.id);
    var w: World, d: Plan;
    acts, w := Creating(proj, row);
    FirstProjection(proj, w, 0, 0);
    acts, w := Then(proj, w0, acts, w, Advance(0, 0));
    acts, w := Then(proj, w0, acts, w, Advance(0, 0));
    acts, w := Then(proj, w0, acts, w, Advance(0, 0));
    acts, w := ReplayingUpToRefresh(proj, acts, w, row);
    acts, w, d := Changing(proj, acts, w, 2, p, PlanStatus.Enabled);
    DecimalInjective(1, 2);
    acts, w := Then(proj, w0, acts, w, Advance(2, 0));
    assert w.states[key] == RowOf(proj, d).(nextRun := w.states[key].nextRun) && w.callers[1] == Refreshing(p, true);
    acts, w := Then(proj, w0, acts, w, Advance(1, 0));
    assert w.states[key].definition.revision == Decimal(1);
    OnePlan(proj, w.states, d);
  }

  /** A replay of the create finds the row at its own revision and is about to refresh it. */
  lemma {:induction false} ReplayingUpToRefresh(proj: Projector, acts0: seq<Act>, v: World, row: PlanRow) returns (acts: seq<Act>, w: World)
    requires v == Run(proj, Start(map[]), acts0) && 1 !in v.callers && row.plan.revision == 1 && row.plan.status != Deleted
    requires v.rows == map[row.plan.id := row] && PlanSchedule(proj.cal, row.plan).Some?
    requires v.states == map[PlanKey(row.plan.id) := RowOf(proj, row.plan)]
    ensures w == Run(proj, Start(map[]), acts) && w == v.(callers := v.callers[1 := Refreshing(row.plan, true)])
  {
    var w0 := Start(map[]);
    acts, w := Then(proj, w0, acts0, v, Begin(1, Create(row)));
    acts, w := Then(proj, w0, acts, w, Advance(1, 0));
    assert w == To(v, 1, Inserted(row, true)) && CreateOutcome(w.rows, row) == CreatedPlan(row.plan, true);
    acts, w := Then(proj, w0, acts, w, Advance(1, 0));
    FindsOwnRow(proj, w, 1, 0);
    acts, w := Then(proj, w0, acts, w, Advance(1, 0));
  }

  lemma {:induction false} FindsOwnRow(proj: Projector, w: World, t: nat, now: Instant)
    requires t in w.callers && w.callers[t].Projecting? && PlanSchedule(proj.cal, w.callers[t].plan).Some?
    requires RevisionAt(w.states, w.callers[t].plan.id) == Some(Decimal(w.callers[t].plan.revision))
    ensures Step(proj, w, Advance(t, now)) == To(w, t, Refreshing(w.callers[t].plan, w.callers[t].replay))
  {
  }
}
