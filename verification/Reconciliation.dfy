/** Reconciling definitions through one service: persist the host's snapshot, read the canonical one
    back and project it onto the execution rows. */
module Reconciliation {
  import opened TextOrder
  import opened Options
  import opened StoredTime
  import opened RunTables
  import opened Projection
  import opened Definitions
  import opened DefinitionStore
  import PlanProjection
  import Plans
  import RunStore

  // ---------- the plan namespace ----------

  const PLAN_NAMESPACE := "scheduled-plan:"

  predicate Reserved(key: string) {
    |key| >= 15 && key[..15] == PLAN_NAMESPACE
  }

  predicate AnyReserved(defs: seq<Definition>) {
    exists i :: 0 <= i < |defs| && Reserved(defs[i].key)
  }

  /** Plans are projected under reserved keys only. */
  ghost predicate PlansKeepToNamespace(states: States) {
    forall key :: key in states && states[key].source == ScheduledPlan ==> Reserved(key)
  }

  lemma {:induction false} PlanProjectionKeepsToNamespace(proj: PlanProjection.Projector, states: States, plans: seq<Plans.Plan>)
    requires PlansKeepToNamespace(states) && PlanProjection.ProjectAll(proj, states, plans).Some?
    ensures PlansKeepToNamespace(PlanProjection.ProjectAll(proj, states, plans).value)
  {
    if |plans| > 0 {
      PlanProjectionKeepsToNamespace(proj, states, plans[..|plans| - 1]);
      var before, p := PlanProjection.ProjectAll(proj, states, plans[..|plans| - 1]).value, plans[|plans| - 1];
      PlanProjection.OnePlan(proj, before, p);
      assert PlanProjection.PlanKey(p.id)[..15] == PLAN_NAMESPACE;
    }
  }

  /** Because reserved keys are turned away, a snapshot never collides with a plan: applying it to
      rows that keep to the namespace always succeeds, and keeps them so. */
  lemma {:induction false} UnreservedSnapshotApplies(cal: Calendar, states: States, defs: seq<Definition>, revision: int, now: Instant)
    requires PlansKeepToNamespace(states) && !AnyReserved(defs) && DistinctDefinitions(defs)
    ensures var after := ApplySnapshot(cal, states, defs, revision, now);
      after.Some? && PlansKeepToNamespace(after.value)
  {
    ApplyRefinesProjection(cal, states, defs, revision, now);
    assert !TakesPlanKey(states, defs);
    var after := ApplySnapshot(cal, states, defs, revision, now).value;
    forall key | key in after ensures after[key].source == ScheduledPlan ==> Reserved(key) {
      if Lists(defs, key) {
        var i :| 0 <= i < |defs| && defs[i].enabled && defs[i].key == key;
        assert after[defs[i].key] == EnabledRow(cal, states, defs[i], revision, now);
      } else {
        assert after[key] == DisabledRow(states[key], revision);
      }
    }
  }

  /** Only which keys are active matters, not their order. */
  lemma {:induction false} ActiveOrderForgotten(states: States, a: seq<string>, b: seq<string>, revision: int)
    requires forall key :: key in a <==> key in b
    ensures DisableMissing(states, a, revision) == DisableMissing(states, b, revision)
  {
  }

  lemma {:induction false} SortingKeepsActive(states: States, active: seq<string>, revision: int)
    ensures DisableMissing(states, SortBy(Itself, active), revision) == DisableMissing(states, active, revision)
  {
    SortBySorts(Itself, active);
    forall key ensures key in SortBy(Itself, active) <==> key in active {
      assert key in SortBy(Itself, active) <==> key in multiset(SortBy(Itself, active));
    }
    ActiveOrderForgotten(states, SortBy(Itself, active), active, revision);
  }

  // ---------- results ----------

  datatype Failure = ReservedKey | NotPersisted(why: SyncError) | NotAccepted(rejection: Rejection) | TornSnapshot | KeyConflict
                   | Unavailable

  datatype Applied = Projected | Superseded | Rejected(why: Failure)

  datatype Converged = Found | NothingPublished | Stopped(why: Failure)

  datatype Result = Ok | Error(why: Failure)

  /** The last publication is what the snapshot and definition rows hold. */
  ghost predicate Settled(pub: Option<PubRow>, snap: Option<SnapRow>, rows: DefRows) {
    CursorOf(pub).Some? ==>
      && snap.Some? && snap.value.revision == CursorOf(pub).value.revision && snap.value.content == CursorOf(pub).value.content
      && ContentOf(ReadDefinitions(rows)) == CursorOf(pub).value.content
  }

  /** The definitions a service serves by key. */
  function ByKey(defs: seq<Definition>): map<string, Definition> {
    if |defs| == 0 then map[] else ByKey(defs[..|defs| - 1])[defs[|defs| - 1].key := defs[|defs| - 1]]
  }

  /** Of every definition it holds, and of no other. */
  lemma {:induction false} ServesByKey(defs: seq<Definition>, key: string)
    requires !RepeatsKey(defs)
    ensures key in ByKey(defs) <==> exists i :: 0 <= i < |defs| && defs[i].key == key
    ensures forall i :: 0 <= i < |defs| && defs[i].key == key ==> ByKey(defs)[key] == defs[i]
  {
    if |defs| > 0 {
      var init, last := defs[..|defs| - 1], defs[|defs| - 1];
      forall i, j | 0 <= i < j < |init| ensures init[i].key != init[j].key { assert defs[i].key != defs[j].key; }
      ServesByKey(init, key);
      if key in ByKey(init) {
        var i :| 0 <= i < |init| && init[i].key == key;
        assert defs[i].key == key;
      }
      if last.key == key { assert defs[|defs| - 1].key == key; }
      forall i | 0 <= i < |defs| && defs[i].key == key ensures key in ByKey(defs) && ByKey(defs)[key] == defs[i] {
        if i < |init| { assert init[i].key == key && defs[i].key != last.key; }
      }
    }
  }

  lemma {:induction false} ReadIsCanonical(rows: DefRows)
    requires RowsOk(rows)
    ensures Canonical(ReadDefinitions(rows)) == ReadDefinitions(rows) && !RepeatsKey(ReadDefinitions(rows))
  {
    ListingHas(rows, rows.Keys);
    CanonicalTwice(Listing(rows, rows.Keys));
    CanonicalDistinct(Listing(rows, rows.Keys));
  }

  lemma {:induction false} ReservedInCanonical(defs: seq<Definition>)
    ensures AnyReserved(Canonical(defs)) <==> AnyReserved(defs)
  {
    CanonicalKeepsKeys(defs);
    var c := Canonical(defs);
    if AnyReserved(defs) {
      var i :| 0 <= i < |defs| && Reserved(defs[i].key);
      assert defs[i] in c;
      var j :| 0 <= j < |c| && c[j] == defs[i];
      assert Reserved(c[j].key);
    }
    if AnyReserved(c) {
      var j :| 0 <= j < |c| && Reserved(c[j].key);
      assert c[j] in defs;
      var i :| 0 <= i < |defs| && defs[i] == c[j];
      assert Reserved(defs[i].key);
    }
  }

  lemma {:induction false} CanonicalApplies(cal: Calendar, states: States, defs: seq<Definition>, revision: int, now: Instant)
    requires PlansKeepToNamespace(states) && !AnyReserved(defs) && !RepeatsKey(defs)
    ensures !AnyReserved(Canonical(defs))
    ensures var after := ApplySnapshot(cal, states, Canonical(defs), revision, now);
      after.Some? && PlansKeepToNamespace(after.value)
  {
    ReservedInCanonical(defs);
    CanonicalDistinct(defs);
    UnreservedSnapshotApplies(cal, states, Canonical(defs), revision, now);
  }

  /** After a publication that was applied, or was a replay of the last, reading gives back what was
      submitted, under the submitted cursor. */
  lemma {:induction false} SyncedIsRead(pub: Option<PubRow>, snap: Option<SnapRow>, rows: DefRows, fence: Option<Fence>, revision: int, defs: seq<Definition>)
    requires RowsOk(rows) && revision > 0
    requires fence.None? ==> CursorOf(pub).None? && snap.Some? && snap.value == SnapRow(revision, revision, ContentOf(defs))
                             && ReadDefinitions(rows) == Canonical(defs)
    requires fence.Some? ==> CursorOf(pub) == Some(Cursor(fence.value, revision, ContentOf(defs))) && Settled(pub, snap, rows)
    ensures var read := ReadSnapshot(snap, ReadDefinitions(rows), VersionsOf(rows), CursorOf(pub));
      && read.Snapshot? && read.version.Some? && read.revision == revision && read.definitions == Canonical(defs)
      && read.fence == fence && (fence.Some? ==> read.content == Some(ContentOf(defs)))
  {
    ReadIsCanonical(rows);
    if fence.None? { assert ContentOf(ReadDefinitions(rows)) == ContentOf(defs); }
  }

  lemma {:induction false} AppliedSettles(pub: Option<PubRow>, snap: Option<SnapRow>, rows: DefRows, s: Submission)
    requires !RepeatsKey(s.definitions)
    requires CursorOf(pub) == Some(CursorFor(s)) && snap.Some? && snap.value.revision == s.revision && snap.value.content == ContentOf(s.definitions)
    requires ReadDefinitions(rows) == Canonical(s.definitions)
    ensures Settled(pub, snap, rows)
  {
    CanonicalTwice(s.definitions);
  }

  class Service {
    const store: DefinitionStore
    const runs: RunStore.Store
    var definitions: map<string, Definition>

    constructor (store: DefinitionStore, runs: RunStore.Store)
      ensures this.store == store && this.runs == runs && definitions == map[]
    {
      this.store, this.runs, definitions := store, runs, map[];
    }

    /** One fenced projection: only if the snapshot is still the canonical one. */
    method ApplyDefinitionSnapshot(cursor: Cursor, defs: seq<Definition>, now: Instant) returns (r: Applied)
      modifies runs`states
      ensures var after := ApplySnapshot(runs.cal, old(runs.states), defs, cursor.revision, now);
        && r == (if cursor.content != ContentOf(defs) then Rejected(TornSnapshot)
                 else if CursorOf(store.pub) != Some(cursor) then Superseded
                 else if after.None? then Rejected(KeyConflict) else Projected)
        && runs.states == if r == Projected then after.value else old(runs.states)
    {
      if cursor.content != ContentOf(defs) { return Rejected(TornSnapshot); }
      if store.pub.None? || store.pub.value.cursor != Some(cursor) { return Superseded; }
      var done := runs.ApplyDefinitions(defs, cursor.revision, now);
      return if done == RunStore.Done then Projected else Rejected(KeyConflict);
    }

    /** The embedded deployment projects without a fence, one definition after the other; an error
        leaves what was reconciled before it. */
    method ApplyUnfenced(defs: seq<Definition>, revision: int, now: Instant) returns (r: Applied)
      modifies runs`states
      ensures r == Projected <==> !AnyReserved(defs) && ApplySnapshot(runs.cal, old(runs.states), defs, revision, now).Some?
      ensures r == Projected ==> ApplySnapshot(runs.cal, old(runs.states), defs, revision, now) == Some(runs.states)
      ensures r != Superseded
      ensures r.Rejected? ==> exists n :: 0 <= n < |defs| && ReconcileAll(runs.cal, old(runs.states), defs[..n], now) == Some(runs.states)
    {
      ghost var start := runs.states;
      var active := [];
      var i := 0;
      while i < |defs|
        invariant 0 <= i <= |defs| && !AnyReserved(defs[..i])
        invariant active == ActiveKeys(defs[..i])
        invariant ReconcileAll(runs.cal, start, defs[..i], now) == Some(runs.states)
      {
        assert defs[..i + 1][..i] == defs[..i] && defs[..i + 1][i] == defs[i];
        if Reserved(defs[i].key) { return Rejected(ReservedKey); }
        if defs[i].enabled {
          active := active + [defs[i].key];
          var next := runs.cal.next(defs[i].schedule, now);
          if defs[i].initialNextRun != 0 && defs[i].initialNextRun < next { next := defs[i].initialNextRun; }
          var done := runs.ReconcileWith(defs[i], next, RuntimeDefinition, true);
          if done != RunStore.Done {
            RunStore.ConflictIsFinal(runs.cal, start, defs, i + 1, now);
            return Rejected(KeyConflict);
          }
        }
        i := i + 1;
      }
      assert defs[..i] == defs;
      SortingKeepsActive(runs.states, active, revision);
      runs.DisableMissing(SortBy(Itself, active), revision);
      return Projected;
    }

    method ApplyPersisted(read: ReadResult, now: Instant) returns (r: Applied)
      requires read.Snapshot? && (read.fence.Some? <==> read.content.Some?)
      modifies runs`states, this`definitions
      ensures read.fence.Some? ==>
        var cursor := Cursor(read.fence.value, read.revision, read.content.value);
        var after := ApplySnapshot(runs.cal, old(runs.states), read.definitions, read.revision, now);
        && r == (if AnyReserved(read.definitions) then Rejected(ReservedKey)
                 else if cursor.content != ContentOf(read.definitions) then Rejected(TornSnapshot)
                 else if CursorOf(store.pub) != Some(cursor) then Superseded
                 else if after.None? then Rejected(KeyConflict) else Projected)
        && runs.states == if r == Projected then after.value else old(runs.states)
      ensures read.fence.None? ==>
        && r != Superseded
        && (r == Projected <==> !AnyReserved(read.definitions)
                                && ApplySnapshot(runs.cal, old(runs.states), read.definitions, read.revision, now).Some?)
        && (r == Projected ==> ApplySnapshot(runs.cal, old(runs.states), read.definitions, read.revision, now) == Some(runs.states))
      ensures definitions == if r == Projected then ByKey(read.definitions) else old(definitions)
    {
      if read.fence.None? {
        r := ApplyUnfenced(read.definitions, read.revision, now);
      } else {
        if AnyReserved(read.definitions) { return Rejected(ReservedKey); }
        r := ApplyDefinitionSnapshot(Cursor(read.fence.value, read.revision, read.content.value), read.definitions, now);
      }
      if r == Projected { definitions := ByKey(read.definitions); }
    }

    /** The engine's answer to the definition query. */
    method ListRows() returns (listed: seq<DefRow>)
      requires store.Valid()
      ensures AnswersDefinitions(store.rows, listed)
    {
      var keys := store.rows.Keys;
      listed := [];
      while keys != {}
        invariant keys <= store.rows.Keys
        invariant forall r :: r in listed <==> r.definition.key in store.rows && r.definition.key !in keys
                                               && store.rows[r.definition.key] == r && !r.disabled
        invariant forall i, j :: 0 <= i < j < |listed| ==> listed[i].definition.key != listed[j].definition.key
        decreases keys
      {
        var key :| key in keys;
        if !store.rows[key].disabled { listed := listed + [store.rows[key]]; }
        keys := keys - {key};
      }
    }

    /** Projects what the store holds.  Nobody publishes between the read and the projection here, so
        the first attempt is never superseded. */
    method Converge(now: Instant) returns (r: Converged)
      requires store.Valid()
      modifies runs`states, this`definitions
      ensures var read := ReadSnapshot(store.snap, ReadDefinitions(store.rows), VersionsOf(store.rows), CursorOf(store.pub));
        && (read.Inconsistent? ==> r == Stopped(TornSnapshot))
        && (read.Snapshot? && read.version.None? ==> r == NothingPublished)
        && (r != Found && (read.Inconsistent? || read.version.None? || read.fence.Some?) ==> runs.states == old(runs.states))
        && (read.Snapshot? && read.version.Some? ==>
              var after := ApplySnapshot(runs.cal, old(runs.states), read.definitions, read.revision, now);
              && (r == Found <==> !AnyReserved(read.definitions) && after.Some?)
              && (r == Found ==> after == Some(runs.states) && definitions == ByKey(read.definitions)))
    {
      var listed := ListRows();
      var read := store.DefinitionSnapshot(listed);
      if read.Inconsistent? { return Stopped(TornSnapshot); }
      if read.version.None? { return NothingPublished; }
      var applied := ApplyPersisted(read, now);
      match applied {
        case Rejected(why) => return Stopped(why);
        case Projected => return Found;
      }
    }

    /** Persists the host's snapshot and converges on the canonical one. */
    method ReconcileSnapshot(fence: Option<Fence>, revision: int, defs: seq<Definition>, now: Instant) returns (r: Result)
      requires store.Valid() && Settled(store.pub, store.snap, store.rows)
      requires PlansKeepToNamespace(runs.states) && (!store.saas ==> store.pub == None)
      modifies runs`states, store, this`definitions
      ensures store.Valid() && Settled(store.pub, store.snap, store.rows) && PlansKeepToNamespace(runs.states)
      ensures AnyReserved(defs) ==> r == Error(ReservedKey)
      ensures r == Ok && store.saas ==> fence.Some? && CursorOf(store.pub) == Some(Cursor(fence.value, revision, ContentOf(defs)))
      ensures r == Ok ==>
        && ApplySnapshot(runs.cal, old(runs.states), Canonical(defs), revision, now) == Some(runs.states)
        && definitions == ByKey(Canonical(defs))
      ensures r != Ok ==> runs.states == old(runs.states)
      ensures r == Ok <==> !AnyReserved(defs) && revision > 0 && !RepeatsKey(defs) && (store.saas <==> fence.Some?)
                           && (fence.Some? ==> !Evaluate(old(store.pub), Submission(fence.value, revision, defs)).Reject?)
    {
      if AnyReserved(defs) { return Error(ReservedKey); }
      var claimed := if store.saas && fence.Some? then Some(ContentOf(defs)) else None;
      var synced := store.SyncDefinitions(fence, revision, revision, claimed, defs);
      if synced.Refused? { return Error(NotPersisted(synced.why)); }
      if synced.disposition.Reject? { return Error(NotAccepted(synced.disposition.why)); }
      if fence.Some? && synced.disposition == Apply {
        AppliedSettles(store.pub, store.snap, store.rows, Submission(fence.value, revision, defs));
      }
      if fence.None? { CanonicalTwice(defs); }
      SyncedIsRead(store.pub, store.snap, store.rows, fence, revision, defs);
      CanonicalApplies(runs.cal, runs.states, defs, revision, now);
      var found := Converge(now);
      return match found case Found => Ok case NothingPublished => Error(Unavailable) case Stopped(why) => Error(why);
    }
  }
}
