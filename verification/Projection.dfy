/** The execution projection: what reconciling definitions does to the definition-state rows. */
module Projection {
  import opened Options
  import opened StoredTime
  import opened RunTables

  /** One definition into one row: a new revision replaces the row, the same revision keeps its
      cursor, and a plan's spent row is not enabled again.  None when the key belongs to the other
      source. */
  function Reconcile(states: States, d: Definition, next: Instant, source: Source, enabled: bool): Option<States> {
    if d.key !in states then
      Some(states[d.key := DefState(source, d.revision, enabled, d, next, None, "", 0)])
    else
      var row := states[d.key];
      if row.source != source then None
      else if row.revision != d.revision then
        Some(states[d.key := row.(revision := d.revision, enabled := enabled, definition := d, nextRun := next)])
      else
        Some(states[d.key := row.(definition := d, enabled := if source == ScheduledPlan && enabled then row.enabled else enabled)])
  }

  // ---------- the statements of a reconcile ----------

  /** First: the row of another revision is replaced, if there is one. */
  function ReplaceRevision(states: States, d: Definition, next: Instant, source: Source, enabled: bool): Option<States> {
    if d.key in states && states[d.key].source == source && states[d.key].revision != d.revision
    then Some(states[d.key := states[d.key].(revision := d.revision, enabled := enabled, definition := d, nextRun := next)])
    else None
  }

  /** Then: the row, whatever revision it is at by now, is given the definition. */
  function RefreshRow(states: States, d: Definition, source: Source, enabled: bool): Option<States> {
    if d.key in states && states[d.key].source == source
    then Some(states[d.key := states[d.key].(definition := d,
                                             enabled := if source == ScheduledPlan && enabled then states[d.key].enabled else enabled)])
    else None
  }

  /** Then: a row is inserted, unless the key is taken. */
  function InsertRow(states: States, d: Definition, next: Instant, source: Source, enabled: bool): Option<States> {
    if d.key in states then None
    else Some(states[d.key := DefState(source, d.revision, enabled, d, next, None, "", 0)])
  }

  function FirstOf<T>(a: Option<T>, b: Option<T>): Option<T> {
    if a.Some? then a else b
  }

  /** With nobody in between, the statements, each tried when those before it matched nothing, are
      the reconcile. */
  lemma {:induction false} StatementsAlone(states: States, d: Definition, next: Instant, source: Source, enabled: bool)
    ensures Reconcile(states, d, next, source, enabled)
            == FirstOf(ReplaceRevision(states, d, next, source, enabled),
                       FirstOf(RefreshRow(states, d, source, enabled), InsertRow(states, d, next, source, enabled)))
  {
  }

  function DisabledRow(row: DefState, revision: int): DefState {
    if row.source == RuntimeDefinition then row.(enabled := false, snapshotRevision := revision) else row
  }

  function ActivatedRow(row: DefState, revision: int): DefState {
    if row.source == RuntimeDefinition then row.(enabled := true, snapshotRevision := revision) else row
  }

  function DisableAll(states: States, revision: int): States {
    map key | key in states :: DisabledRow(states[key], revision)
  }

  function Activate(states: States, active: seq<string>, revision: int): States {
    map key | key in states :: if key in active then ActivatedRow(states[key], revision) else states[key]
  }

  /** Every runtime row disabled, then the active ones enabled: two statements. */
  function DisableMissing(states: States, active: seq<string>, revision: int): States {
    Activate(DisableAll(states, revision), active, revision)
  }

  function NextFor(cal: Calendar, d: Definition, now: Instant): Instant {
    var next := cal.next(d.schedule, now);
    if d.initialNextRun != 0 && d.initialNextRun < next then d.initialNextRun else next
  }

  function ActiveKeys(defs: seq<Definition>): seq<string> {
    if |defs| == 0 then [] else
      ActiveKeys(defs[..|defs| - 1]) + (if defs[|defs| - 1].enabled then [defs[|defs| - 1].key] else [])
  }

  function ReconcileAll(cal: Calendar, states: States, defs: seq<Definition>, now: Instant): Option<States> {
    if |defs| == 0 then Some(states) else
      var d, before := defs[|defs| - 1], ReconcileAll(cal, states, defs[..|defs| - 1], now);
      if before.None? || !d.enabled then before
      else Reconcile(before.value, d, NextFor(cal, d, now), RuntimeDefinition, true)
  }

  function ApplySnapshot(cal: Calendar, states: States, defs: seq<Definition>, revision: int, now: Instant): Option<States> {
    var all := ReconcileAll(cal, states, defs, now);
    if all.None? then None else Some(DisableMissing(all.value, ActiveKeys(defs), revision))
  }

  // ---------- what applying a snapshot means ----------

  ghost predicate DistinctDefinitions(defs: seq<Definition>) {
    forall i, j :: 0 <= i < j < |defs| ==> defs[i].key != defs[j].key
  }

  /** The row of an enabled definition once its snapshot is applied. */
  function EnabledRow(cal: Calendar, before: States, d: Definition, revision: int, now: Instant): DefState {
    if d.key in before && before[d.key].revision == d.revision
    then before[d.key].(definition := d, enabled := true, snapshotRevision := revision)
    else if d.key in before
    then before[d.key].(revision := d.revision, definition := d, nextRun := NextFor(cal, d, now), enabled := true, snapshotRevision := revision)
    else DefState(RuntimeDefinition, d.revision, true, d, NextFor(cal, d, now), None, "", revision)
  }

  ghost predicate Lists(defs: seq<Definition>, key: string) {
    exists i :: 0 <= i < |defs| && defs[i].enabled && defs[i].key == key
  }

  /** Row by row, without saying how: an enabled definition has its row, other runtime rows are
      disabled, plan rows are as they were. */
  ghost predicate ProjectsSnapshot(cal: Calendar, before: States, after: States, defs: seq<Definition>, revision: int, now: Instant) {
    && (forall i :: 0 <= i < |defs| && defs[i].enabled ==>
          defs[i].key in after && after[defs[i].key] == EnabledRow(cal, before, defs[i], revision, now))
    && (forall key :: key in before && !Lists(defs, key) ==> key in after && after[key] == DisabledRow(before[key], revision))
    && (forall key :: key in after ==> key in before || Lists(defs, key))
  }

  ghost predicate TakesPlanKey(states: States, defs: seq<Definition>) {
    exists i :: 0 <= i < |defs| && defs[i].enabled && defs[i].key in states && states[defs[i].key].source == ScheduledPlan
  }

  lemma {:induction false} ActiveKeysListed(defs: seq<Definition>, key: string)
    ensures key in ActiveKeys(defs) <==> Lists(defs, key)
  {
    if |defs| > 0 {
      var init := defs[..|defs| - 1];
      ActiveKeysListed(init, key);
      if Lists(init, key) {
        var i :| 0 <= i < |init| && init[i].enabled && init[i].key == key;
        assert defs[i] == init[i];
      }
      if Lists(defs, key) {
        var i :| 0 <= i < |defs| && defs[i].enabled && defs[i].key == key;
        if i < |init| { assert init[i] == defs[i]; }
      }
      if defs[|defs| - 1].enabled { assert Lists(defs, defs[|defs| - 1].key); }
    }
  }

  /** A row half-way: reconciled, not yet stamped with the snapshot revision. */
  predicate HalfWay(cal: Calendar, before: States, mid: States, d: Definition, revision: int, now: Instant) {
    && d.key in mid && mid[d.key].source == RuntimeDefinition
    && mid[d.key].(snapshotRevision := revision) == EnabledRow(cal, before, d, revision, now)
  }

  /** Half-way through a snapshot: refused if a plan's key was taken, otherwise the enabled
      definitions have their rows and the others are as they were. */
  ghost predicate Reconciled(cal: Calendar, states: States, mid: Option<States>, defs: seq<Definition>, revision: int, now: Instant) {
    && (mid.None? <==> TakesPlanKey(states, defs))
    && (mid.Some? ==>
          && (forall i :: 0 <= i < |defs| && defs[i].enabled ==> HalfWay(cal, states, mid.value, defs[i], revision, now))
          && (forall key :: key in states && !Lists(defs, key) ==> key in mid.value && mid.value[key] == states[key])
          && (forall key :: key in mid.value ==> key in states || Lists(defs, key)))
  }

  lemma {:induction false} ReconcileAllRows(cal: Calendar, states: States, defs: seq<Definition>, revision: int, now: Instant)
    requires DistinctDefinitions(defs)
    ensures Reconciled(cal, states, ReconcileAll(cal, states, defs, now), defs, revision, now)
  {
    if |defs| > 0 {
      var init, d := defs[..|defs| - 1], defs[|defs| - 1];
      var before := ReconcileAll(cal, states, init, now);
      ReconcileAllRows(cal, states, init, revision, now);
      TakesPlanKeyStep(states, defs);
      forall key ensures Lists(defs, key) <==> Lists(init, key) || (d.enabled && d.key == key) { ListsStep(defs, key); }
      if before.Some? {
        if d.enabled {
          LastIsNew(defs);
          OneMoreDefinition(cal, states, before.value, defs, revision, now);
        } else {
          forall i | 0 <= i < |defs| && defs[i].enabled ensures HalfWay(cal, states, before.value, defs[i], revision, now) {
            assert defs[i] == init[i];
          }
        }
      }
    }
  }

  lemma {:induction false} ListsStep(defs: seq<Definition>, key: string)
    requires |defs| > 0
    ensures Lists(defs, key) <==> Lists(defs[..|defs| - 1], key) || (defs[|defs| - 1].enabled && defs[|defs| - 1].key == key)
  {
    var init := defs[..|defs| - 1];
    if Lists(init, key) {
      var i :| 0 <= i < |init| && init[i].enabled && init[i].key == key;
      assert defs[i].enabled && defs[i].key == key;
    }
    if Lists(defs, key) {
      var i :| 0 <= i < |defs| && defs[i].enabled && defs[i].key == key;
      if i < |init| { assert init[i].enabled && init[i].key == key; }
    }
  }

  lemma {:induction false} TakesPlanKeyStep(states: States, defs: seq<Definition>)
    requires |defs| > 0
    ensures var d := defs[|defs| - 1];
      TakesPlanKey(states, defs) <==> TakesPlanKey(states, defs[..|defs| - 1])
                                      || (d.enabled && d.key in states && states[d.key].source == ScheduledPlan)
  {
    var init := defs[..|defs| - 1];
    if TakesPlanKey(states, init) {
      var i :| 0 <= i < |init| && init[i].enabled && init[i].key in states && states[init[i].key].source == ScheduledPlan;
      assert defs[i] == init[i];
    }
    if TakesPlanKey(states, defs) {
      var i :| 0 <= i < |defs| && defs[i].enabled && defs[i].key in states && states[defs[i].key].source == ScheduledPlan;
      if i < |init| { assert init[i] == defs[i]; }
    }
  }

  lemma {:induction false} LastIsNew(defs: seq<Definition>)
    requires |defs| > 0 && DistinctDefinitions(defs)
    ensures !Lists(defs[..|defs| - 1], defs[|defs| - 1].key)
  {
    var init := defs[..|defs| - 1];
    forall i | 0 <= i < |init| ensures init[i].key != defs[|defs| - 1].key { assert init[i] == defs[i]; }
  }

  lemma {:induction false} OneMoreDefinition(cal: Calendar, states: States, before: States, defs: seq<Definition>, revision: int, now: Instant)
    requires |defs| > 0 && defs[|defs| - 1].enabled && DistinctDefinitions(defs)
    requires var init, d := defs[..|defs| - 1], defs[|defs| - 1];
      && Reconciled(cal, states, Some(before), init, revision, now) && !Lists(init, d.key)
      && (TakesPlanKey(states, defs) <==> d.key in states && states[d.key].source == ScheduledPlan)
      && (forall key :: Lists(defs, key) <==> Lists(init, key) || d.key == key)
    ensures var d := defs[|defs| - 1];
      Reconciled(cal, states, Reconcile(before, d, NextFor(cal, d, now), RuntimeDefinition, true), defs, revision, now)
  {
    var init, d := defs[..|defs| - 1], defs[|defs| - 1];
    assert d.key in before <==> d.key in states;
    OneRow(cal, states, before, d, revision, now);
    var mid := Reconcile(before, d, NextFor(cal, d, now), RuntimeDefinition, true);
    if mid.Some? {
      forall i | 0 <= i < |defs| && defs[i].enabled ensures HalfWay(cal, states, mid.value, defs[i], revision, now) {
        if i < |init| { assert init[i] == defs[i] && defs[i].key != d.key && HalfWay(cal, states, before, init[i], revision, now); }
      }
    }
  }

  lemma {:induction false} OneRow(cal: Calendar, states: States, before: States, d: Definition, revision: int, now: Instant)
    requires (d.key in before <==> d.key in states) && (d.key in states ==> before[d.key] == states[d.key])
    ensures var mid := Reconcile(before, d, NextFor(cal, d, now), RuntimeDefinition, true);
      && (mid.None? <==> d.key in states && states[d.key].source == ScheduledPlan)
      && (mid.Some? ==> HalfWay(cal, states, mid.value, d, revision, now) && mid.value.Keys == before.Keys + {d.key}
                        && forall key :: key in before && key != d.key ==> mid.value[key] == before[key])
  {
  }

  /** Applying a snapshot gives exactly the projection it stands for, and is refused exactly when an
      enabled definition would take a plan's key. */
  lemma {:induction false} ApplyRefinesProjection(cal: Calendar, states: States, defs: seq<Definition>, revision: int, now: Instant)
    requires DistinctDefinitions(defs)
    ensures var after := ApplySnapshot(cal, states, defs, revision, now);
      && (after.None? <==> TakesPlanKey(states, defs))
      && (after.Some? ==> ProjectsSnapshot(cal, states, after.value, defs, revision, now))
  {
    ReconcileAllRows(cal, states, defs, revision, now);
    var mid := ReconcileAll(cal, states, defs, now);
    if mid.Some? {
      var after := ApplySnapshot(cal, states, defs, revision, now).value;
      forall key ensures key in ActiveKeys(defs) <==> Lists(defs, key) { ActiveKeysListed(defs, key); }
      forall i | 0 <= i < |defs| && defs[i].enabled
        ensures defs[i].key in after && after[defs[i].key] == EnabledRow(cal, states, defs[i], revision, now)
      {
        assert HalfWay(cal, states, mid.value, defs[i], revision, now);
        assert Lists(defs, defs[i].key);
      }
    }
  }

  /** Afterwards the enabled runtime rows are the snapshot's enabled definitions, no more, no less;
      plan rows are untouched; a row of the same revision keeps its cursor. */
  lemma {:induction false} ApplyEnablesExactly(cal: Calendar, states: States, defs: seq<Definition>, revision: int, now: Instant, key: string)
    requires DistinctDefinitions(defs) && ApplySnapshot(cal, states, defs, revision, now).Some?
    ensures var after := ApplySnapshot(cal, states, defs, revision, now).value;
      && (key in after && after[key].source == RuntimeDefinition && after[key].enabled <==> Lists(defs, key))
      && (key in states && states[key].source == ScheduledPlan ==> key in after && after[key] == states[key])
      && (key in states && key in after && after[key].revision == states[key].revision ==> after[key].nextRun == states[key].nextRun)
  {
    ApplyRefinesProjection(cal, states, defs, revision, now);
    if Lists(defs, key) {
      var i :| 0 <= i < |defs| && defs[i].enabled && defs[i].key == key;
      assert !TakesPlanKey(states, defs);
      if key in states { assert states[defs[i].key].source != ScheduledPlan; }
    }
  }

  // ---------- reconciling one row again ----------

  /** Reconciling twice is reconciling once, and the second time never moves the cursor. */
  lemma {:induction false} ReconcileTwice(states: States, d: Definition, next: Instant, later: Instant, source: Source, enabled: bool)
    requires Reconcile(states, d, next, source, enabled).Some?
    ensures var once := Reconcile(states, d, next, source, enabled).value;
      Reconcile(once, d, later, source, enabled) == Some(once)
  {
    var once := Reconcile(states, d, next, source, enabled).value;
    var twice := Reconcile(once, d, later, source, enabled).value;
    assert twice[d.key] == once[d.key];
    assert twice == once[d.key := once[d.key]] == once;
  }

  /** A reconcile at the stored revision is a definition write that keeps the cursor. */
  lemma {:induction false} SameRevisionKeepsCursor(states: States, d: Definition, next: Instant, source: Source, enabled: bool)
    requires d.key in states && states[d.key].source == source
    ensures var after := Reconcile(states, d, next, source, enabled);
      && after.Some? && after.value == states[d.key := after.value[d.key]] && after.value[d.key].revision == d.revision
      && (states[d.key].revision == d.revision ==> after.value[d.key].nextRun == states[d.key].nextRun)
  {
  }

  // ---------- where a definition starts ----------

  /** What an applied snapshot makes of an enabled definition's row.  A new or changed revision starts at the
      first window of its schedule, or at its own first time if that is earlier; the same revision keeps its
      cursor. */
  lemma {:induction false} SnapshotRowExactly(cal: Calendar, states: States, defs: seq<Definition>, revision: int, now: Instant, i: nat)
    requires DistinctDefinitions(defs) && ApplySnapshot(cal, states, defs, revision, now).Some? && i < |defs| && defs[i].enabled
    ensures var d, after := defs[i], ApplySnapshot(cal, states, defs, revision, now).value;
      var first := cal.next(d.schedule, now);
      && d.key in after
      && var row := after[d.key];
      && row.source == RuntimeDefinition && row.definition == d && row.revision == d.revision && row.enabled && row.snapshotRevision == revision
      && row.nextRun == if d.key in states && states[d.key].revision == d.revision then states[d.key].nextRun
                        else if d.initialNextRun != 0 && d.initialNextRun < first then d.initialNextRun else first
  {
    ApplyRefinesProjection(cal, states, defs, revision, now);
    assert !TakesPlanKey(states, defs);
    assert ApplySnapshot(cal, states, defs, revision, now).value[defs[i].key] == EnabledRow(cal, states, defs[i], revision, now);
  }

  /** And of every other row: a definition the snapshot does not enable is disabled at its revision, and plans
      are left alone. */
  lemma {:induction false} OtherRowsExactly(cal: Calendar, states: States, defs: seq<Definition>, revision: int, now: Instant, key: string)
    requires DistinctDefinitions(defs) && ApplySnapshot(cal, states, defs, revision, now).Some?
    requires forall i :: 0 <= i < |defs| && defs[i].enabled ==> defs[i].key != key
    ensures var after := ApplySnapshot(cal, states, defs, revision, now).value;
      && (key in after <==> key in states)
      && (key in states ==> after[key] == if states[key].source == RuntimeDefinition
                                          then states[key].(enabled := false, snapshotRevision := revision) else states[key])
  {
    ApplyRefinesProjection(cal, states, defs, revision, now);
    assert !Lists(defs, key);
  }
}
