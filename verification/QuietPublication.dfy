/** What the racing services get done when nobody comes between: a session opens, and a publisher of it gets
    its submission published, read back and projected. */
module QuietPublication {
  import opened Options
  import opened StoredTime
  import opened RunTables
  import opened Projection
  import opened Definitions
  import opened DefinitionStore
  import P = Publication

  // ---------- opening a session ----------

  /** Whoever saw the last generation opens the next one, the first one on an empty row; what is published
      stays published. */
  lemma {:induction false} SessionOpens(cal: Calendar, s: P.System, observed: Option<nat>, session: string)
    requires forall u :: u in s.clients ==> !P.LocksRow(s.clients[u])
    ensures var pub, s' := s.shared.pub, P.Step(cal, s, P.OpenSession(observed, session));
      && s'.clients == s.clients && s'.shared == s.shared.(pub := s'.shared.pub)
      && (pub.None? && observed.None? ==> s'.shared.pub == Some(PubRow(Fence(1, session), None)))
      && (pub.Some? && observed == Some(pub.value.active.generation) && pub.value.active.generation < 9_007_199_254_740_991 ==>
            s'.shared.pub == Some(PubRow(Fence(pub.value.active.generation + 1, session), pub.value.cursor)))
      && (pub.None? && observed.Some? ==> s' == s)
      && (pub.Some? && (observed != Some(pub.value.active.generation) || pub.value.active.generation >= 9_007_199_254_740_991) ==> s' == s)
  {
  }

  // ---------- publishing and projecting ----------

  ghost function Advanced(cal: Calendar, s: P.System, t: nat, now: Instant, n: nat): P.System {
    if n == 0 then s else P.Step(cal, Advanced(cal, s, t, now, n - 1), P.Advance(t, now))
  }

  /** Nobody else is in the middle of a publication or a projection. */
  predicate Quiet(s: P.System) {
    forall u :: u in s.clients ==> !P.LocksRow(s.clients[u])
  }

  predicate Waiting(s: P.System, t: nat, sh: P.Shared, c: P.Client, others: map<nat, P.Client>) {
    s == P.System(sh, others[t := c]) && t !in others && forall u :: u in others ==> !P.LocksRow(others[u])
  }

  lemma {:induction false} NobodyLocks(s: P.System, t: nat, sh: P.Shared, c: P.Client, others: map<nat, P.Client>)
    requires Waiting(s, t, sh, c, others)
    ensures !P.RowLocked(s.clients, t)
  {
  }

  /** A submission of the open session that is new there: nothing is published yet, or only in an earlier
      session, or its revision is greater. */
  predicate IsNew(sh: P.Shared, goal: Submission) {
    && sh.pub.Some? && goal.fence == sh.pub.value.active && goal.revision > 0 && !RepeatsKey(goal.definitions)
    && (sh.pub.value.cursor.None? || sh.pub.value.cursor.value.fence.generation < goal.fence.generation
        || sh.pub.value.cursor.value.revision < goal.revision)
  }

  /** One statement of a client that stands in a phase of its own. */
  lemma {:induction false} OneStatement(cal: Calendar, s: P.System, t: nat, now: Instant, n: nat) returns (next: P.System)
    requires P.Inv(Advanced(cal, s, t, now, n))
    ensures next == Advanced(cal, s, t, now, n + 1) == P.Step(cal, Advanced(cal, s, t, now, n), P.Advance(t, now)) && P.Inv(next)
  {
    next := P.Step(cal, Advanced(cal, s, t, now, n), P.Advance(t, now));
    P.StepInv(cal, Advanced(cal, s, t, now, n), P.Advance(t, now));
  }

  lemma {:induction false} Submits(cal: Calendar, s: P.System, t: nat, sh: P.Shared, goal: Submission, others: map<nat, P.Client>, now: Instant)
    requires Waiting(s, t, sh, P.Client(Some(goal), P.Submitting), others) && P.Inv(s) && IsNew(sh, goal)
    ensures Waiting(P.Step(cal, s, P.Advance(t, now)), t, sh, P.Client(Some(goal), P.Observed(sh.pub.value)), others)
  {
    OpenSessionDisposition(sh.pub.value, goal);
  }

  lemma {:induction false} Swaps(cal: Calendar, s: P.System, t: nat, sh: P.Shared, goal: Submission, others: map<nat, P.Client>, now: Instant)
    requires sh.pub.Some? && Waiting(s, t, sh, P.Client(Some(goal), P.Observed(sh.pub.value)), others)
    ensures Waiting(P.Step(cal, s, P.Advance(t, now)), t, sh, P.Client(Some(goal), P.Publishing), others)
  {
    NobodyLocks(s, t, sh, P.Client(Some(goal), P.Observed(sh.pub.value)), others);
  }

  lemma {:induction false} Publishes(cal: Calendar, s: P.System, t: nat, sh: P.Shared, goal: Submission, others: map<nat, P.Client>, now: Instant)
    requires Waiting(s, t, sh, P.Client(Some(goal), P.Publishing), others) && P.Inv(s) && IsNew(sh, goal)
    ensures var after := P.Step(cal, s, P.Advance(t, now));
      && Waiting(after, t, after.shared, P.Client(Some(goal), P.Converging), others) && after.shared.states == sh.states
      && after.shared.published == sh.published + [Cursor(goal.fence, goal.revision, Content(Canonical(goal.definitions)))]
      && CursorOf(after.shared.pub) == Some(Cursor(goal.fence, goal.revision, Content(Canonical(goal.definitions))))
  {
    OpenSessionDisposition(sh.pub.value, goal);
  }

  lemma {:induction false} Joins(cal: Calendar, s: P.System, t: nat, goal: Submission)
    requires P.Inv(s) && Quiet(s) && t !in s.clients && !RepeatsKey(goal.definitions)
    ensures var joined := P.Step(cal, s, P.Join(t, Some(goal)));
      Waiting(joined, t, s.shared, P.Client(Some(goal), P.Submitting), s.clients) && P.Inv(joined)
  {
    P.StepInv(cal, s, P.Join(t, Some(goal)));
  }

  /** Three statements publish it. */
  lemma {:induction false} PublishesAlone(cal: Calendar, s: P.System, t: nat, sh: P.Shared, goal: Submission, others: map<nat, P.Client>, now: Instant)
    returns (after: P.System)
    requires P.Inv(s) && Waiting(s, t, sh, P.Client(Some(goal), P.Submitting), others) && IsNew(sh, goal)
    ensures after == Advanced(cal, s, t, now, 3) && P.Inv(after)
    ensures Waiting(after, t, after.shared, P.Client(Some(goal), P.Converging), others) && after.shared.states == sh.states
    ensures after.shared.published == sh.published + [Cursor(goal.fence, goal.revision, Content(Canonical(goal.definitions)))]
    ensures CursorOf(after.shared.pub) == Some(Cursor(goal.fence, goal.revision, Content(Canonical(goal.definitions))))
  {
    assert Advanced(cal, s, t, now, 0) == s;
    Submits(cal, s, t, sh, goal, others, now);
    var seen := OneStatement(cal, s, t, now, 0);
    Swaps(cal, seen, t, sh, goal, others, now);
    var locked := OneStatement(cal, s, t, now, 1);
    Publishes(cal, locked, t, sh, goal, others, now);
    after := OneStatement(cal, s, t, now, 2);
  }

  lemma {:induction false} SeesSnapshot(cal: Calendar, s: P.System, t: nat, sh: P.Shared, c: P.Client, others: map<nat, P.Client>, now: Instant)
    requires Waiting(s, t, sh, c, others) && c.phase.Converging?
    ensures Waiting(P.Step(cal, s, P.Advance(t, now)), t, sh, c.(phase := P.SawSnapshotRow(sh.snap)), others)
  {
  }

  lemma {:induction false} SeesRows(cal: Calendar, s: P.System, t: nat, sh: P.Shared, c: P.Client, others: map<nat, P.Client>, now: Instant)
    requires Waiting(s, t, sh, c, others) && c.phase.SawSnapshotRow?
    ensures Waiting(P.Step(cal, s, P.Advance(t, now)), t, sh, c.(phase := P.SawRows(c.phase.snap, ReadDefinitions(sh.rows), VersionsOf(sh.rows))), others)
  {
  }

  lemma {:induction false} Concludes(cal: Calendar, s: P.System, t: nat, sh: P.Shared, c: P.Client, others: map<nat, P.Client>, now: Instant)
    requires Waiting(s, t, sh, c, others) && c.phase == P.SawRows(sh.snap, ReadDefinitions(sh.rows), VersionsOf(sh.rows))
    requires P.SharedOk(sh) && sh.published != []
    ensures var last := sh.published[|sh.published| - 1];
      Waiting(P.Step(cal, s, P.Advance(t, now)), t, sh, c.(phase := P.Holding(P.Reading(last, last.content.canonical))), others)
  {
    P.QuietReadReturnsLast(sh);
  }

  /** Three more read it back. */
  lemma {:induction false} ReadsAlone(cal: Calendar, s: P.System, t: nat, sh: P.Shared, c: P.Client, others: map<nat, P.Client>, now: Instant)
    returns (after: P.System)
    requires P.Inv(s) && Waiting(s, t, sh, c, others) && c.phase.Converging? && sh.published != []
    ensures after == Advanced(cal, s, t, now, 3) && P.Inv(after)
    ensures var last := sh.published[|sh.published| - 1];
      Waiting(after, t, sh, c.(phase := P.Holding(P.Reading(last, last.content.canonical))), others)
  {
    assert Advanced(cal, s, t, now, 0) == s;
    SeesSnapshot(cal, s, t, sh, c, others, now);
    var x := OneStatement(cal, s, t, now, 0);
    SeesRows(cal, x, t, sh, c.(phase := P.SawSnapshotRow(sh.snap)), others, now);
    var y := OneStatement(cal, s, t, now, 1);
    Concludes(cal, y, t, sh, c.(phase := P.SawRows(sh.snap, ReadDefinitions(sh.rows), VersionsOf(sh.rows))), others, now);
    after := OneStatement(cal, s, t, now, 2);
  }

  /** And three more project it, unless a definition takes a plan's key. */
  lemma {:induction false} ProjectsAlone(cal: Calendar, s: P.System, t: nat, sh: P.Shared, c: P.Client, others: map<nat, P.Client>, now: Instant)
    returns (after: P.System)
    requires Waiting(s, t, sh, c, others) && c.phase.Holding? && CursorOf(sh.pub) == Some(c.phase.reading.cursor)
    requires ApplySnapshot(cal, sh.states, c.phase.reading.definitions, c.phase.reading.cursor.revision, now).Some?
    ensures after == Advanced(cal, s, t, now, 3)
    ensures t in after.clients && after.clients[t] == c.(phase := P.Finished)
    ensures after.shared.pub == sh.pub && after.shared.projected == Some(c.phase.reading.cursor)
    ensures Some(after.shared.states) == ApplySnapshot(cal, sh.states, c.phase.reading.definitions, c.phase.reading.cursor.revision, now)
  {
    var reading := c.phase.reading;
    NobodyLocks(s, t, sh, c, others);
    var x := P.Step(cal, s, P.Advance(t, now));
    assert x == P.System(sh, others[t := c.(phase := P.Locking(reading, true))]);
    var y := P.Step(cal, x, P.Advance(t, now));
    assert y == P.System(sh, others[t := c.(phase := P.Projecting(reading, true))]);
    after := P.Step(cal, y, P.Advance(t, now));
    assert Advanced(cal, s, t, now, 1) == x && Advanced(cal, s, t, now, 2) == y && Advanced(cal, s, t, now, 3) == after;
  }

  lemma {:induction false} AdvancedThen(cal: Calendar, s: P.System, t: nat, now: Instant, m: nat, n: nat)
    ensures Advanced(cal, s, t, now, m + n) == Advanced(cal, Advanced(cal, s, t, now, m), t, now, n)
    decreases n
  {
    if n > 0 { AdvancedThen(cal, s, t, now, m, n - 1); }
  }

  /** From any reachable state in which nobody holds the row, a publisher of the open session whom nobody
      comes between gets a new submission published, read back and projected: the cursor and the projection
      are its own, and the rows are what its definitions project. */
  lemma {:induction false} ReconcilesAlone(cal: Calendar, states: States, acts: seq<P.Act>, t: nat, goal: Submission, now: Instant)
    requires var s := P.Run(cal, P.Start(states), acts);
      && Quiet(s) && t !in s.clients && IsNew(s.shared, goal)
      && ApplySnapshot(cal, s.shared.states, Canonical(goal.definitions), goal.revision, now).Some?
    ensures var s := P.Run(cal, P.Start(states), acts);
      var after := Advanced(cal, P.Step(cal, s, P.Join(t, Some(goal))), t, now, 9);
      var cursor := Cursor(goal.fence, goal.revision, Content(Canonical(goal.definitions)));
      && t in after.clients && after.clients[t].phase == P.Finished
      && CursorOf(after.shared.pub) == Some(cursor) && after.shared.projected == Some(cursor)
      && ProjectsSnapshot(cal, s.shared.states, after.shared.states, Canonical(goal.definitions), goal.revision, now)
  {
    var s := P.Run(cal, P.Start(states), acts);
    P.StartInv(states);
    P.RunInv(cal, P.Start(states), acts);
    Joins(cal, s, t, goal);
    var after := NineStatements(cal, P.Step(cal, s, P.Join(t, Some(goal))), t, s.shared, goal, s.clients, now);
    CanonicalDistinct(goal.definitions);
    ApplyRefinesProjection(cal, s.shared.states, Canonical(goal.definitions), goal.revision, now);
  }

  lemma {:induction false} NineStatements(cal: Calendar, s: P.System, t: nat, sh: P.Shared, goal: Submission, others: map<nat, P.Client>, now: Instant)
    returns (after: P.System)
    requires P.Inv(s) && Waiting(s, t, sh, P.Client(Some(goal), P.Submitting), others) && IsNew(sh, goal)
    requires ApplySnapshot(cal, sh.states, Canonical(goal.definitions), goal.revision, now).Some?
    ensures after == Advanced(cal, s, t, now, 9) && t in after.clients && after.clients[t].phase == P.Finished
    ensures var cursor := Cursor(goal.fence, goal.revision, Content(Canonical(goal.definitions)));
      CursorOf(after.shared.pub) == Some(cursor) && after.shared.projected == Some(cursor)
    ensures Some(after.shared.states) == ApplySnapshot(cal, sh.states, Canonical(goal.definitions), goal.revision, now)
  {
    var published := PublishesAlone(cal, s, t, sh, goal, others, now);
    var read := ReadsAlone(cal, published, t, published.shared, P.Client(Some(goal), P.Converging), others, now);
    var cursor := Cursor(goal.fence, goal.revision, Content(Canonical(goal.definitions)));
    var c := P.Client(Some(goal), P.Holding(P.Reading(cursor, Canonical(goal.definitions))));
    after := ProjectsAlone(cal, read, t, published.shared, c, others, now);
    AdvancedThen(cal, s, t, now, 3, 3);
    AdvancedThen(cal, s, t, now, 6, 3);
  }
}
