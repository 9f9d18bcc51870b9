/** Many services publishing, reading and projecting definitions at once, statement by statement,
    in the shared (SaaS) deployment.

    Statements read committed rows.  The publication row is locked from the statement that writes
    it to the commit; what a transaction wrote is seen by others only after its commit. */
module Publication {
  import opened Options
  import opened StoredTime
  import opened RunTables
  import opened Projection
  import opened Definitions
  import opened DefinitionStore

  // ---------- the shared tables ----------

  /** The committed rows.  Three records of what happened are kept beside them: every cursor ever
      published, every submission ever accepted, and the cursor of the last committed projection. */
  datatype Shared = Shared(pub: Option<PubRow>, snap: Option<SnapRow>, rows: DefRows, states: States,
                           published: seq<Cursor>, accepted: seq<Cursor>, projected: Option<Cursor>)

  /** A snapshot a service holds, identified by the cursor it was read with. */
  datatype Reading = Reading(cursor: Cursor, definitions: seq<Definition>)

  /** Where a service stands.  With a goal it first publishes; without one it only converges. */
  datatype Phase =
    | Submitting
    | Observed(pub: PubRow)
    | Publishing
    | Converging
    | SawSnapshotRow(snap: Option<SnapRow>)
    | SawRows(snap: Option<SnapRow>, definitions: seq<Definition>, versions: Versions)
    | Holding(reading: Reading)
    | Locking(reading: Reading, locked: bool)
    | Projecting(reading: Reading, locked: bool)
    | Finished
    | Unfenced(result: ReadResult)

  datatype Client = Client(goal: Option<Submission>, phase: Phase)

  datatype System = System(shared: Shared, clients: map<nat, Client>)

  datatype Act = OpenSession(observed: Option<nat>, session: string) | Join(client: nat, goal: Option<Submission>)
               | Advance(client: nat, now: Instant) | Leave(client: nat)

  function Start(states: States): System {
    System(Shared(None, None, map[], states, [], [], None), map[])
  }

  // ---------- locks ----------

  predicate LocksRow(c: Client) {
    c.phase == Publishing || (c.phase.Locking? && c.phase.locked) || (c.phase.Projecting? && c.phase.locked)
  }

  predicate RowLocked(clients: map<nat, Client>, me: nat) {
    exists u :: u in clients && u != me && LocksRow(clients[u])
  }

  // ---------- statements ----------

  function To(s: System, t: nat, phase: Phase): System
    requires t in s.clients
  {
    s.(clients := s.clients[t := s.clients[t].(phase := phase)])
  }

  function Gone(s: System, t: nat): System {
    s.(clients := s.clients - {t})
  }

  function WithCursor(pub: Option<PubRow>, c: Cursor): Option<PubRow> {
    if pub.Some? then Some(pub.value.(cursor := Some(c))) else None
  }

  function Published(shared: Shared, goal: Submission): Shared {
    shared.(pub := WithCursor(shared.pub, CursorFor(goal)),
            snap := Some(SnapRow(goal.revision, goal.revision, ContentOf(goal.definitions))),
            rows := WriteDefinitions(shared.rows, Canonical(goal.definitions), goal.revision),
            published := shared.published + [CursorFor(goal)],
            accepted := shared.accepted + [CursorFor(goal)])
  }

  predicate Matches(pub: Option<PubRow>, c: Cursor) {
    CursorOf(pub) == Some(c)
  }

  /** The third statement of a read: the cursor, checked against the two before. */
  function Concluded(shared: Shared, phase: Phase): Option<Phase>
    requires phase.SawRows?
  {
    var r := ReadSnapshot(phase.snap, phase.definitions, phase.versions, CursorOf(shared.pub));
    if r.Inconsistent? || r.version.None? then None
    else if r.fence.Some? then Some(Holding(Reading(Cursor(r.fence.value, r.revision, r.content.value), r.definitions)))
    else Some(Unfenced(r))
  }

  ghost function Progress(cal: Calendar, s: System, t: nat, now: Instant): System
    requires t in s.clients
  {
    var shared, c := s.shared, s.clients[t];
    match c.phase
    case Submitting =>
      if c.goal.None? then Gone(s, t) else
        (match Evaluate(shared.pub, c.goal.value)
         case Reject(_) => Gone(s, t)
         case Replay => To(s.(shared := shared.(accepted := shared.accepted + [CursorFor(c.goal.value)])), t, Converging)
         case Apply => To(s, t, Observed(shared.pub.value)))
    case Observed(pub) =>
      if shared.pub != Some(pub) then To(s, t, Submitting)
      else if RowLocked(s.clients, t) then s
      else To(s, t, Publishing)
    case Publishing =>
      if c.goal.None? then Gone(s, t) else To(s.(shared := Published(shared, c.goal.value)), t, Converging)
    case Converging => To(s, t, SawSnapshotRow(shared.snap))
    case SawSnapshotRow(snap) => To(s, t, SawRows(snap, ReadDefinitions(shared.rows), VersionsOf(shared.rows)))
    case SawRows(_, _, _) =>
      var next := Concluded(shared, c.phase);
      if next.None? then Gone(s, t) else To(s, t, next.value)
    case Holding(reading) =>
      if !Matches(shared.pub, reading.cursor) then To(s, t, Locking(reading, false))
      else if RowLocked(s.clients, t) then s
      else To(s, t, Locking(reading, true))
    case Locking(reading, locked) =>
      if Matches(shared.pub, reading.cursor) then To(s, t, Projecting(reading, locked)) else To(s, t, Converging)
    case Projecting(reading, locked) =>
      var after := ApplySnapshot(cal, shared.states, reading.definitions, reading.cursor.revision, now);
      if after.None? then Gone(s, t)
      else To(s.(shared := shared.(states := after.value, projected := Some(reading.cursor))), t, Finished)
    case Finished => s
    case Unfenced(_) => s
  }

  ghost function Step(cal: Calendar, s: System, act: Act): System {
    match act
    case OpenSession(observed, session) =>
      var pub := s.shared.pub;
      if exists u :: u in s.clients && LocksRow(s.clients[u]) then s
      else if pub.None? && observed.None? then s.(shared := s.shared.(pub := Some(PubRow(Fence(1, session), None))))
      else if pub.Some? && observed == Some(pub.value.active.generation) && pub.value.active.generation < MAX_GENERATION then
        s.(shared := s.shared.(pub := Some(pub.value.(active := Fence(pub.value.active.generation + 1, session)))))
      else s
    case Join(t, goal) =>
      if t in s.clients || (goal.Some? && RepeatsKey(goal.value.definitions)) then s
      else s.(clients := s.clients[t := Client(goal, if goal.Some? then Submitting else Converging)])
    case Advance(t, now) => if t in s.clients then Progress(cal, s, t, now) else s
    case Leave(t) => Gone(s, t)
  }

  ghost function Run(cal: Calendar, s: System, acts: seq<Act>): System {
    if |acts| == 0 then s else Step(cal, Run(cal, s, acts[..|acts| - 1]), acts[|acts| - 1])
  }

  // ---------- the order of publications ----------

  predicate Before(a: Cursor, b: Cursor) {
    a.fence.generation < b.fence.generation || (a.fence.generation == b.fence.generation && a.revision < b.revision)
  }

  predicate AtOrBeyond(c: Option<Cursor>, goal: Cursor) {
    c.Some? && !Before(c.value, goal)
  }

  ghost predicate Increasing(history: seq<Cursor>) {
    forall i, j :: 0 <= i < j < |history| ==> Before(history[i], history[j])
  }

  // ---------- the invariant ----------

  ghost predicate SharedOk(sh: Shared) {
    && RowsOk(sh.rows)
    && Increasing(sh.published)
    && (sh.published == [] ==> CursorOf(sh.pub).None? && sh.snap.None? && sh.rows == map[])
    && (sh.published != [] ==>
          var last := sh.published[|sh.published| - 1];
          && sh.pub.Some? && sh.pub.value.cursor == Some(last)
          && sh.snap == Some(SnapRow(last.revision, last.revision, last.content))
          && ReadDefinitions(sh.rows) == last.content.canonical)
    && (forall i :: 0 <= i < |sh.published| ==> sh.published[i].revision > 0)
    && (sh.pub.Some? && sh.pub.value.cursor.Some? ==>
          var c, active := sh.pub.value.cursor.value, sh.pub.value.active;
          c.fence.generation <= active.generation && (c.fence.generation == active.generation ==> c.fence == active))
    && (forall a :: a in sh.accepted ==> a in sh.published)
    && (sh.projected.Some? ==> sh.projected.value in sh.published)
  }

  ghost predicate ClientOk(sh: Shared, c: Client) {
    && (c.goal.Some? ==> !RepeatsKey(c.goal.value.definitions))
    && (c.phase.Submitting? || c.phase.Observed? || c.phase.Publishing? || c.goal.None? || AtOrBeyond(CursorOf(sh.pub), CursorFor(c.goal.value)))
    && match c.phase
       case Submitting => true
       case Observed(pub) => c.goal.Some? && Evaluate(Some(pub), c.goal.value) == Apply
       case Publishing => c.goal.Some? && Evaluate(sh.pub, c.goal.value) == Apply
       case Converging => true
       case SawSnapshotRow(snap) => snap.Some? ==> sh.published != []
       case SawRows(snap, definitions, versions) =>
         && (snap.Some? ==> sh.published != [])
         && (versions != NoRows ==> sh.published != [])
         && !RepeatsKey(definitions)
       case Holding(reading) => ReadingOk(sh, c, reading)
       case Locking(reading, locked) =>
         ReadingOk(sh, c, reading) && (if locked then Matches(sh.pub, reading.cursor) else Before(reading.cursor, CursorOf(sh.pub).value))
       case Projecting(reading, locked) => ReadingOk(sh, c, reading) && locked && Matches(sh.pub, reading.cursor)
       case Finished => c.goal.None? || AtOrBeyond(sh.projected, CursorFor(c.goal.value))
       case Unfenced(_) => false
  }

  /** A held snapshot is one that was published, whole, and not older than what its holder published. */
  ghost predicate ReadingOk(sh: Shared, c: Client, reading: Reading) {
    && reading.cursor in sh.published
    && ContentOf(reading.definitions) == reading.cursor.content && !RepeatsKey(reading.definitions)
    && CursorOf(sh.pub).Some? && !Before(CursorOf(sh.pub).value, reading.cursor)
    && (c.goal.Some? ==> !Before(reading.cursor, CursorFor(c.goal.value)))
  }

  ghost predicate Inv(s: System) {
    && SharedOk(s.shared)
    && (forall t :: t in s.clients ==> ClientOk(s.shared, s.clients[t]))
    && (forall t, u :: t in s.clients && u in s.clients && t != u ==> !(LocksRow(s.clients[t]) && LocksRow(s.clients[u])))
  }

  lemma {:induction false} StartInv(states: States)
    ensures Inv(Start(states))
  {
  }

  // ---------- how the shared rows may change under a client ----------

  /** Everything other services may do to the shared rows without holding the row lock of c. */
  ghost predicate MovesForward(sh: Shared, sh': Shared) {
    && |sh.published| <= |sh'.published| && sh'.published[..|sh.published|] == sh.published
    && (CursorOf(sh.pub).Some? ==> CursorOf(sh'.pub).Some? && !Before(CursorOf(sh'.pub).value, CursorOf(sh.pub).value)
                                   && (CursorOf(sh'.pub) != CursorOf(sh.pub) ==> Before(CursorOf(sh.pub).value, CursorOf(sh'.pub).value)))
    && (sh.projected.Some? ==> sh'.projected.Some? && !Before(sh'.projected.value, sh.projected.value))
  }

  lemma {:induction false} InHistoryStays(sh: Shared, sh': Shared, c: Cursor)
    requires MovesForward(sh, sh') && c in sh.published
    ensures c in sh'.published
  {
    var i :| 0 <= i < |sh.published| && sh.published[i] == c;
    assert sh'.published[..|sh.published|][i] == sh'.published[i];
  }

  lemma {:induction false} ClientStaysOk(sh: Shared, sh': Shared, c: Client)
    requires ClientOk(sh, c) && MovesForward(sh, sh')
    requires LocksRow(c) ==> sh'.pub == sh.pub
    ensures ClientOk(sh', c)
  {
    if c.phase.Holding? || c.phase.Locking? || c.phase.Projecting? {
      InHistoryStays(sh, sh', c.phase.reading.cursor);
    }
  }

  // ---------- one step ----------

  /** A client moved to a phase it is entitled to, and nothing else: all is still well. */
  lemma {:induction false} MovedOne(s: System, t: nat, sh': Shared, c': Client)
    requires Inv(s) && t in s.clients
    requires SharedOk(sh') && MovesForward(s.shared, sh') && ClientOk(sh', c')
    requires forall u :: u in s.clients && u != t && LocksRow(s.clients[u]) ==> sh'.pub == s.shared.pub
    requires LocksRow(c') ==> LocksRow(s.clients[t]) || !RowLocked(s.clients, t)
    ensures Inv(System(sh', s.clients[t := c']))
  {
    forall u | u in s.clients && u != t ensures ClientOk(sh', s.clients[u]) { ClientStaysOk(s.shared, sh', s.clients[u]); }
    forall u | u in s.clients && u != t ensures !(LocksRow(c') && LocksRow(s.clients[u])) {
      if LocksRow(c') && !LocksRow(s.clients[t]) { assert !RowLocked(s.clients, t); }
    }
  }

  lemma {:induction false} ForwardSame(sh: Shared)
    ensures MovesForward(sh, sh)
    ensures CursorOf(sh.pub).Some? ==> !Before(CursorOf(sh.pub).value, CursorOf(sh.pub).value)
  {
  }

  /** A publication that passed its compare-and-swap is newer than everything published. */
  lemma {:induction false} PublishStep(sh: Shared, goal: Submission)
    requires SharedOk(sh) && !RepeatsKey(goal.definitions) && Evaluate(sh.pub, goal) == Apply
    ensures SharedOk(Published(sh, goal)) && MovesForward(sh, Published(sh, goal))
    ensures CursorOf(Published(sh, goal).pub) == Some(CursorFor(goal))
    ensures CursorOf(sh.pub).Some? ==> Before(CursorOf(sh.pub).value, CursorFor(goal))
  {
    CanonicalDistinct(goal.definitions);
    CanonicalTwice(goal.definitions);
    PublishThenRead(sh.rows, Canonical(goal.definitions), goal.revision);
    var sh' := Published(sh, goal);
    forall i, j | 0 <= i < j < |sh'.published| ensures Before(sh'.published[i], sh'.published[j]) {
      if j == |sh.published| && i < |sh.published| - 1 { assert Before(sh.published[i], sh.published[|sh.published| - 1]); }
    }
    forall a | a in sh'.accepted ensures a in sh'.published {
      if a in sh.accepted { assert a in sh.published; }
    }
  }

  lemma {:induction false} SubmitStep(cal: Calendar, s: System, t: nat, now: Instant)
    requires Inv(s) && t in s.clients && (s.clients[t].phase.Submitting? || s.clients[t].phase.Observed? || s.clients[t].phase.Publishing?)
    ensures Inv(Progress(cal, s, t, now)) && MovesForward(s.shared, Progress(cal, s, t, now).shared)
  {
    var sh, c := s.shared, s.clients[t];
    ForwardSame(sh);
    match c.phase
    case Submitting =>
      if c.goal.Some? && Evaluate(sh.pub, c.goal.value) == Replay {
        var last := sh.published[|sh.published| - 1];
        assert CursorFor(c.goal.value) == last;
        var sh' := sh.(accepted := sh.accepted + [CursorFor(c.goal.value)]);
        MovedOne(s, t, sh', c.(phase := Converging));
      } else if c.goal.Some? && Evaluate(sh.pub, c.goal.value) == Apply {
        MovedOne(s, t, sh, c.(phase := Observed(sh.pub.value)));
      }
    case Observed(pub) =>
      if sh.pub != Some(pub) { MovedOne(s, t, sh, c.(phase := Submitting)); }
      else if !RowLocked(s.clients, t) { MovedOne(s, t, sh, c.(phase := Publishing)); }
    case Publishing =>
      PublishStep(sh, c.goal.value);
      MovedOne(s, t, Published(sh, c.goal.value), c.(phase := Converging));
    case _ =>
  }

  lemma {:induction false} RowsReadNothing(sh: Shared)
    requires SharedOk(sh)
    ensures VersionsOf(sh.rows) != NoRows ==> sh.published != []
    ensures !RepeatsKey(ReadDefinitions(sh.rows))
  {
    ListingHas(sh.rows, sh.rows.Keys);
    CanonicalDistinct(Listing(sh.rows, sh.rows.Keys));
    if sh.published == [] { assert EnabledVersions(sh.rows) == {}; }
  }

  /** What passes the checks of the last read statement is exactly the publication the cursor names. */
  lemma {:induction false} ConcludedIsPublished(sh: Shared, c: Client)
    requires SharedOk(sh) && ClientOk(sh, c) && c.phase.SawRows?
    ensures var next := Concluded(sh, c.phase);
      next.Some? ==> next.value.Holding? && ReadingOk(sh, c, next.value.reading) && Some(next.value.reading.cursor) == CursorOf(sh.pub)
  {
    var r := ReadSnapshot(c.phase.snap, c.phase.definitions, c.phase.versions, CursorOf(sh.pub));
    if sh.published != [] {
      var last := sh.published[|sh.published| - 1];
      assert last in sh.published;
    }
  }

  lemma {:induction false} ReadStep(cal: Calendar, s: System, t: nat, now: Instant)
    requires Inv(s) && t in s.clients && (s.clients[t].phase.Converging? || s.clients[t].phase.SawSnapshotRow? || s.clients[t].phase.SawRows?)
    ensures Inv(Progress(cal, s, t, now)) && Progress(cal, s, t, now).shared == s.shared
  {
    var sh, c := s.shared, s.clients[t];
    ForwardSame(sh);
    match c.phase
    case Converging => MovedOne(s, t, sh, c.(phase := SawSnapshotRow(sh.snap)));
    case SawSnapshotRow(snap) =>
      RowsReadNothing(sh);
      MovedOne(s, t, sh, c.(phase := SawRows(snap, ReadDefinitions(sh.rows), VersionsOf(sh.rows))));
    case SawRows(_, _, _) =>
      ConcludedIsPublished(sh, c);
      if Concluded(sh, c.phase).Some? { MovedOne(s, t, sh, c.(phase := Concluded(sh, c.phase).value)); }
    case _ =>
  }

  /** A held snapshot that is not the canonical one any more is older than it, for good. */
  lemma {:induction false} NotCurrentIsOlder(sh: Shared, c: Client, reading: Reading)
    requires SharedOk(sh) && ReadingOk(sh, c, reading) && !Matches(sh.pub, reading.cursor)
    ensures Before(reading.cursor, CursorOf(sh.pub).value)
  {
    var i :| 0 <= i < |sh.published| && sh.published[i] == reading.cursor;
    assert i < |sh.published| - 1;
  }

  lemma {:induction false} ProjectStep(cal: Calendar, s: System, t: nat, now: Instant)
    requires Inv(s) && t in s.clients && (s.clients[t].phase.Holding? || s.clients[t].phase.Locking? || s.clients[t].phase.Projecting?)
    ensures Inv(Progress(cal, s, t, now)) && MovesForward(s.shared, Progress(cal, s, t, now).shared)
  {
    var sh, c := s.shared, s.clients[t];
    ForwardSame(sh);
    match c.phase
    case Holding(reading) =>
      if !Matches(sh.pub, reading.cursor) {
        NotCurrentIsOlder(sh, c, reading);
        MovedOne(s, t, sh, c.(phase := Locking(reading, false)));
      } else if !RowLocked(s.clients, t) {
        MovedOne(s, t, sh, c.(phase := Locking(reading, true)));
      }
    case Locking(reading, locked) =>
      if Matches(sh.pub, reading.cursor) {
        MovedOne(s, t, sh, c.(phase := Projecting(reading, locked)));
      } else {
        MovedOne(s, t, sh, c.(phase := Converging));
      }
    case Projecting(reading, locked) =>
      var after := ApplySnapshot(cal, sh.states, reading.definitions, reading.cursor.revision, now);
      if after.Some? {
        var sh' := sh.(states := after.value, projected := Some(reading.cursor));
        ProjectedMovesForward(sh, reading.cursor, after.value);
        MovedOne(s, t, sh', c.(phase := Finished));
      }
    case _ =>
  }

  lemma {:induction false} ProjectedMovesForward(sh: Shared, c: Cursor, states: States)
    requires SharedOk(sh) && Matches(sh.pub, c)
    ensures var sh' := sh.(states := states, projected := Some(c)); SharedOk(sh') && MovesForward(sh, sh')
  {
    assert sh.published != [];
    var last := sh.published[|sh.published| - 1];
    assert last == c && c in sh.published;
    if sh.projected.Some? {
      var i :| 0 <= i < |sh.published| && sh.published[i] == sh.projected.value;
      assert i < |sh.published| - 1 ==> Before(sh.published[i], last);
    }
  }

  lemma {:induction false} SessionStep(cal: Calendar, s: System, act: Act)
    requires Inv(s) && act.OpenSession?
    ensures Inv(Step(cal, s, act)) && MovesForward(s.shared, Step(cal, s, act).shared)
  {
    ForwardSame(s.shared);
    var s' := Step(cal, s, act);
    if s' != s {
      forall u | u in s.clients ensures ClientOk(s'.shared, s.clients[u]) { ClientStaysOk(s.shared, s'.shared, s.clients[u]); }
    }
  }

  lemma {:induction false} StepInv(cal: Calendar, s: System, act: Act)
    requires Inv(s)
    ensures Inv(Step(cal, s, act)) && MovesForward(s.shared, Step(cal, s, act).shared)
  {
    ForwardSame(s.shared);
    match act
    case OpenSession(_, _) => SessionStep(cal, s, act);
    case Join(t, goal) =>
    case Leave(t) =>
    case Advance(t, now) =>
      if t in s.clients {
        var p := s.clients[t].phase;
        if p.Submitting? || p.Observed? || p.Publishing? { SubmitStep(cal, s, t, now); }
        else if p.Converging? || p.SawSnapshotRow? || p.SawRows? { ReadStep(cal, s, t, now); }
        else if p.Holding? || p.Locking? || p.Projecting? { ProjectStep(cal, s, t, now); }
      }
  }

  lemma {:induction false} RunInv(cal: Calendar, s: System, acts: seq<Act>)
    requires Inv(s)
    ensures Inv(Run(cal, s, acts)) && MovesForward(s.shared, Run(cal, s, acts).shared)
  {
    ForwardSame(s.shared);
    if |acts| > 0 {
      var before := Run(cal, s, acts[..|acts| - 1]);
      RunInv(cal, s, acts[..|acts| - 1]);
      StepInv(cal, before, acts[|acts| - 1]);
      ForwardTwice(s.shared, before.shared, Step(cal, before, acts[|acts| - 1]).shared);
    }
  }

  lemma {:induction false} ForwardTwice(a: Shared, b: Shared, c: Shared)
    requires MovesForward(a, b) && MovesForward(b, c)
    ensures MovesForward(a, c)
  {
    assert c.published[..|a.published|] == c.published[..|b.published|][..|a.published|];
  }

  // ---------- what every interleaving guarantees ----------

  /** Publications only ever move the cursor strictly forward in (generation, revision), never past
      the open session. */
  lemma {:induction false} PublicationsOnlyAdvance(cal: Calendar, states: States, acts: seq<Act>)
    ensures var sh := Run(cal, Start(states), acts).shared;
      && Increasing(sh.published)
      && (sh.published != [] ==> CursorOf(sh.pub) == Some(sh.published[|sh.published| - 1]))
      && (CursorOf(sh.pub).Some? ==> CursorOf(sh.pub).value.fence.generation <= sh.pub.value.active.generation)
  {
    StartInv(states);
    RunInv(cal, Start(states), acts);
  }

  function ActiveGeneration(sh: Shared): nat {
    if sh.pub.Some? then sh.pub.value.active.generation else 0
  }

  /** A step accepts at most one submission, and only of the session open at that moment. */
  lemma {:induction false} AcceptsOnlyOpenSession(cal: Calendar, s: System, act: Act)
    requires Inv(s)
    ensures var sh, sh' := s.shared, Step(cal, s, act).shared;
      && ActiveGeneration(sh) <= ActiveGeneration(sh')
      && (sh'.accepted == sh.accepted
          || (|sh'.accepted| == |sh.accepted| + 1 && sh'.accepted[..|sh.accepted|] == sh.accepted
              && sh.pub.Some? && sh'.accepted[|sh.accepted|].fence == sh.pub.value.active))
  {
    if act.Advance? && act.client in s.clients && s.clients[act.client].phase.Publishing? {
      assert ClientOk(s.shared, s.clients[act.client]);
    }
  }

  /** From one moment to a later one: what was accepted since is of no session older than the one
      that was open then. */
  ghost predicate NothingRetired(a: Shared, b: Shared) {
    && |a.accepted| <= |b.accepted| && ActiveGeneration(a) <= ActiveGeneration(b)
    && forall i :: |a.accepted| <= i < |b.accepted| ==> b.accepted[i].fence.generation >= ActiveGeneration(a)
  }

  lemma {:induction false} StepRetires(cal: Calendar, a: Shared, s: System, act: Act)
    requires Inv(s) && NothingRetired(a, s.shared)
    ensures NothingRetired(a, Step(cal, s, act).shared)
  {
    AcceptsOnlyOpenSession(cal, s, act);
    var b, c := s.shared, Step(cal, s, act).shared;
    forall i | |a.accepted| <= i < |c.accepted| ensures c.accepted[i].fence.generation >= ActiveGeneration(a) {
      if i < |b.accepted| { assert c.accepted[i] == b.accepted[i]; }
    }
  }

  /** Once a session is open, nothing of an older session is ever accepted again. */
  lemma {:induction false} RetiredSessionsStayRetired(cal: Calendar, s: System, acts: seq<Act>)
    requires Inv(s)
    ensures NothingRetired(s.shared, Run(cal, s, acts).shared)
  {
    if |acts| > 0 {
      var init := acts[..|acts| - 1];
      RetiredSessionsStayRetired(cal, s, init);
      RunInv(cal, s, init);
      StepRetires(cal, s.shared, Run(cal, s, init), acts[|acts| - 1]);
    }
  }

  /** Two accepted snapshots of one generation and revision are one snapshot. */
  lemma {:induction false} AcceptedRevisionsAreUnique(cal: Calendar, states: States, acts: seq<Act>, a: Cursor, b: Cursor)
    requires var sh := Run(cal, Start(states), acts).shared; a in sh.accepted && b in sh.accepted
    requires a.fence.generation == b.fence.generation && a.revision == b.revision
    ensures a == b
  {
    StartInv(states);
    RunInv(cal, Start(states), acts);
    var sh := Run(cal, Start(states), acts).shared;
    var i :| 0 <= i < |sh.published| && sh.published[i] == a;
    var j :| 0 <= j < |sh.published| && sh.published[j] == b;
    assert Increasing(sh.published);
    assert i == j;
  }

  /** A snapshot read in three statements, with publications in between, is one that was published:
      its fence, revision and content together, with exactly the definitions of that content. */
  lemma {:induction false} ReadsAreNeverTorn(cal: Calendar, states: States, acts: seq<Act>, t: nat)
    requires var s := Run(cal, Start(states), acts); t in s.clients && s.clients[t].phase.Holding?
    ensures var s := Run(cal, Start(states), acts);
      var reading := s.clients[t].phase.reading;
      && reading.cursor in s.shared.published
      && ContentOf(reading.definitions) == reading.cursor.content
  {
    StartInv(states);
    RunInv(cal, Start(states), acts);
    assert ClientOk(Run(cal, Start(states), acts).shared, Run(cal, Start(states), acts).clients[t]);
  }

  /** A read that finds content always finds its fence with it. */
  lemma {:induction false} ReadsAreNeverUnfenced(cal: Calendar, states: States, acts: seq<Act>, t: nat)
    requires t in Run(cal, Start(states), acts).clients
    ensures !Run(cal, Start(states), acts).clients[t].phase.Unfenced?
  {
    StartInv(states);
    RunInv(cal, Start(states), acts);
    assert ClientOk(Run(cal, Start(states), acts).shared, Run(cal, Start(states), acts).clients[t]);
  }

  /** With nobody in between, a read returns what was last published. */
  lemma {:induction false} QuietReadReturnsLast(sh: Shared)
    requires SharedOk(sh) && sh.published != []
    ensures var last := sh.published[|sh.published| - 1];
      ReadSnapshot(sh.snap, ReadDefinitions(sh.rows), VersionsOf(sh.rows), CursorOf(sh.pub))
        == Snapshot(last.revision, Some(last.revision), Some(last.fence), Some(last.content), last.content.canonical)
  {
    ListingHas(sh.rows, sh.rows.Keys);
    CanonicalTwice(Listing(sh.rows, sh.rows.Keys));
  }

  /** The lock update may match no row, and the cursor is then read without a lock; it still cannot
      be the held one, because cursors never come back. */
  lemma {:induction false} MissedLockNeverProjects(cal: Calendar, states: States, acts: seq<Act>, t: nat)
    requires var s := Run(cal, Start(states), acts);
      t in s.clients && s.clients[t].phase.Locking? && !s.clients[t].phase.locked
    ensures var s := Run(cal, Start(states), acts); !Matches(s.shared.pub, s.clients[t].phase.reading.cursor)
  {
    StartInv(states);
    RunInv(cal, Start(states), acts);
    assert ClientOk(Run(cal, Start(states), acts).shared, Run(cal, Start(states), acts).clients[t]);
  }

  /** A committed projection: of the canonical cursor, with rows exactly as the published definitions
      project. */
  ghost predicate ProjectedCanonically(cal: Calendar, sh: Shared, sh': Shared) {
    && CursorOf(sh'.pub).Some? && sh'.projected == CursorOf(sh'.pub)
    && exists definitions: seq<Definition>, now: Instant ::
         && ContentOf(definitions) == CursorOf(sh'.pub).value.content
         && ProjectsSnapshot(cal, sh.states, sh'.states, definitions, CursorOf(sh'.pub).value.revision, now)
  }

  lemma {:induction false} ProjectingCommits(cal: Calendar, s: System, t: nat, now: Instant)
    requires Inv(s) && t in s.clients && s.clients[t].phase.Projecting?
    ensures var sh, sh' := s.shared, Progress(cal, s, t, now).shared;
      sh' == sh || ProjectedCanonically(cal, sh, sh')
  {
    var reading := s.clients[t].phase.reading;
    assert ClientOk(s.shared, s.clients[t]);
    assert !RepeatsKey(reading.definitions);
    ApplyRefinesProjection(cal, s.shared.states, reading.definitions, reading.cursor.revision, now);
    assert ContentOf(reading.definitions) == reading.cursor.content;
  }

  /** The cursor of the last committed projection never goes back. */
  lemma {:induction false} ProjectionNeverRegresses(cal: Calendar, s: System, acts: seq<Act>)
    requires Inv(s) && s.shared.projected.Some?
    ensures AtOrBeyond(Run(cal, s, acts).shared.projected, s.shared.projected.value)
  {
    RunInv(cal, s, acts);
  }

  /** And the projection changes only by committing one of the canonical cursor of that moment, which
      makes the rows exactly what the published definitions project. */
  lemma {:induction false} ProjectionIsCanonical(cal: Calendar, s: System, act: Act)
    requires Inv(s)
    ensures var sh, sh' := s.shared, Step(cal, s, act).shared;
      (sh'.projected == sh.projected && sh'.states == sh.states) || ProjectedCanonically(cal, sh, sh')
  {
    if act.Advance? && act.client in s.clients && s.clients[act.client].phase.Projecting? {
      ProjectingCommits(cal, s, act.client, act.now);
    }
  }

  /** Once a publisher's reconcile has succeeded, the canonical cursor and the projection are at or
      beyond what it submitted, then and ever after. */
  lemma {:induction false} ReconcileSuccessIsLasting(cal: Calendar, states: States, acts: seq<Act>, t: nat, more: seq<Act>)
    requires var s := Run(cal, Start(states), acts);
      t in s.clients && s.clients[t].phase.Finished? && s.clients[t].goal.Some?
    ensures var s := Run(cal, Start(states), acts);
      var goal, later := CursorFor(s.clients[t].goal.value), Run(cal, s, more).shared;
      && AtOrBeyond(CursorOf(s.shared.pub), goal) && AtOrBeyond(s.shared.projected, goal)
      && AtOrBeyond(CursorOf(later.pub), goal) && AtOrBeyond(later.projected, goal)
  {
    StartInv(states);
    RunInv(cal, Start(states), acts);
    var s := Run(cal, Start(states), acts);
    assert ClientOk(s.shared, s.clients[t]);
    RunInv(cal, s, more);
  }
}
