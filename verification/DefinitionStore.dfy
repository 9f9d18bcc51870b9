/** The definition store: publisher sessions, fenced publication and the canonical snapshot. */
module DefinitionStore {
  import opened TextOrder
  import opened Options
  import opened Multisets
  import opened RunTables
  import opened Definitions

  datatype Fence = Fence(generation: nat, session: string)

  datatype Cursor = Cursor(fence: Fence, revision: int, content: Content)

  /** The publication row: the open session, and the last publication once there is one. */
  datatype PubRow = PubRow(active: Fence, cursor: Option<Cursor>)

  datatype SnapRow = SnapRow(revision: int, version: int, content: Content)

  datatype Submission = Submission(fence: Fence, revision: int, definitions: seq<Definition>)

  datatype Rejection = SessionRequired | Stale | SessionMismatch | Conflict

  datatype Disposition = Apply | Replay | Reject(why: Rejection)

  /** The largest generation the protocol can carry as a JSON number. */
  const MAX_GENERATION: nat := 0x1F_FFFF_FFFF_FFFF

  function CursorFor(s: Submission): Cursor {
    Cursor(s.fence, s.revision, ContentOf(s.definitions))
  }

  /** How a submission stands against the publication row. */
  function Evaluate(pub: Option<PubRow>, s: Submission): Disposition {
    if pub.None? then Reject(SessionRequired)
    else if s.revision <= 0 then Reject(Conflict)
    else if s.fence != pub.value.active then
      if s.fence.generation < pub.value.active.generation then Reject(Stale) else Reject(SessionMismatch)
    else if pub.value.cursor.None? then Apply
    else
      var c := pub.value.cursor.value;
      if s.fence.generation < c.fence.generation then Reject(Stale)
      else if s.fence.generation > c.fence.generation then Apply
      else if s.fence != c.fence then Reject(Conflict)
      else if s.revision < c.revision then Reject(Stale)
      else if s.revision > c.revision then Apply
      else if ContentOf(s.definitions) != c.content then Reject(Conflict)
      else Replay
  }

  /** A submission with the fence of the open session and a positive revision: it is applied if and only if
      nothing is published yet, what is published is of an earlier session, or its revision is greater; it is
      a replay if and only if revision and content are what is published; a published later session or
      revision makes it stale; and it conflicts with another session of its generation, or with other content
      under its revision. */
  lemma {:induction false} OpenSessionDisposition(pub: PubRow, s: Submission)
    requires s.fence == pub.active && s.revision > 0
    ensures var d := Evaluate(Some(pub), s);
      if pub.cursor.None? then d == Apply else
        var c := pub.cursor.value;
        var same, sameContent := c.fence == s.fence, Canonical(s.definitions) == c.content.canonical;
        && (d == Apply <==> c.fence.generation < s.fence.generation || (same && s.revision > c.revision))
        && (d == Replay <==> same && s.revision == c.revision && sameContent)
        && (d == Reject(Stale) <==> c.fence.generation > s.fence.generation || (same && s.revision < c.revision))
        && (d == Reject(Conflict) <==> (c.fence.generation == s.fence.generation && !same) || (same && s.revision == c.revision && !sameContent))
  {
  }

  /** Any other submission is turned away: without a session there is none to publish in, a revision that is
      not positive conflicts, an older session is stale, and an unknown one does not match. */
  lemma {:induction false} OtherSubmissionsRejected(pub: Option<PubRow>, s: Submission)
    requires pub.None? || s.revision <= 0 || s.fence != pub.value.active
    ensures Evaluate(pub, s) == Reject(if pub.None? then SessionRequired
                                       else if s.revision <= 0 then Conflict
                                       else if s.fence.generation < pub.value.active.generation then Stale
                                       else SessionMismatch)
  {
  }

  // ---------- reading the canonical snapshot ----------

  /** The schema versions seen on the enabled rows. */
  datatype Versions = NoRows | OneVersion(version: int) | Mixed

  datatype ReadResult = Inconsistent | Snapshot(revision: int, version: Option<int>, fence: Option<Fence>, content: Option<Content>,
                                                definitions: seq<Definition>)

  function CursorOf(pub: Option<PubRow>): Option<Cursor> {
    if pub.Some? then pub.value.cursor else None
  }

  /** What a read returns from the three things it saw: the snapshot row, the enabled definitions in
      key order with their versions, and the publication cursor. */
  function ReadSnapshot(snap: Option<SnapRow>, definitions: seq<Definition>, versions: Versions, cursor: Option<Cursor>): ReadResult {
    if snap.None? && versions.Mixed? then Inconsistent else
      var version := if snap.Some? then Some(snap.value.version) else if versions.OneVersion? then Some(versions.version) else None;
      if snap.None? && versions.OneVersion? && versions.version < 0 then Inconsistent else
        var revision := if snap.Some? then snap.value.revision else if versions.OneVersion? then versions.version else 0;
        var content := ContentOf(definitions);
        if snap.Some? && snap.value.content != content then Inconsistent
        else if cursor.None? then Snapshot(revision, version, None, None, definitions)
        else if cursor.value.revision != revision || cursor.value.content != content then Inconsistent
        else Snapshot(revision, version, Some(cursor.value.fence), Some(content), definitions)
  }

  /** A read is inconsistent exactly when there is no snapshot row and the definition rows disagree on their
      version, or name one that cannot be, or when the rows do not have the content of the snapshot row, or the
      cursor is of another revision or content.  Otherwise it is what the rows say, under the fence of the cursor. */
  lemma {:induction false} ReadExactly(snap: Option<SnapRow>, definitions: seq<Definition>, versions: Versions, cursor: Option<Cursor>)
    ensures var r := ReadSnapshot(snap, definitions, versions, cursor);
      var revision := if snap.Some? then snap.value.revision else if versions.OneVersion? then versions.version else 0;
      var torn := || (snap.None? && (versions.Mixed? || (versions.OneVersion? && versions.version < 0)))
                  || (snap.Some? && snap.value.content.canonical != Canonical(definitions))
                  || (cursor.Some? && (cursor.value.revision != revision || cursor.value.content.canonical != Canonical(definitions)));
      && (r.Inconsistent? <==> torn)
      && (!torn ==>
            && r.revision == revision && r.definitions == definitions
            && (r.version.None? <==> snap.None? && versions.NoRows?)
            && (r.fence.Some? <==> cursor.Some?) && (r.content.Some? <==> cursor.Some?)
            && (cursor.Some? ==> r.fence.value == cursor.value.fence && r.content.value.canonical == Canonical(definitions)))
  {
  }

  /** The engine's answer to the definition query: each enabled row once, in any order. */
  ghost predicate AnswersDefinitions(rows: DefRows, listed: seq<DefRow>) {
    && (forall r :: r in listed <==> r.definition.key in rows && rows[r.definition.key] == r && !r.disabled)
    && (forall i, j :: 0 <= i < j < |listed| ==> listed[i].definition.key != listed[j].definition.key)
  }

  function EnabledVersions(rows: DefRows): set<int> {
    set key | key in rows && !rows[key].disabled :: rows[key].version
  }

  ghost function VersionsIn(seen: set<int>): Versions {
    if exists v :: v in seen then
      var v :| v in seen;
      if seen == {v} then OneVersion(v) else Mixed
    else NoRows
  }

  ghost function VersionsOf(rows: DefRows): Versions {
    VersionsIn(EnabledVersions(rows))
  }

  /** Rows agree on a version, or there are none, or they do not agree. */
  lemma {:induction false} VersionsExactly(rows: DefRows)
    ensures var seen := VersionsOf(rows);
      && (seen == NoRows <==> forall key :: key in rows ==> rows[key].disabled)
      && (seen == Mixed <==> exists a, b :: a in rows && b in rows && !rows[a].disabled && !rows[b].disabled && rows[a].version != rows[b].version)
      && (seen.OneVersion? ==> forall key :: key in rows && !rows[key].disabled ==> rows[key].version == seen.version)
  {
    var seen := EnabledVersions(rows);
    if v :| v in seen {
      var key :| key in rows && !rows[key].disabled && rows[key].version == v;
      if seen != {v} {
        var u :| u in seen && u != v;
        var other :| other in rows && !rows[other].disabled && rows[other].version == u;
        assert seen != {rows[key].version};
      }
    }
    if a, b :| a in rows && b in rows && !rows[a].disabled && !rows[b].disabled && rows[a].version != rows[b].version {
      assert rows[a].version in seen && rows[b].version in seen;
    }
    forall key | key in rows && !rows[key].disabled ensures rows[key].version in seen {}
  }

  datatype SyncResult = Synced(disposition: Disposition) | Refused(why: SyncError)

  datatype SyncError = IdentityRequired | RepeatedKey | ContentMismatch | FenceForbidden | FenceRequired

  datatype SessionResult = Opened(fence: Fence) | CapabilityRequired | Exhausted

  class DefinitionStore {
    const saas: bool
    var pub: Option<PubRow>
    var snap: Option<SnapRow>
    var rows: DefRows

    ghost predicate Valid()
      reads this
    {
      RowsOk(rows)
    }

    constructor (saas: bool)
      ensures this.saas == saas && Valid() && pub == None && snap == None && rows == map[]
    {
      this.saas, pub, snap, rows := saas, None, None, map[];
    }

    /** Opens a publisher session: the next generation, with the caller's session digest; what was
        published stays the published content. */
    method BeginSession(session: string) returns (r: SessionResult)
      modifies this`pub
      ensures r == (if !saas then CapabilityRequired
                    else if old(pub).None? then Opened(Fence(1, session))
                    else if old(pub).value.active.generation >= MAX_GENERATION then Exhausted
                    else Opened(Fence(old(pub).value.active.generation + 1, session)))
      ensures r.Opened? ==> pub == Some(PubRow(r.fence, CursorOf(old(pub))))
      ensures !r.Opened? ==> pub == old(pub)
    {
      if !saas { return CapabilityRequired; }
      if pub.None? {
        pub := Some(PubRow(Fence(1, session), None));
        return Opened(Fence(1, session));
      }
      var generation := pub.value.active.generation;
      if generation >= MAX_GENERATION { return Exhausted; }
      pub := Some(pub.value.(active := Fence(generation + 1, session)));
      return Opened(Fence(generation + 1, session));
    }

    method AcceptFenced(fence: Fence, revision: int, content: Content, ghost s: Submission) returns (d: Disposition)
      requires CursorFor(s) == Cursor(fence, revision, content)
      modifies this`pub
      ensures d == Evaluate(old(pub), s)
      ensures pub == if d == Apply then Some(old(pub).value.(cursor := Some(CursorFor(s)))) else old(pub)
    {
      if pub.None? { return Reject(SessionRequired); }
      var active, current := pub.value.active, pub.value.cursor;
      if revision <= 0 { return Reject(Conflict); }
      if fence != active {
        if fence.generation < active.generation { return Reject(Stale); }
        return Reject(SessionMismatch);
      }
      if current.Some? {
        if fence.generation < current.value.fence.generation { return Reject(Stale); }
        if fence.generation == current.value.fence.generation {
          if fence != current.value.fence { return Reject(Conflict); }
          if revision < current.value.revision { return Reject(Stale); }
          if revision == current.value.revision {
            return if content != current.value.content then Reject(Conflict) else Replay;
          }
        }
      }
      pub := Some(pub.value.(cursor := Some(Cursor(fence, revision, content))));
      return Apply;
    }

    method WriteRows(encoded: seq<Definition>, version: int)
      requires Valid() && !RepeatsKey(encoded)
      modifies this`rows
      ensures Valid() && rows == WriteDefinitions(old(rows), encoded, version)
    {
      rows := map key | key in rows :: rows[key].(disabled := true);
      var i := 0;
      while i < |encoded|
        invariant 0 <= i <= |encoded|
        invariant rows == UpsertAll(DisableAll(old(rows)), encoded[..i], version)
      {
        assert encoded[..i + 1][..i] == encoded[..i];
        if encoded[i].key in rows {
          rows := rows[encoded[i].key := rows[encoded[i].key].(definition := encoded[i], version := version, disabled := false)];
        } else {
          rows := rows[encoded[i].key := DefRow(encoded[i], version, false)];
        }
        i := i + 1;
      }
      assert encoded[..i] == encoded;
      UpsertedRows(DisableAll(old(rows)), encoded, version);
    }

    /** Publishes a snapshot.  Without a fence (the embedded deployment) it always replaces what is
        there; with one it replaces it exactly when the submission is newer. */
    method SyncDefinitions(fence: Option<Fence>, revision: int, version: int, claimed: Option<Content>, definitions: seq<Definition>)
      returns (r: SyncResult)
      requires Valid()
      modifies this
      ensures Valid()
      ensures r.Refused? <==> revision <= 0 || RepeatsKey(definitions) || (claimed.Some? && claimed.value != ContentOf(definitions))
                              || (saas <==> fence.None?)
      ensures r.Refused? ==> r.why == (if revision <= 0 then IdentityRequired else if RepeatsKey(definitions) then RepeatedKey
                                       else if claimed.Some? && claimed.value != ContentOf(definitions) then ContentMismatch
                                       else if saas then FenceRequired else FenceForbidden)
      ensures r.Synced? && fence.Some? ==>
        var s := Submission(fence.value, revision, definitions);
        && r.disposition == Evaluate(old(pub), s)
        && pub == if r.disposition == Apply then Some(old(pub).value.(cursor := Some(CursorFor(s)))) else old(pub)
      ensures r.Synced? && fence.None? ==> r.disposition == Apply && pub == old(pub)
      ensures r.Synced? && r.disposition == Apply ==>
        snap == Some(SnapRow(revision, version, ContentOf(definitions))) && ReadDefinitions(rows) == Canonical(definitions)
      ensures r.Refused? || r.disposition != Apply ==> pub == old(pub) && snap == old(snap) && rows == old(rows)
    {
      if revision <= 0 { return Refused(IdentityRequired); }
      var encoded := EncodeDefinitions(definitions);
      if encoded.None? { return Refused(RepeatedKey); }
      var (values, content) := encoded.value;
      if claimed.Some? && claimed.value != content { return Refused(ContentMismatch); }
      if !saas && fence.Some? { return Refused(FenceForbidden); }
      if saas && fence.None? { return Refused(FenceRequired); }
      if fence.Some? {
        var d := AcceptFenced(fence.value, revision, content, Submission(fence.value, revision, definitions));
        if d != Apply { return Synced(d); }
      }
      snap := Some(SnapRow(revision, version, content));
      CanonicalDistinct(definitions);
      PublishThenRead(rows, values, version);
      CanonicalTwice(definitions);
      WriteRows(values, version);
      return Synced(Apply);
    }

    /** Reads the canonical snapshot from the rows the engine lists. */
    method DefinitionSnapshot(listed: seq<DefRow>) returns (r: ReadResult)
      requires Valid() && AnswersDefinitions(rows, listed)
      ensures r == ReadSnapshot(snap, ReadDefinitions(rows), VersionsOf(rows), CursorOf(pub))
    {
      var definitions, seen := [], {};
      var i := 0;
      while i < |listed|
        invariant 0 <= i <= |listed|
        invariant |definitions| == i && forall j :: 0 <= j < i ==> definitions[j] == listed[j].definition
        invariant seen == set j | 0 <= j < i :: listed[j].version
      {
        definitions := definitions + [listed[i].definition];
        seen := seen + {listed[i].version};
        i := i + 1;
      }
      ListedVersions(rows, listed);
      ListedDefinitions(rows, listed, definitions);
      definitions := SortBy(KeyOf, definitions);
      var versions: Versions;
      if |seen| == 0 {
        versions := NoRows;
      } else {
        var v :| v in seen;
        versions := if seen == {v} then OneVersion(v) else Mixed;
        SingleVersion(seen, v);
      }
      r := ReadSnapshot(snap, definitions, versions, CursorOf(pub));
    }
  }

  lemma {:induction false} SingleVersion(seen: set<int>, v: int)
    requires v in seen
    ensures VersionsIn(seen) == if seen == {v} then OneVersion(v) else Mixed
  {
    var w :| w in seen && VersionsIn(seen) == if seen == {w} then OneVersion(w) else Mixed;
    if seen == {v} || seen == {w} { assert v == w; }
  }

  lemma {:induction false} ListedVersions(rows: DefRows, listed: seq<DefRow>)
    requires RowsOk(rows) && AnswersDefinitions(rows, listed)
    ensures (set j | 0 <= j < |listed| :: listed[j].version) == EnabledVersions(rows)
  {
    var seen := set j | 0 <= j < |listed| :: listed[j].version;
    forall v ensures v in seen <==> v in EnabledVersions(rows) {
      if v in seen {
        var j :| 0 <= j < |listed| && listed[j].version == v;
        assert listed[j] in listed;
      }
      if v in EnabledVersions(rows) {
        var key :| key in rows && !rows[key].disabled && rows[key].version == v;
        assert rows[key] in listed;
      }
    }
  }

  lemma {:induction false} ListedDefinitions(rows: DefRows, listed: seq<DefRow>, definitions: seq<Definition>)
    requires RowsOk(rows) && AnswersDefinitions(rows, listed)
    requires |definitions| == |listed| && forall j :: 0 <= j < |listed| ==> definitions[j] == listed[j].definition
    ensures SortBy(KeyOf, definitions) == ReadDefinitions(rows)
  {
    ListingHas(rows, rows.Keys);
    var listing := Listing(rows, rows.Keys);
    forall d ensures d in listing <==> d in definitions {
      if d in definitions {
        var j :| 0 <= j < |listed| && definitions[j] == d;
        assert listed[j] in listed;
      }
      if d in listing {
        var r := rows[d.key];
        assert r in listed;
        var j :| 0 <= j < |listed| && listed[j] == r;
        assert definitions[j] == d;
      }
    }
    forall i, j | 0 <= i < j < |definitions| ensures definitions[i].key != definitions[j].key {
      assert definitions[i].key == listed[i].definition.key && definitions[j].key == listed[j].definition.key;
    }
    SameMembersSameMultiset(listing, definitions);
    ContentIsUpToOrder(listing, definitions);
  }

  lemma {:induction false} CanonicalDistinct(defs: seq<Definition>)
    requires !RepeatsKey(defs)
    ensures !RepeatsKey(Canonical(defs))
  {
    CanonicalKeepsKeys(defs);
    var c := Canonical(defs);
    forall i, j | 0 <= i < j < |c| ensures c[i].key != c[j].key {
      NoRepeatsOnce(defs, c[i]);
      if c[i] == c[j] { TwiceInMultiset(c, i, j); }
      assert c[i] in c && c[j] in c;
      KeyNamesMember(defs, c[i], c[j]);
    }
  }

  lemma {:induction false} KeyNamesMember(defs: seq<Definition>, a: Definition, b: Definition)
    requires !RepeatsKey(defs) && a in defs && b in defs
    ensures a.key == b.key ==> a == b
  {
    var k :| 0 <= k < |defs| && defs[k] == a;
    var l :| 0 <= l < |defs| && defs[l] == b;
    if k < l { assert defs[k].key != defs[l].key; }
    if l < k { assert defs[l].key != defs[k].key; }
  }

  lemma {:induction false} NoRepeatsOnce(defs: seq<Definition>, d: Definition)
    requires !RepeatsKey(defs)
    ensures multiset(defs)[d] <= 1
  {
    forall i, j | 0 <= i < j < |defs| ensures defs[i] != defs[j] { assert defs[i].key != defs[j].key; }
    OnceEach(defs, d);
  }

  lemma {:induction false} CanonicalTwice(defs: seq<Definition>)
    requires !RepeatsKey(defs)
    ensures Canonical(Canonical(defs)) == Canonical(defs)
  {
    CanonicalKeepsKeys(defs);
    ContentIsUpToOrder(defs, Canonical(defs));
  }
}
