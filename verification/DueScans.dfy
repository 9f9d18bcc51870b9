/** That a due scan leaves nothing out: every window it has room for is offered, every jump it decides
    is made, and every run that may be taken over is offered again. */
module DueScans {
  import opened Options
  import opened StoredTime
  import opened RunTables
  import opened Windows
  import opened Turns
  import opened RunStore

  /** The windows of one row among the offers, from a position on: each starts from itself, and the last
      one says where the cursor goes after the batch. */
  predicate OfferedFrom(offers: seq<DueTrigger>, at: nat, row: DueRow, r: Resolution) {
    && at + |r.windows| <= |offers|
    && forall k :: 0 <= k < |r.windows| ==>
         offers[at + k] == DueTrigger(row.definition, r.windows[k], r.windows[k], if k == |r.windows| - 1 then r.cursorAfter else 0)
  }

  function ResolvedAt(q: Scan, j: nat, used: nat): Resolution
    requires j < |q.rows| && used <= q.size
  {
    q.resolve(q.rows[j].definition, q.rows[j].cursor, q.now, q.size - used)
  }

  /** The rows before the cut are decided one after another, each with the room that the offers before
      it leave, and their windows are all that is offered. */
  ghost predicate DecidedInTurn(q: Scan, offers: seq<DueTrigger>, at: seq<nat>) {
    && 0 < |at| <= |q.rows| + 1 && at[0] == 0 && at[|at| - 1] == |offers|
    && forall j :: 0 <= j < |at| - 1 ==>
         && at[j] < q.size && at[j + 1] == at[j] + |ResolvedAt(q, j, at[j]).windows|
         && OfferedFrom(offers, at[j], q.rows[j], ResolvedAt(q, j, at[j]))
  }

  /** Every window of every row there is room for is offered, in row order, and the scan stops early only
      when there is no room left. */
  lemma {:induction false} WindowsOffered(q: Scan) returns (at: seq<nat>)
    ensures DecidedInTurn(q, WindowOffers(q), at)
    ensures |WindowOffers(q)| < q.size ==> |at| == |q.rows| + 1
  {
    at := OfferedUpTo(q, |q.rows|);
  }

  function SoFar(q: Scan, n: nat): seq<DueTrigger>
    requires n <= |q.rows|
  {
    OffersUpTo(q.resolve, q.rows, q.now, q.size, n)
  }

  lemma {:induction false} OfferedUpTo(q: Scan, n: nat) returns (at: seq<nat>)
    requires n <= |q.rows|
    ensures DecidedInTurn(q, SoFar(q, n), at) && |at| <= n + 1
    ensures |SoFar(q, n)| < q.size ==> |at| == n + 1
    decreases n
  {
    if n == 0 {
      at := [0];
    } else {
      var init := OfferedUpTo(q, n - 1);
      var before := SoFar(q, n - 1);
      if |before| >= q.size {
        NothingOffered(q.rows[n - 1].definition);
        at := init;
      } else {
        var r := ResolvedAt(q, n - 1, |before|);
        LastRowOffered(before, q.rows[n - 1], r);
        at := StillDecided(q, before, SoFar(q, n), init);
      }
    }
  }

  lemma {:induction false} LastRowOffered(before: seq<DueTrigger>, row: DueRow, r: Resolution)
    ensures OfferedFrom(before + Offers(row.definition, r), |before|, row, r) && |before + Offers(row.definition, r)| == |before| + |r.windows|
  {
  }

  lemma {:induction false} OfferedStill(before: seq<DueTrigger>, all: seq<DueTrigger>, at: nat, row: DueRow, r: Resolution)
    requires OfferedFrom(before, at, row, r) && before <= all
    ensures OfferedFrom(all, at, row, r)
  {
  }

  lemma {:induction false} StillDecided(q: Scan, before: seq<DueTrigger>, all: seq<DueTrigger>, init: seq<nat>) returns (at: seq<nat>)
    requires DecidedInTurn(q, before, init) && |init| <= |q.rows| && |before| < q.size && before <= all
    requires var r := ResolvedAt(q, |init| - 1, |before|); |all| == |before| + |r.windows| && OfferedFrom(all, |before|, q.rows[|init| - 1], r)
    ensures DecidedInTurn(q, all, at) && |at| == |init| + 1
  {
    at := init + [|all|];
    forall j | 0 <= j < |init| - 1 ensures OfferedFrom(all, init[j], q.rows[j], ResolvedAt(q, j, init[j])) {
      OfferedStill(before, all, init[j], q.rows[j], ResolvedAt(q, j, init[j]));
    }
  }

  // ---------- jumps ----------

  /** What a row with no window to offer asks for: another cursor, or to be disabled. */
  predicate JumpOf(q: Scan, j: nat, used: nat, op: Op) {
    && j < |q.rows| && used < q.size
    && var r := ResolvedAt(q, j, used);
       |r.windows| == 0 && (r.cursorAfter != 0 || r.disable) && op == FastForward(q.rows[j].definition.key, q.rows[j].cursor, r.cursorAfter, r.disable)
  }

  lemma {:induction false} UsedBefore(q: Scan, at: seq<nat>, j: nat)
    requires DecidedInTurn(q, WindowOffers(q), at) && j < |at|
    ensures |SoFar(q, j)| == at[j]
  {
    if j > 0 { UsedBefore(q, at, j - 1); }
  }

  lemma {:induction false} OffersGrow(q: Scan, i: nat, n: nat)
    requires i <= n <= |q.rows|
    ensures |SoFar(q, i)| <= |SoFar(q, n)|
    decreases n
  {
    if i < n { OffersGrow(q, i, n - 1); }
  }

  lemma {:induction false} JumpIsSkip(q: Scan, j: nat, op: Op)
    requires j < |q.rows|
    ensures op in RowSkips(q.rows[j], Decided(q.resolve, q.rows[j], q.now, Room(q, j))) <==> JumpOf(q, j, |SoFar(q, j)|, op)
  {
  }

  lemma {:induction false} GrowingKeeps(parts: seq<seq<Turn>>, j: nat, n: nat, t: Turn)
    requires j <= n < |parts| && t in parts[j] && forall i :: 0 < i < |parts| ==> parts[i - 1] <= parts[i]
    ensures t in parts[n]
    decreases n - j
  {
    if j < n {
      assert parts[j + 1 - 1] <= parts[j + 1];
      GrowingKeeps(parts, j + 1, n, t);
    }
  }

  lemma {:induction false} TurnsGrow(q: Scan, n: nat)
    requires 0 < n <= |q.rows|
    ensures ScanTurns(q, n - 1) <= ScanTurns(q, n)
  {
  }

  lemma {:induction false} TurnsByRow(q: Scan) returns (parts: seq<seq<Turn>>)
    ensures |parts| == |q.rows| + 1 && forall i :: 0 <= i < |parts| ==> parts[i] == ScanTurns(q, i)
  {
    parts := seq(|q.rows| + 1, i requires 0 <= i <= |q.rows| => ScanTurns(q, i));
  }

  lemma {:induction false} PartsGrow(q: Scan, before: seq<Turn>, after: seq<Turn>, n: nat)
    requires 0 < n <= |q.rows| && before == ScanTurns(q, n - 1) && after == ScanTurns(q, n)
    ensures before <= after
  {
    TurnsGrow(q, n);
  }

  lemma {:induction false} TurnLasts(q: Scan, j: nat, t: Turn)
    requires j <= |q.rows| && t in ScanTurns(q, j)
    ensures t in ScanTurns(q, |q.rows|)
  {
    var parts := TurnsByRow(q);
    forall i | 0 < i < |parts| ensures parts[i - 1] <= parts[i] { PartsGrow(q, parts[i - 1], parts[i], i); }
    GrowingKeeps(parts, j, |q.rows|, t);
  }

  lemma {:induction false} SkipMade(q: Scan, j: nat, op: Op)
    requires j < |q.rows| && JumpOf(q, j, |SoFar(q, j)|, op)
    ensures Mine(op) in ScanTurns(q, j + 1)
  {
    JumpIsSkip(q, j, op);
    RowTurnMade(q.rows[j], Decided(q.resolve, q.rows[j], q.now, Room(q, j)), q.others.rows(j), op);
    TurnAppears(q, j + 1, Mine(op));
  }

  lemma {:induction false} TurnAppears(q: Scan, n: nat, t: Turn)
    requires 0 < n <= |q.rows| && Room(q, n - 1) > 0
    requires t in RowTurns(q.rows[n - 1], Decided(q.resolve, q.rows[n - 1], q.now, Room(q, n - 1)), q.others.rows(n - 1))
    ensures t in ScanTurns(q, n)
  {
  }

  lemma {:induction false} RowTurnMade(row: DueRow, r: Resolution, before: seq<Op>, op: Op)
    requires op in RowSkips(row, r)
    ensures Mine(op) in RowTurns(row, r, before)
  {
    var i :| 0 <= i < |RowSkips(row, r)| && RowSkips(row, r)[i] == op;
    assert RowTurns(row, r, before)[|before| + i] == Mine(op);
  }

  lemma {:induction false} SkipRow(q: Scan, n: nat, op: Op) returns (j: nat)
    requires n <= |q.rows| && op in SkipsUpTo(q.resolve, q.rows, q.now, q.size, n)
    ensures j < n && JumpOf(q, j, |SoFar(q, j)|, op)
    decreases n
  {
    if op in SkipsUpTo(q.resolve, q.rows, q.now, q.size, n - 1) {
      j := SkipRow(q, n - 1, op);
    } else {
      j := n - 1;
      LastSkip(q, n, op);
      JumpIsSkip(q, j, op);
    }
  }

  lemma {:induction false} LastSkip(q: Scan, n: nat, op: Op)
    requires 0 < n <= |q.rows| && op in SkipsUpTo(q.resolve, q.rows, q.now, q.size, n) && op !in SkipsUpTo(q.resolve, q.rows, q.now, q.size, n - 1)
    ensures op in RowSkips(q.rows[n - 1], Decided(q.resolve, q.rows[n - 1], q.now, Room(q, n - 1)))
  {
  }

  ghost predicate DecidesJump(q: Scan, at: seq<nat>, op: Op) {
    exists j :: 0 <= j < |at| - 1 && JumpOf(q, j, at[j], op)
  }

  /** The jumps a scan decides on, and the writes of its own that the worker makes in it, are exactly those
      that the rows it decided ask for. */
  lemma {:induction false} JumpsMadeExactly(q: Scan, at: seq<nat>, op: Op)
    requires DecidedInTurn(q, WindowOffers(q), at) && (|at| == |q.rows| + 1 || |WindowOffers(q)| >= q.size)
    ensures Mine(op) in ScanTurns(q, |q.rows|) <==> DecidesJump(q, at, op)
    ensures op in DueSkips(q.resolve, q.rows, q.now, q.size) <==> DecidesJump(q, at, op)
  {
    if Mine(op) in ScanTurns(q, |q.rows|) { ScanTurnsAreSkips(q, Mine(op)); }
    if op in DueSkips(q.resolve, q.rows, q.now, q.size) {
      var j := SkipRow(q, |q.rows|, op);
      if j < |at| - 1 {
        UsedBefore(q, at, j);
      } else {
        UsedBefore(q, at, |at| - 1);
        OffersGrow(q, |at| - 1, j);
      }
    }
    if DecidesJump(q, at, op) {
      var j :| 0 <= j < |at| - 1 && JumpOf(q, j, at[j], op);
      UsedBefore(q, at, j);
      JumpIsDone(q, j, op);
    }
  }

  lemma {:induction false} JumpIsDone(q: Scan, j: nat, op: Op)
    requires j < |q.rows| && JumpOf(q, j, |SoFar(q, j)|, op)
    ensures Mine(op) in ScanTurns(q, |q.rows|) && op in DueSkips(q.resolve, q.rows, q.now, q.size)
  {
    SkipMade(q, j, op);
    TurnLasts(q, j + 1, Mine(op));
    JumpIsSkip(q, j, op);
    SkipOfRow(q, |q.rows|, j, op);
  }

  // ---------- all that is offered ----------

  /** With room to spare all offers are the windows and then, for every run that is leased past its end
      or waiting past its retry when the store is asked, that run at its own window. */
  lemma {:induction false} NothingLeftOut(cal: Calendar, db: Db, q: Scan, id: RunId) returns (at: seq<nat>)
    requires |WindowOffers(q)| < q.size
    requires var asked := AfterTurns(cal, db, RowsTurns(q));
      AnswersRetries(asked.runs, q.now, q.size - |WindowOffers(q)|, q.ids) && |q.ids| < q.size - |WindowOffers(q)|
    ensures |at| == |q.rows| + 1 && at[|q.rows|] <= |AllOffers(cal, db, q)|
    ensures DecidedInTurn(q, AllOffers(cal, db, q)[..at[|q.rows|]], at)
    ensures var asked := AfterTurns(cal, db, RowsTurns(q));
      id in asked.runs && Takeable(asked.runs[id], q.now) && id.key in asked.states ==>
        exists due :: due in AllOffers(cal, db, q)[at[|q.rows|]..] && due.scheduledFor == id.at && due.expectedCursor == 0 && due.nextRunAt == 0
  {
    at := WindowsOffered(q);
    var windows, all, asked := WindowOffers(q), AllOffers(cal, db, q), AfterTurns(cal, db, RowsTurns(q));
    assert all[..|windows|] == windows && all[|windows|..] == RetryOffers(cal, asked, q.ids, q.others.lookups, 0);
    RetriesOffered(cal, asked, q.now, q.size - |windows|, q.ids, q.others.lookups, id);
  }
}
