/** Ticks among everything else: a tick, with all that others do in it, is a history of the run
    tables, and its verdicts mean what they say. */
module Ticks {
  import opened Options
  import opened StoredTime
  import opened RunTables
  import opened RunInvariants
  import opened Turns
  import opened Dispatching
  import RunStore

  // ---------- histories, one part after another ----------

  lemma {:induction false} HistoryThen(cal: Calendar, w: World, a: seq<Op>, b: seq<Op>)
    ensures History(cal, w, a + b) == History(cal, History(cal, w, a), b)
  {
    if |b| == 0 {
      assert a + b == a;
    } else {
      assert (a + b)[..|a + b| - 1] == a + b[..|b| - 1];
      HistoryThen(cal, w, a, b[..|b| - 1]);
    }
  }

  lemma {:induction false} HistoryFirst(cal: Calendar, w: World, ops: seq<Op>)
    requires |ops| > 0
    ensures History(cal, w, ops) == History(cal, Next(cal, w, ops[0]), ops[1..])
  {
    HistoryThen(cal, w, [ops[0]], ops[1..]);
    assert [ops[0]] + ops[1..] == ops;
    assert [ops[0]][..0] == [];
  }

  function WorldAfter(cal: Calendar, w: World, turns: seq<Turn>): World {
    History(cal, w, Ops(turns))
  }

  lemma {:induction false} WorldThen(cal: Calendar, w: World, a: seq<Turn>, b: seq<Turn>)
    ensures WorldAfter(cal, w, a + b) == WorldAfter(cal, WorldAfter(cal, w, a), b)
  {
    OpsThen(a, b);
    HistoryThen(cal, w, Ops(a), Ops(b));
  }

  lemma {:induction false} WorldFirst(cal: Calendar, w: World, turns: seq<Turn>)
    requires |turns| > 0
    ensures WorldAfter(cal, w, turns) == WorldAfter(cal, Next(cal, w, turns[0].op), turns[1..])
  {
    HistoryFirst(cal, w, Ops(turns));
    assert Ops(turns)[1..] == Ops(turns[1..]);
  }

  // ---------- who may do what ----------

  /** Other processes are workers too: they complete and renew only runs they have read. */
  predicate OthersMay(cal: Calendar, w: World, turns: seq<Turn>)
    decreases |turns|
  {
    |turns| == 0 || ((turns[0].Theirs? ==> Enabled(w, turns[0].op)) && OthersMay(cal, Next(cal, w, turns[0].op), turns[1..]))
  }

  predicate NeedsNoHandle(op: Op) {
    !op.Renew? && !op.Accept? && !op.Fail?
  }

  /** This worker's turns use no handle but one it has read. */
  predicate MineMay(w: World, turns: seq<Turn>) {
    forall i :: 0 <= i < |turns| && turns[i].Mine? ==> NeedsNoHandle(turns[i].op) || turns[i].op.handle in w.held
  }

  lemma {:induction false} OthersMayThen(cal: Calendar, w: World, a: seq<Turn>, b: seq<Turn>)
    ensures OthersMay(cal, w, a + b) <==> OthersMay(cal, w, a) && OthersMay(cal, WorldAfter(cal, w, a), b)
    decreases |a|
  {
    if |a| == 0 {
      assert a + b == b;
    } else {
      assert (a + b)[1..] == a[1..] + b && (a + b)[0] == a[0];
      WorldFirst(cal, w, a);
      OthersMayThen(cal, Next(cal, w, a[0].op), a[1..], b);
    }
  }

  /** Then every operation takes place, and the tables are what the operations make of them. */
  lemma {:induction false} TurnsAreHistory(cal: Calendar, w: World, turns: seq<Turn>)
    requires OthersMay(cal, w, turns) && MineMay(w, turns)
    ensures WorldAfter(cal, w, turns).db == AfterTurns(cal, w.db, turns) && w.held <= WorldAfter(cal, w, turns).held
    decreases |turns|
  {
    if |turns| > 0 {
      var next := Next(cal, w, turns[0].op);
      WorldFirst(cal, w, turns);
      assert Ops(turns)[1..] == Ops(turns[1..]);
      assert turns[0].Mine? ==> NeedsNoHandle(turns[0].op) || turns[0].op.handle in w.held;
      assert Enabled(w, turns[0].op);
      forall i | 0 <= i < |turns[1..]| && turns[1..][i].Mine?
        ensures NeedsNoHandle(turns[1..][i].op) || turns[1..][i].op.handle in next.held
      {
        assert turns[1..][i] == turns[i + 1];
      }
      TurnsAreHistory(cal, next, turns[1..]);
    }
  }

  // ---------- this worker's turns ----------

  lemma {:induction false} HeadNeedsNothing(cal: Calendar, w: World, k: Worker, item: Item)
    ensures MineMay(w, HeadTurns(cal, w.db, k, item))
    ensures forall i :: 0 <= i < |HeadTurns(cal, w.db, k, item)| && HeadTurns(cal, w.db, k, item)[i].Mine? ==>
              NeedsNoHandle(HeadTurns(cal, w.db, k, item)[i].op)
  {
  }

  lemma {:induction false} WorkOnlyRenews(cal: Calendar, db: Db, k: Worker, h: Handle, during: seq<Meantime>, lost: bool, i: nat)
    requires i < |WorkTurns(cal, db, k, h, during, lost)| && WorkTurns(cal, db, k, h, during, lost)[i].Mine?
    ensures WorkTurns(cal, db, k, h, during, lost)[i].op.Renew? && WorkTurns(cal, db, k, h, during, lost)[i].op.handle == h
    decreases |during|
  {
    match during[0]
    case Other(op) => WorkOnlyRenews(cal, Tables(cal, db, op), k, h, during[1..], lost, i - 1);
    case Beat(at) =>
      if !Beating(h) || lost {
        WorkOnlyRenews(cal, db, k, h, during[1..], lost, i);
      } else if i > 0 {
        WorkOnlyRenews(cal, Tables(cal, db, Op.Renew(h, at + k.ttl)), k, h, during[1..], !LiveLease(db.runs, h), i - 1);
      }
    case BeatError => WorkOnlyRenews(cal, db, k, h, during[1..], lost || Beating(h), i);
  }

  /** A claim teaches its worker the handle it goes on with. */
  lemma {:induction false} HeadTeaches(cal: Calendar, w: World, k: Worker, item: Item)
    requires OthersMay(cal, w, HeadTurns(cal, w.db, k, item)) && Claimed(cal, w.db, k, item)
    ensures HandleFor(cal, w.db, k, item) in WorldAfter(cal, w, HeadTurns(cal, w.db, k, item)).held
  {
    var head, id := HeadTurns(cal, w.db, k, item), IdOf(item.due);
    var init, last := HeadEnds(cal, w, k, item);
    OthersMayThen(cal, w, init, [last]);
    WorldThen(cal, w, init, [last]);
    TurnsAreHistory(cal, w, init);
    TurnsThen(cal, w.db, init, [last]);
    LastTurnTeaches(cal, WorldAfter(cal, w, init), last, id);
  }

  lemma {:induction false} HeadEnds(cal: Calendar, w: World, k: Worker, item: Item) returns (init: seq<Turn>, last: Turn)
    requires Claimed(cal, w.db, k, item)
    ensures HeadTurns(cal, w.db, k, item) == init + [last] && MineMay(w, init)
    ensures last.op == Op.Read(IdOf(item.due))
            || (last.op.Claim? && IdOf(last.op.due) == IdOf(item.due) && IdOf(item.due) !in AfterTurns(cal, w.db, init).runs)
  {
    var head := HeadTurns(cal, w.db, k, item);
    init, last := head[..|head| - 1], head[|head| - 1];
    HeadNeedsNothing(cal, w, k, item);
    if last.op.Claim? {
      assert init == OfOthers(item.script.before);
    }
  }

  lemma {:induction false} LastTurnTeaches(cal: Calendar, w: World, last: Turn, id: RunId)
    requires last.op == Op.Read(id) || (last.op.Claim? && IdOf(last.op.due) == id && id !in w.db.runs)
    requires id in AfterTurns(cal, w.db, [last]).runs
    ensures HandleOf(id, AfterTurns(cal, w.db, [last]).runs[id]) in WorldAfter(cal, w, [last]).held
  {
    OneTurn(cal, w.db, last);
    OneTurnWorld(cal, w, last);
  }

  lemma {:induction false} OneTurnWorld(cal: Calendar, w: World, turn: Turn)
    ensures WorldAfter(cal, w, [turn]) == Next(cal, w, turn.op)
  {
    assert Ops([turn]) == [] + [turn.op];
    HistoryOf(cal, w, [], turn.op);
  }

  // ---------- an item, and what its verdict means ----------

  /** The world when the outcome is about to be recorded. */
  function BeforeFinish(cal: Calendar, w: World, k: Worker, item: Item): World {
    WorldAfter(cal, w, Unfinished(cal, w.db, k, item))
  }

  function AfterItem(cal: Calendar, w: World, k: Worker, item: Item): World {
    WorldAfter(cal, w, ItemTurns(cal, w.db, k, item))
  }

  lemma {:induction false} WorkedIsHistory(cal: Calendar, w: World, k: Worker, item: Item)
    requires OthersMay(cal, w, Worked(cal, w.db, k, item))
    ensures WorldAfter(cal, w, Worked(cal, w.db, k, item)).db == AfterTurns(cal, w.db, Worked(cal, w.db, k, item))
    ensures Claimed(cal, w.db, k, item) ==> HandleFor(cal, w.db, k, item) in WorldAfter(cal, w, Worked(cal, w.db, k, item)).held
  {
    var head := HeadTurns(cal, w.db, k, item);
    HeadNeedsNothing(cal, w, k, item);
    if Claimed(cal, w.db, k, item) {
      var h := HandleFor(cal, w.db, k, item);
      var work := WorkTurns(cal, AfterTurns(cal, w.db, head), k, h, item.script.during, false);
      OthersMayThen(cal, w, head, work);
      WorldThen(cal, w, head, work);
      TurnsThen(cal, w.db, head, work);
      TurnsAreHistory(cal, w, head);
      HeadTeaches(cal, w, k, item);
      WorkIsHistory(cal, WorldAfter(cal, w, head), k, h, item);
    } else {
      TurnsAreHistory(cal, w, head);
    }
  }

  lemma {:induction false} UnfinishedIsHistory(cal: Calendar, w: World, k: Worker, item: Item)
    requires OthersMay(cal, w, Unfinished(cal, w.db, k, item))
    ensures BeforeFinish(cal, w, k, item).db == AfterTurns(cal, w.db, Unfinished(cal, w.db, k, item))
    ensures Claimed(cal, w.db, k, item) ==> HandleFor(cal, w.db, k, item) in BeforeFinish(cal, w, k, item).held
  {
    var worked := Worked(cal, w.db, k, item);
    if Claimed(cal, w.db, k, item) {
      var pause := PauseTurns(item, Lost(cal, w.db, k, item));
      OthersMayThen(cal, w, worked, pause);
      WorldThen(cal, w, worked, pause);
      TurnsThen(cal, w.db, worked, pause);
      WorkedIsHistory(cal, w, k, item);
      TurnsAreHistory(cal, WorldAfter(cal, w, worked), pause);
    } else {
      WorkedIsHistory(cal, w, k, item);
    }
  }

  lemma {:induction false} WorkIsHistory(cal: Calendar, w: World, k: Worker, h: Handle, item: Item)
    requires h in w.held && OthersMay(cal, w, WorkTurns(cal, w.db, k, h, item.script.during, false))
    ensures var work := WorkTurns(cal, w.db, k, h, item.script.during, false);
      WorldAfter(cal, w, work).db == AfterTurns(cal, w.db, work) && h in WorldAfter(cal, w, work).held
  {
    var work := WorkTurns(cal, w.db, k, h, item.script.during, false);
    forall i | 0 <= i < |work| && work[i].Mine? ensures NeedsNoHandle(work[i].op) || work[i].op.handle in w.held {
      WorkOnlyRenews(cal, w.db, k, h, item.script.during, false, i);
    }
    TurnsAreHistory(cal, w, work);
  }

  /** Before the outcome is recorded this worker completes nothing. */
  lemma {:induction false} NothingCompletedBefore(cal: Calendar, w: World, k: Worker, item: Item, i: nat)
    requires i < |Unfinished(cal, w.db, k, item)| && Unfinished(cal, w.db, k, item)[i].Mine?
    ensures var op := Unfinished(cal, w.db, k, item)[i].op; !op.Accept? && !op.Fail?
  {
    var head, worked := HeadTurns(cal, w.db, k, item), Worked(cal, w.db, k, item);
    HeadNeedsNothing(cal, w, k, item);
    if |head| <= i < |worked| {
      WorkOnlyRenews(cal, AfterTurns(cal, w.db, head), k, HandleFor(cal, w.db, k, item), item.script.during, false, i - |head|);
    }
  }

  predicate ReceivedReceipt(item: Item) {
    item.script.reply.Delivered? && item.script.reply.receipt != ""
  }

  /** The row is this worker's: leased, to the owner and under the token it read. */
  predicate Holds(w: World, h: Handle) {
    h.id in w.db.runs && w.db.runs[h.id].status == Leased && w.db.runs[h.id].owner == Some(h.owner) && w.db.runs[h.id].token == h.token
  }

  /** Only the run has changed, and this worker has completed it under its token. */
  predicate Completed(before: World, after: World, h: Handle) {
    && h.id in after.db.runs && after.db.runs == before.db.runs[h.id := after.db.runs[h.id]]
    && after.db.states == before.db.states && after.completions == before.completions + [(h.id, h.token)]
  }

  /** A failure is recorded while attempts are left, or the run has no letter yet. */
  predicate CanFail(before: World, h: Handle, limit: int) {
    Holds(before, h) && (h.attempt < limit || h.id !in before.db.deadLetters)
  }

  /** The run as a failure leaves it: waiting for the retry, or dead with an open letter. */
  predicate FailedAs(before: World, after: World, h: Handle, limit: int, reason: string, retryAt: Instant)
    requires h.id in before.db.runs && h.id in after.db.runs
  {
    var run := after.db.runs[h.id];
    && run.lastError == Some(reason) && run.owner == None && run.expires == None
    && run.token == before.db.runs[h.id].token && run.attempt == before.db.runs[h.id].attempt
    && if h.attempt < limit
       then run.status == Retrying && run.nextRetry == Some(retryAt) && after.db.deadLetters == before.db.deadLetters
       else run.status == DeadLettered && after.db.deadLetters == before.db.deadLetters[h.id := DeadLetter(reason, false)]
  }

  /** What a verdict says about the worlds before and after the outcome is recorded, and about the
      definitions as they were when the reply came.  Dispatched: a receipt came and the lease was live, and
      the run has succeeded with it.  Not accepted: a receipt came, but the lease was gone, and nothing
      happened.  Undelivered: no receipt came, and the failure is recorded for its retry or as a dead
      letter, unless the lease was gone or the run already had a letter, and then nothing happened. */
  ghost predicate Means(before: World, after: World, h: Option<Handle>, states: States, item: Item, v: Verdict) {
    var reply, key := item.script.reply, item.due.definition.key;
    match v
    case Dispatched =>
      && h.Some? && h.value.id == IdOf(item.due) && ReceivedReceipt(item) && Holds(before, h.value) && Completed(before, after, h.value)
      && after.db.runs[h.value.id] == before.db.runs[h.value.id].(status := Succeeded, receipt := Some(reply.receipt), lastError := None,
                                                                  owner := None, expires := None)
    case NotAccepted => h.Some? && ReceivedReceipt(item) && !Holds(before, h.value) && after == before
    case Undelivered =>
      && h.Some? && h.value.id == IdOf(item.due) && !ReceivedReceipt(item)
      && var limit := if key in states && states[key].definition.maxAttempts > 0 then states[key].definition.maxAttempts else 3;
      if !CanFail(before, h.value, limit) then after == before
      else Completed(before, after, h.value)
           && FailedAs(before, after, h.value, limit,
                       if reply.Unreachable? then reply.reason else "downstream owner returned no durable receipt", item.script.retryAt)
    case LeaseLost => h.Some? && after == before
    case _ => h.None? && after == before
  }

  function HandleOrNone(cal: Calendar, db: Db, k: Worker, item: Item): Option<Handle> {
    if Claimed(cal, db, k, item) then Some(HandleFor(cal, db, k, item)) else None
  }

  lemma {:induction false} FinishMeans(cal: Calendar, w: World, states: States, h: Handle, item: Item, lost: bool)
    requires h in w.held && h.id == IdOf(item.due)
    ensures var after := WorldAfter(cal, w, FinishTurns(states, h, item, lost));
      && after.db == AfterTurns(cal, w.db, FinishTurns(states, h, item, lost))
      && Means(w, after, Some(h), states, item, FinishVerdict(w.db, h, item, lost))
  {
    var turns := FinishTurns(states, h, item, lost);
    if |turns| == 1 {
      OneTurnWorld(cal, w, turns[0]);
      OneTurn(cal, w.db, turns[0]);
      assert turns == [turns[0]];
    }
  }

  lemma {:induction false} ItemMeans(cal: Calendar, w: World, k: Worker, item: Item)
    requires OthersMay(cal, w, ItemTurns(cal, w.db, k, item))
    ensures AfterItem(cal, w, k, item).db == AfterTurns(cal, w.db, ItemTurns(cal, w.db, k, item))
    ensures Means(BeforeFinish(cal, w, k, item), AfterItem(cal, w, k, item), HandleOrNone(cal, w.db, k, item),
                  StatesAtReply(cal, w.db, k, item), item, ItemVerdict(cal, w.db, k, item))
  {
    var turns, mid := Unfinished(cal, w.db, k, item), BeforeFinish(cal, w, k, item);
    if Claimed(cal, w.db, k, item) {
      var h, lost := HandleFor(cal, w.db, k, item), Lost(cal, w.db, k, item);
      var states := StatesAtReply(cal, w.db, k, item);
      var finish := FinishTurns(states, h, item, lost);
      OthersMayThen(cal, w, turns, finish);
      UnfinishedIsHistory(cal, w, k, item);
      WorldThen(cal, w, turns, finish);
      TurnsThen(cal, w.db, turns, finish);
      FinishMeans(cal, mid, states, h, item, lost);
    } else {
      UnfinishedIsHistory(cal, w, k, item);
    }
  }

  // ---------- a whole tick ----------

  /** The world in which the i-th item of a tick begins. */
  function ItemWorld(cal: Calendar, w: World, k: Worker, items: seq<Item>, i: nat): World
    requires i <= |items|
  {
    if i == 0 then w else AfterItem(cal, ItemWorld(cal, w, k, items, i - 1), k, items[i - 1])
  }

  /** The first item of a tick, and the tick that remains after it. */
  lemma {:induction false} TickFirst(cal: Calendar, w: World, k: Worker, items: seq<Item>)
    requires |items| > 0 && OthersMay(cal, w, TickTurns(cal, w.db, k, items))
    ensures var next := AfterItem(cal, w, k, items[0]);
      && OthersMay(cal, w, ItemTurns(cal, w.db, k, items[0]))
      && next.db == AfterTurns(cal, w.db, ItemTurns(cal, w.db, k, items[0]))
      && OthersMay(cal, next, TickTurns(cal, next.db, k, items[1..]))
      && AfterTurns(cal, w.db, TickTurns(cal, w.db, k, items)) == AfterTurns(cal, next.db, TickTurns(cal, next.db, k, items[1..]))
      && WorldAfter(cal, w, TickTurns(cal, w.db, k, items)) == WorldAfter(cal, next, TickTurns(cal, next.db, k, items[1..]))
      && Verdicts(cal, w.db, k, items) == [ItemVerdict(cal, w.db, k, items[0])] + Verdicts(cal, next.db, k, items[1..])
  {
    var first := ItemTurns(cal, w.db, k, items[0]);
    var rest := TickTurns(cal, AfterTurns(cal, w.db, first), k, items[1..]);
    OthersMayThen(cal, w, first, rest);
    ItemMeans(cal, w, k, items[0]);
    WorldThen(cal, w, first, rest);
    TurnsThen(cal, w.db, first, rest);
  }

  /** Where a tick stands when its i-th item begins: the world there, the tick that remains, and what
      has been found so far are those of the whole. */
  ghost predicate Standing(cal: Calendar, w: World, k: Worker, items: seq<Item>, i: nat)
    requires i <= |items|
  {
    var v := ItemWorld(cal, w, k, items, i);
    && OthersMay(cal, v, TickTurns(cal, v.db, k, items[i..]))
    && AfterTurns(cal, w.db, TickTurns(cal, w.db, k, items)) == AfterTurns(cal, v.db, TickTurns(cal, v.db, k, items[i..]))
    && WorldAfter(cal, w, TickTurns(cal, w.db, k, items)) == WorldAfter(cal, v, TickTurns(cal, v.db, k, items[i..]))
    && Verdicts(cal, w.db, k, items)[i..] == Verdicts(cal, v.db, k, items[i..])
    && (Inv(w) ==> Inv(v))
  }

  lemma {:induction false} StandsAtFirst(cal: Calendar, w: World, k: Worker, items: seq<Item>)
    requires OthersMay(cal, w, TickTurns(cal, w.db, k, items))
    ensures Standing(cal, w, k, items, 0)
  {
    assert items[0..] == items;
    assert Verdicts(cal, w.db, k, items)[0..] == Verdicts(cal, w.db, k, items);
  }

  lemma {:induction false} StandsUntil(cal: Calendar, w: World, k: Worker, items: seq<Item>, i: nat, n: nat)
    requires i <= n <= |items| && Standing(cal, w, k, items, i)
    ensures Standing(cal, w, k, items, n)
    decreases n - i
  {
    if i < n {
      StandsOn(cal, w, ItemWorld(cal, w, k, items, i), k, items, i);
      StandsUntil(cal, w, k, items, i + 1, n);
    }
  }

  lemma {:induction false} ItemKeepsInv(cal: Calendar, w: World, k: Worker, item: Item)
    requires Inv(w)
    ensures Inv(AfterItem(cal, w, k, item))
  {
    InvAlways(cal, w, Ops(ItemTurns(cal, w.db, k, item)));
  }

  lemma {:induction false} StandsOn(cal: Calendar, w: World, v: World, k: Worker, items: seq<Item>, i: nat)
    requires i < |items| && v == ItemWorld(cal, w, k, items, i) && Standing(cal, w, k, items, i)
    ensures Standing(cal, w, k, items, i + 1)
  {
    assert items[i..][0] == items[i] && items[i..][1..] == items[i + 1..];
    TickFirst(cal, v, k, items[i..]);
    if Inv(v) { ItemKeepsInv(cal, v, k, items[i]); }
    var vs := Verdicts(cal, w.db, k, items);
    assert vs[i..][1..] == vs[i + 1..];
  }

  /** The items of a tick, with whatever others do in them, are a history of the run tables. */
  lemma {:induction false} ItemsAreHistory(cal: Calendar, w: World, k: Worker, items: seq<Item>)
    requires OthersMay(cal, w, TickTurns(cal, w.db, k, items))
    ensures var turns := TickTurns(cal, w.db, k, items);
      && WorldAfter(cal, w, turns).db == AfterTurns(cal, w.db, turns)
      && WorldAfter(cal, w, turns) == ItemWorld(cal, w, k, items, |items|)
  {
    StandsAtFirst(cal, w, k, items);
    StandsUntil(cal, w, k, items, 0, |items|);
    var end := ItemWorld(cal, w, k, items, |items|);
    assert items[|items|..] == [] && TickTurns(cal, end.db, k, []) == [] && Ops([]) == [];
  }

  lemma {:induction false} ReadTurnsAreTheirs(n: nat, lookups: nat -> seq<Op>, i: nat, j: nat)
    requires j < |RunStore.ReadTurns(n, lookups, i)|
    ensures RunStore.ReadTurns(n, lookups, i)[j].Theirs?
    decreases n
  {
    if j >= |lookups(i)| { ReadTurnsAreTheirs(n - 1, lookups, i + 1, j - |lookups(i)|); }
  }

  /** This worker's turns in a scan are fast-forwards, which need no handle. */
  lemma {:induction false} DueNeedsNothing(w: World, q: RunStore.Scan)
    ensures MineMay(w, RunStore.DueTurns(q))
  {
    var turns, scan := RunStore.DueTurns(q), RunStore.ScanTurns(q, |q.rows|);
    var asked := RunStore.RowsTurns(q);
    forall i | 0 <= i < |turns| ensures turns[i].Mine? ==> turns[i].op.FastForward? {
      if i < |scan| && turns[i].Mine? {
        assert turns[i] == scan[i];
        RunStore.ScanTurnsAreSkips(q, scan[i]);
        RunStore.SkipsFastForward(q.resolve, q.rows, q.now, q.size, scan[i].op);
      } else if i >= |asked| {
        ReadTurnsAreTheirs(|q.ids|, q.others.lookups, 0, i - |asked|);
      }
    }
  }

  /** A whole tick, the due scan with its jumps and then the items, with whatever others do in it, is a
      history of the run tables: whatever holds over every history holds across it. */
  lemma {:induction false} TickIsHistory(cal: Calendar, w: World, k: Worker, q: RunStore.Scan, script: nat -> Script)
    requires OthersMay(cal, w, WholeTick(cal, w.db, k, q, script))
    ensures var turns, items := WholeTick(cal, w.db, k, q, script), DueItems(cal, w.db, q, script);
      var scanned := WorldAfter(cal, w, RunStore.DueTurns(q));
      && scanned.db == AfterTurns(cal, w.db, RunStore.DueTurns(q)) && OthersMay(cal, scanned, TickTurns(cal, scanned.db, k, items))
      && WorldAfter(cal, w, turns).db == AfterTurns(cal, w.db, turns)
      && WorldAfter(cal, w, turns) == WorldAfter(cal, scanned, TickTurns(cal, scanned.db, k, items))
      && (Inv(w) ==> Inv(scanned) && Inv(WorldAfter(cal, w, turns)))
  {
    var due, items := RunStore.DueTurns(q), DueItems(cal, w.db, q, script);
    var rest := TickTurns(cal, AfterTurns(cal, w.db, due), k, items);
    OthersMayThen(cal, w, due, rest);
    DueNeedsNothing(w, q);
    TurnsAreHistory(cal, w, due);
    ItemsAreHistory(cal, WorldAfter(cal, w, due), k, items);
    WorldThen(cal, w, due, rest);
    TurnsThen(cal, w.db, due, rest);
    if Inv(w) {
      InvAlways(cal, w, Ops(due));
      InvAlways(cal, w, Ops(due + rest));
    }
  }

  lemma {:induction false} ItemReached(cal: Calendar, w: World, k: Worker, items: seq<Item>, i: nat)
    requires OthersMay(cal, w, TickTurns(cal, w.db, k, items)) && i < |items|
    ensures var v := ItemWorld(cal, w, k, items, i);
      OthersMay(cal, v, ItemTurns(cal, v.db, k, items[i])) && ItemVerdict(cal, v.db, k, items[i]) == Verdicts(cal, w.db, k, items)[i]
  {
    StandsAtFirst(cal, w, k, items);
    StandsUntil(cal, w, k, items, 0, i);
    assert items[i..][0] == items[i];
    TickFirst(cal, ItemWorld(cal, w, k, items, i), k, items[i..]);
    assert Verdicts(cal, w.db, k, items)[i..][0] == Verdicts(cal, w.db, k, items)[i];
  }

  /** And every verdict of the tick means what it says in the world where its item began. */
  lemma {:induction false} VerdictsMean(cal: Calendar, w: World, k: Worker, items: seq<Item>, i: nat)
    requires OthersMay(cal, w, TickTurns(cal, w.db, k, items)) && i < |items|
    ensures var v := ItemWorld(cal, w, k, items, i);
      Means(BeforeFinish(cal, v, k, items[i]), AfterItem(cal, v, k, items[i]), HandleOrNone(cal, v.db, k, items[i]),
            StatesAtReply(cal, v.db, k, items[i]), items[i], Verdicts(cal, w.db, k, items)[i])
  {
    ItemReached(cal, w, k, items, i);
    ItemMeans(cal, ItemWorld(cal, w, k, items, i), k, items[i]);
  }

  /** A lease can go unnoticed: a run cancelled while the downstream owner works, between two beats, is
      delivered and then not accepted. */
  lemma {:induction false} CancelledWhileOut(cal: Calendar, db: Db, k: Worker, due: DueTrigger, now: Instant, receipt: string) returns (item: Item)
    requires ClaimAdmits(db, due, k.limit) && receipt != ""
    ensures item.due == due && item.script.reply == Delivered(receipt) && ItemVerdict(cal, db, k, item) == NotAccepted
  {
    var id := IdOf(due);
    item := Item(due, Script(now, [], [], [Other(Op.Cancel(id))], Delivered(receipt), now, []));
    HeadContents(cal, db, k, item);
    ClaimContents(cal, db, k, item);
    FinishedContents(cal, db, k, item);
    var claimed, h := AfterTurns(cal, db, HeadTurns(cal, db, k, item)), HandleFor(cal, db, k, item);
    var work := WorkTurns(cal, claimed, k, h, item.script.during, false);
    assert After(cal, db, []) == db;
    assert claimed.runs[id] == NewRun(due, k.name, k.ttl, now);
    assert item.script.during[1..] == [];
    assert work == [Theirs(Op.Cancel(id))];
    assert WorkLost(cal, Tables(cal, claimed, Op.Cancel(id)), k, h, item.script.during[1..], false) == false;
    assert Lost(cal, db, k, item) == WorkLost(cal, claimed, k, h, item.script.during, false);
    OneTurn(cal, claimed, Theirs(Op.Cancel(id)));
    assert !LiveLease(AfterTurns(cal, db, Unfinished(cal, db, k, item)).runs, h);
  }

  /** A run that has succeeded stays as it is, through one history and the next. */
  lemma {:induction false} SuccessLasts(cal: Calendar, v: World, rest: seq<Op>, end: World, later: seq<Op>, id: RunId)
    requires Inv(v) && end == History(cal, v, rest)
    requires id in v.db.runs && v.db.runs[id].status == Succeeded
    ensures var last := History(cal, end, later).db; id in last.runs && last.runs[id] == v.db.runs[id]
  {
    HistoryThen(cal, v, rest, later);
    FinishedStaysFinished(cal, v, rest + later, id);
  }

  predicate HasSucceeded(w: World, id: RunId, receipt: string) {
    id in w.db.runs && w.db.runs[id].status == Succeeded && w.db.runs[id].receipt == Some(receipt)
  }

  /** The world when the i-th item begins, and what remains of the tick there. */
  lemma {:induction false} StandingAt(cal: Calendar, w: World, k: Worker, items: seq<Item>, i: nat) returns (v: World)
    requires Inv(w) && i <= |items| && OthersMay(cal, w, TickTurns(cal, w.db, k, items))
    ensures Inv(v) && OthersMay(cal, v, TickTurns(cal, v.db, k, items[i..]))
    ensures WorldAfter(cal, w, TickTurns(cal, w.db, k, items)) == WorldAfter(cal, v, TickTurns(cal, v.db, k, items[i..]))
    ensures Verdicts(cal, w.db, k, items)[i..] == Verdicts(cal, v.db, k, items[i..])
  {
    v := ItemWorld(cal, w, k, items, i);
    StandsAtFirst(cal, w, k, items);
    StandsUntil(cal, w, k, items, 0, i);
  }

  lemma {:induction false} FirstSucceeds(cal: Calendar, w: World, k: Worker, items: seq<Item>, receipt: string) returns (v: World, rest: seq<Op>)
    requires Inv(w) && |items| > 0 && OthersMay(cal, w, TickTurns(cal, w.db, k, items))
    requires Verdicts(cal, w.db, k, items)[0] == Dispatched && items[0].script.reply == Delivered(receipt)
    ensures Inv(v) && HasSucceeded(v, IdOf(items[0].due), receipt)
    ensures WorldAfter(cal, w, TickTurns(cal, w.db, k, items)) == History(cal, v, rest)
  {
    v := AfterItem(cal, w, k, items[0]);
    rest := Ops(TickTurns(cal, v.db, k, items[1..]));
    TickFirst(cal, w, k, items);
    ItemKeepsInv(cal, w, k, items[0]);
    ItemMeans(cal, w, k, items[0]);
  }

  /** Right after its item a dispatched run has succeeded, and the rest of the tick is a history from there. */
  lemma {:induction false} SuccessAndRest(cal: Calendar, w: World, k: Worker, items: seq<Item>, i: nat, receipt: string) returns (v: World, rest: seq<Op>)
    requires Inv(w) && OthersMay(cal, w, TickTurns(cal, w.db, k, items))
    requires i < |items| && Verdicts(cal, w.db, k, items)[i] == Dispatched && items[i].script.reply == Delivered(receipt)
    ensures Inv(v) && HasSucceeded(v, IdOf(items[i].due), receipt)
    ensures WorldAfter(cal, w, TickTurns(cal, w.db, k, items)) == History(cal, v, rest)
  {
    var here := StandingAt(cal, w, k, items, i);
    assert items[i..][0] == items[i] && Verdicts(cal, w.db, k, items)[i..][0] == Dispatched;
    v, rest := FirstSucceeds(cal, here, k, items[i..], receipt);
  }

  /** What a tick reports as dispatched has succeeded with the receipt it was given, and has it still
      after the rest of the tick, others included, and after anything that happens later. */
  lemma {:induction false} DispatchedStaysSucceeded(cal: Calendar, w: World, k: Worker, items: seq<Item>, i: nat, receipt: string, later: seq<Op>)
    requires Inv(w) && OthersMay(cal, w, TickTurns(cal, w.db, k, items))
    requires i < |items| && Verdicts(cal, w.db, k, items)[i] == Dispatched && items[i].script.reply == Delivered(receipt)
    ensures HasSucceeded(History(cal, WorldAfter(cal, w, TickTurns(cal, w.db, k, items)), later), IdOf(items[i].due), receipt)
  {
    var end := WorldAfter(cal, w, TickTurns(cal, w.db, k, items));
    var v, rest := SuccessAndRest(cal, w, k, items, i, receipt);
    SuccessLasts(cal, v, rest, end, later, IdOf(items[i].due));
  }

  function Unproblematic(vs: seq<Verdict>): set<int> {
    set i | 0 <= i < |vs| && (vs[i] == NotClaimed || vs[i] == Dispatched)
  }

  lemma {:induction false} CountsLast(vs: seq<Verdict>, v: Verdict)
    ensures |Unproblematic(vs + [v])| == |Unproblematic(vs)| + (if v == NotClaimed || v == Dispatched then 1 else 0)
  {
    var all := Unproblematic(vs + [v]);
    if v == NotClaimed || v == Dispatched { assert all == Unproblematic(vs) + {|vs|}; } else { assert all == Unproblematic(vs); }
  }

  lemma {:induction false} ProcessedLast(vs: seq<Verdict>, v: Verdict)
    ensures Processed(vs + [v]) == Processed(vs) + (if v == NotClaimed || v == Dispatched then 1 else 0)
  {
    if |vs| > 0 {
      assert (vs + [v])[1..] == vs[1..] + [v];
      ProcessedLast(vs[1..], v);
    }
  }

  lemma {:induction false} ProcessedIsCount(vs: seq<Verdict>)
    ensures Processed(vs) == |Unproblematic(vs)|
    decreases |vs|
  {
    if |vs| > 0 {
      var init, last := vs[..|vs| - 1], vs[|vs| - 1];
      assert vs == init + [last];
      ProcessedIsCount(init);
      ProcessedLast(init, last);
      CountsLast(init, last);
    } else {
      assert Unproblematic(vs) == {};
    }
  }

  /** What a tick counts as processed is everything that raised no error, unclaimed windows included. */
  lemma {:induction false} ProcessedCountsNoErrors(vs: seq<Verdict>)
    ensures Processed(vs) == |set i | 0 <= i < |vs| && (vs[i] == NotClaimed || vs[i] == Dispatched)|
    ensures FirstError(vs) == None <==> forall i :: 0 <= i < |vs| ==> vs[i] == NotClaimed || vs[i] == Dispatched
    ensures FirstError(vs).Some? ==> exists i :: 0 <= i < |vs| && FirstError(vs) == Some(vs[i]) && IsError(vs[i])
                                                && forall j :: 0 <= j < i ==> vs[j] == NotClaimed || vs[j] == Dispatched
  {
    ProcessedIsCount(vs);
    if |vs| > 0 {
      ProcessedCountsNoErrors(vs[1..]);
      if IsError(vs[0]) {
        assert FirstError(vs) == Some(vs[0]) && IsError(vs[0]);
      } else if FirstError(vs).Some? {
        var i :| 0 <= i < |vs[1..]| && FirstError(vs[1..]) == Some(vs[1..][i]) && IsError(vs[1..][i])
                 && forall j :: 0 <= j < i ==> !IsError(vs[1..][j]);
        assert vs[i + 1] == vs[1..][i];
        forall j | 0 <= j < i + 1 ensures !IsError(vs[j]) { if j > 0 { assert vs[j] == vs[1..][j - 1]; } }
      }
    }
  }
}
