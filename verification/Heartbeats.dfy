/** What a dispatch begins with and how its lease is kept while the run is out: which windows it claims,
    when a heartbeat renews, and exactly when it gives the lease up for lost. */
module Heartbeats {
  import opened Options
  import opened StoredTime
  import opened RunTables
  import opened RunEffects
  import opened Turns
  import opened Dispatching

  // ---------- claiming ----------

  /** A dispatch goes on with a window that is free, or a run that is up for grabs, and with nothing
      else; a full backlog is told apart from a window that is taken. */
  lemma {:induction false} ClaimsExactly(cal: Calendar, db: Db, k: Worker, item: Item)
    ensures var b, id := After(cal, db, item.script.before), RunId(item.due.definition.key, item.due.scheduledFor);
      var full := |set i | i in b.runs && (b.runs[i].status == Leased || b.runs[i].status == Retrying)| >= k.limit;
      && (Claimed(cal, db, k, item) <==> IsFree(b, item.due, k.limit) || UpForGrabs(b, id, item.script.claimedAt))
      && (ItemVerdict(cal, db, k, item) == BacklogFull <==> id !in b.runs && full)
      && (ItemVerdict(cal, db, k, item) == NotClaimed <==> !Claimed(cal, db, k, item) && (id in b.runs || !full))
  {
    var b := After(cal, db, item.script.before);
    HeadContents(cal, db, k, item);
    assert Pending(b.runs) == set i | i in b.runs && (b.runs[i].status == Leased || b.runs[i].status == Retrying);
  }

  /** A free window becomes this worker's run, for its lease time from the moment of the claim. */
  lemma {:induction false} ClaimedRow(cal: Calendar, db: Db, k: Worker, item: Item)
    requires IsFree(After(cal, db, item.script.before), item.due, k.limit)
    ensures var id, db' := RunId(item.due.definition.key, item.due.scheduledFor), AfterTurns(cal, db, HeadTurns(cal, db, k, item));
      && Claimed(cal, db, k, item) && HandleFor(cal, db, k, item) == Handle(id, k.name, 1, 1)
      && HeldUntil(db', Handle(id, k.name, 1, 1), if k.ttl > 0 then item.script.claimedAt + k.ttl else item.script.claimedAt + 300_000_000_000)
  {
    var b := After(cal, db, item.script.before);
    ClaimsExactly(cal, db, k, item);
    HeadContents(cal, db, k, item);
    ClaimContents(cal, b, k, item);
    ClaimLeases(cal, b, item.due, k.name, k.ttl, item.script.claimedAt, k.limit);
  }

  /** A run that is up for grabs becomes this worker's by one more attempt; what it goes on with is the row
      as it reads it back. */
  lemma {:induction false} TakenRowRead(cal: Calendar, db: Db, k: Worker, item: Item)
    requires UpForGrabs(After(cal, db, item.script.before), RunId(item.due.definition.key, item.due.scheduledFor), item.script.claimedAt)
    ensures var b, id := After(cal, db, item.script.before), RunId(item.due.definition.key, item.due.scheduledFor);
      var db' := After(cal, Tables(cal, b, Op.TakeExpired(id, k.name, k.ttl, item.script.claimedAt)), item.script.between);
      && AfterTurns(cal, db, HeadTurns(cal, db, k, item)) == db' && Claimed(cal, db, k, item)
      && id in db'.runs && HandleFor(cal, db, k, item).id == id
      && HandleFor(cal, db, k, item).token == db'.runs[id].token && HandleFor(cal, db, k, item).attempt == db'.runs[id].attempt
      && (db'.runs[id].owner.Some? ==> HandleFor(cal, db, k, item).owner == db'.runs[id].owner.value)
      && (db'.runs[id].owner.None? ==> HandleFor(cal, db, k, item).owner == "")
  {
    var b := After(cal, db, item.script.before);
    ClaimsExactly(cal, db, k, item);
    HeadContents(cal, db, k, item);
    ClaimContents(cal, b, k, item);
  }

  // ---------- while the run is out ----------

  /** The tables after the first n things that happen while the run is out, and whether the lease is given
      up by then. */
  function OutFor(cal: Calendar, db: Db, k: Worker, h: Handle, during: seq<Meantime>, n: nat): Db
    requires n <= |during|
  {
    AfterTurns(cal, db, WorkTurns(cal, db, k, h, during[..n], false))
  }

  function GivenUp(cal: Calendar, db: Db, k: Worker, h: Handle, during: seq<Meantime>, n: nat): bool
    requires n <= |during|
  {
    WorkLost(cal, db, k, h, during[..n], false)
  }

  /** Where the tables and the verdict on the lease are after one thing. */
  function Beaten(cal: Calendar, db: Db, k: Worker, h: Handle, m: Meantime, lost: bool): (Db, bool) {
    match m
    case Other(op) => (Tables(cal, db, op), lost)
    case Beat(at) => if !Beating(h) || lost then (db, lost) else (Tables(cal, db, Op.Renew(h, at + k.ttl)), !LiveLease(db.runs, h))
    case BeatError => (db, lost || Beating(h))
  }

  lemma {:induction false} FirstThing(cal: Calendar, db: Db, k: Worker, h: Handle, during: seq<Meantime>, lost: bool)
    requires |during| > 0
    ensures var (db', lost') := Beaten(cal, db, k, h, during[0], lost);
      && AfterTurns(cal, db, WorkTurns(cal, db, k, h, during, lost)) == AfterTurns(cal, db', WorkTurns(cal, db', k, h, during[1..], lost'))
      && WorkLost(cal, db, k, h, during, lost) == WorkLost(cal, db', k, h, during[1..], lost')
  {
    assert during[0..] == during;
    WorkUnfolds(cal, db, k, h, during, 0, lost);
  }

  lemma {:induction false} NothingMore(cal: Calendar, db: Db, k: Worker, h: Handle, lost: bool)
    ensures AfterTurns(cal, db, WorkTurns(cal, db, k, h, [], lost)) == db && WorkLost(cal, db, k, h, [], lost) == lost
  {
    assert Ops([]) == [];
  }

  lemma {:induction false} LastThing(cal: Calendar, db: Db, k: Worker, h: Handle, during: seq<Meantime>, m: Meantime, lost: bool)
    ensures var db', lost' := AfterTurns(cal, db, WorkTurns(cal, db, k, h, during, lost)), WorkLost(cal, db, k, h, during, lost);
      (AfterTurns(cal, db, WorkTurns(cal, db, k, h, during + [m], lost)), WorkLost(cal, db, k, h, during + [m], lost)) == Beaten(cal, db', k, h, m, lost')
    decreases |during|
  {
    var all := during + [m];
    FirstThing(cal, db, k, h, all, lost);
    if |during| == 0 {
      assert all[1..] == [];
      var (db', lost') := Beaten(cal, db, k, h, m, lost);
      NothingMore(cal, db', k, h, lost');
      NothingMore(cal, db, k, h, lost);
      assert during == [];
    } else {
      assert all[0] == during[0] && all[1..] == during[1..] + [m];
      FirstThing(cal, db, k, h, during, lost);
      var (db', lost') := Beaten(cal, db, k, h, during[0], lost);
      LastThing(cal, db', k, h, during[1..], m, lost');
    }
  }

  predicate HoldsLease(db: Db, h: Handle) {
    h.id in db.runs && db.runs[h.id].status == Leased && db.runs[h.id].owner == Some(h.owner) && db.runs[h.id].token == h.token
  }

  /** One thing more: others do what they do; a heartbeat of a lease that is held moves its end to its
      lease time from now; a heartbeat that finds it gone, or fails, gives it up, and after that none
      writes anything. */
  lemma {:induction false} NextOut(cal: Calendar, db: Db, k: Worker, h: Handle, during: seq<Meantime>, n: nat)
    requires n < |during| && h.owner != ""
    ensures var here, next := OutFor(cal, db, k, h, during, n), OutFor(cal, db, k, h, during, n + 1);
      var lost, lost' := GivenUp(cal, db, k, h, during, n), GivenUp(cal, db, k, h, during, n + 1);
      match during[n]
      case Other(op) => next == Tables(cal, here, op) && lost' == lost
      case Beat(at) =>
        if lost || !HoldsLease(here, h) then next == here && lost'
        else next == here.(runs := here.runs[h.id := here.runs[h.id].(expires := Some(at + k.ttl))]) && !lost'
      case BeatError => next == here && lost'
  {
    assert during[..n + 1] == during[..n] + [during[n]];
    LastThing(cal, db, k, h, during[..n], during[n], false);
  }

  predicate Fatal(cal: Calendar, db: Db, k: Worker, h: Handle, during: seq<Meantime>, i: nat)
    requires i < |during|
  {
    during[i].BeatError? || (during[i].Beat? && !HoldsLease(OutFor(cal, db, k, h, during, i), h))
  }

  /** So the lease is given up if and only if some heartbeat failed or found it gone. */
  lemma {:induction false} GivenUpExactly(cal: Calendar, db: Db, k: Worker, h: Handle, during: seq<Meantime>, n: nat)
    requires n <= |during| && h.owner != ""
    ensures GivenUp(cal, db, k, h, during, n) <==> exists i :: 0 <= i < n && Fatal(cal, db, k, h, during, i)
  {
    if n == 0 {
      assert during[..0] == [];
    } else {
      GivenUpExactly(cal, db, k, h, during, n - 1);
      NextOut(cal, db, k, h, during, n - 1);
      if Fatal(cal, db, k, h, during, n - 1) { assert GivenUp(cal, db, k, h, during, n); }
    }
  }

  lemma {:induction false} NeverGivenUp(cal: Calendar, db: Db, k: Worker, h: Handle, during: seq<Meantime>)
    requires h.owner == ""
    ensures !WorkLost(cal, db, k, h, during, false)
    decreases |during|
  {
    if |during| > 0 {
      match during[0]
      case Other(op) => NeverGivenUp(cal, Tables(cal, db, op), k, h, during[1..]);
      case _ => NeverGivenUp(cal, db, k, h, during[1..]);
    }
  }

  /** For a dispatched item: its lease is lost if and only if its run was read back with an owner and some
      heartbeat failed or found the lease gone; and nothing else makes its verdict that. */
  lemma {:induction false} LostExactly(cal: Calendar, db: Db, k: Worker, item: Item)
    requires Claimed(cal, db, k, item)
    ensures var claimed, h := AfterTurns(cal, db, HeadTurns(cal, db, k, item)), HandleFor(cal, db, k, item);
      var lost := h.owner != "" && exists i :: 0 <= i < |item.script.during| && Fatal(cal, claimed, k, h, item.script.during, i);
      && (Lost(cal, db, k, item) <==> lost)
      && (ItemVerdict(cal, db, k, item) == LeaseLost <==> lost)
  {
    var claimed, h, during := AfterTurns(cal, db, HeadTurns(cal, db, k, item)), HandleFor(cal, db, k, item), item.script.during;
    assert during[..|during|] == during;
    if h.owner != "" { GivenUpExactly(cal, claimed, k, h, during, |during|); } else { NeverGivenUp(cal, claimed, k, h, during); }
  }
}
