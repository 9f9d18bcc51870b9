/** One tick of a worker among others: claim each offered window, hand the run to its downstream
    owner while a heartbeat renews its lease, and record how that went.  At every point where the
    worker waits, other processes may commit what they like to the shared tables. */
module Dispatching {
  import opened Options
  import opened StoredTime
  import opened RunTables
  import opened RunInvariants
  import opened Turns
  import RunStore

  // ---------- what a tick meets ----------

  /** What the downstream owner made of a run; a receipt without an id is no receipt. */
  datatype Reply = Delivered(receipt: string) | Unreachable(reason: string)

  /** What happens while it works: a heartbeat, one that fails, or an operation of another process. */
  datatype Meantime = Beat(at: Instant) | BeatError | Other(op: Op)

  /** How the dispatch of one offer goes: when it is claimed, what others do before the claim and
      between its statements, what happens while it is out, the reply, and what others do between the
      statements that record a failure. */
  datatype Script = Script(claimedAt: Instant, before: seq<Op>, between: seq<Op>, during: seq<Meantime>, reply: Reply, retryAt: Instant,
                           failing: seq<Op>)

  datatype Item = Item(due: DueTrigger, script: Script)

  datatype Verdict = NotClaimed | BacklogFull | LeaseLost | Undelivered | NotAccepted | Dispatched

  predicate IsError(v: Verdict) {
    v != NotClaimed && v != Dispatched
  }

  /** What the claims of one worker are made with. */
  datatype Worker = Worker(name: string, ttl: nat, limit: int)

  // ---------- one item, turn by turn ----------

  predicate Claims(db: Db, k: Worker, item: Item) {
    var id := IdOf(item.due);
    if id in db.runs then Takeable(db.runs[id], item.script.claimedAt) else ClaimAdmits(db, item.due, k.limit)
  }

  /** A take-over is an update and then a read; a new run is one transaction. */
  function ClaimTurns(db: Db, k: Worker, item: Item): seq<Turn> {
    var id, s := IdOf(item.due), item.script;
    if id in db.runs then [Mine(Op.TakeExpired(id, k.name, k.ttl, s.claimedAt))] + OfOthers(s.between) + [Mine(Op.Read(id))]
    else [Mine(Op.Claim(item.due, k.name, k.ttl, s.claimedAt, k.limit))]
  }

  const NO_RECEIPT := "downstream owner returned no durable receipt"

  /** A run read back without an owner has no lease to keep alive. */
  predicate Beating(h: Handle) {
    h.owner != ""
  }

  /** The heartbeat stops at the first beat that fails or finds the lease gone. */
  function WorkTurns(cal: Calendar, db: Db, k: Worker, h: Handle, during: seq<Meantime>, lost: bool): seq<Turn>
    decreases |during|
  {
    if |during| == 0 then [] else
      match during[0]
      case Other(op) => [Theirs(op)] + WorkTurns(cal, Tables(cal, db, op), k, h, during[1..], lost)
      case Beat(at) =>
        if !Beating(h) || lost then WorkTurns(cal, db, k, h, during[1..], lost) else
          var op := Op.Renew(h, at + k.ttl);
          [Mine(op)] + WorkTurns(cal, Tables(cal, db, op), k, h, during[1..], !LiveLease(db.runs, h))
      case BeatError => WorkTurns(cal, db, k, h, during[1..], lost || Beating(h))
  }

  function WorkLost(cal: Calendar, db: Db, k: Worker, h: Handle, during: seq<Meantime>, lost: bool): bool
    decreases |during|
  {
    if |during| == 0 then lost else
      match during[0]
      case Other(op) => WorkLost(cal, Tables(cal, db, op), k, h, during[1..], lost)
      case Beat(at) =>
        if !Beating(h) || lost then WorkLost(cal, db, k, h, during[1..], lost)
        else WorkLost(cal, Tables(cal, db, Op.Renew(h, at + k.ttl)), k, h, during[1..], !LiveLease(db.runs, h))
      case BeatError => WorkLost(cal, db, k, h, during[1..], lost || Beating(h))
  }

  predicate Failing(item: Item, lost: bool) {
    !lost && (item.script.reply.Unreachable? || item.script.reply.receipt == "")
  }

  /** Before a failure is recorded its attempt limit is read, and others may act. */
  function PauseTurns(item: Item, lost: bool): seq<Turn> {
    if Failing(item, lost) then OfOthers(item.script.failing) else []
  }

  function FinishTurns(states: States, h: Handle, item: Item, lost: bool): seq<Turn> {
    var s := item.script;
    if lost then []
    else if s.reply.Unreachable? then [Mine(Op.Fail(h, AllowedAttempts(states, h.id.key), s.reply.reason, s.retryAt))]
    else if s.reply.receipt == "" then [Mine(Op.Fail(h, AllowedAttempts(states, h.id.key), NO_RECEIPT, s.retryAt))]
    else [Mine(Op.Accept(h, s.reply.receipt))]
  }

  /** Up to the claim, and what it leaves. */
  function HeadTurns(cal: Calendar, db: Db, k: Worker, item: Item): seq<Turn> {
    OfOthers(item.script.before) + ClaimTurns(After(cal, db, item.script.before), k, item)
  }

  predicate Claimed(cal: Calendar, db: Db, k: Worker, item: Item) {
    Claims(After(cal, db, item.script.before), k, item) && IdOf(item.due) in AfterTurns(cal, db, HeadTurns(cal, db, k, item)).runs
  }

  /** The run as the worker read it. */
  function HandleFor(cal: Calendar, db: Db, k: Worker, item: Item): Handle
    requires Claimed(cal, db, k, item)
  {
    HandleOf(IdOf(item.due), AfterTurns(cal, db, HeadTurns(cal, db, k, item)).runs[IdOf(item.due)])
  }

  /** Until the reply is in. */
  function Worked(cal: Calendar, db: Db, k: Worker, item: Item): seq<Turn> {
    var head := HeadTurns(cal, db, k, item);
    if !Claimed(cal, db, k, item) then head
    else head + WorkTurns(cal, AfterTurns(cal, db, head), k, HandleFor(cal, db, k, item), item.script.during, false)
  }

  predicate Lost(cal: Calendar, db: Db, k: Worker, item: Item)
    requires Claimed(cal, db, k, item)
  {
    WorkLost(cal, AfterTurns(cal, db, HeadTurns(cal, db, k, item)), k, HandleFor(cal, db, k, item), item.script.during, false)
  }

  /** Everything before the outcome is recorded. */
  function Unfinished(cal: Calendar, db: Db, k: Worker, item: Item): seq<Turn> {
    var worked := Worked(cal, db, k, item);
    if !Claimed(cal, db, k, item) then worked else worked + PauseTurns(item, Lost(cal, db, k, item))
  }

  /** The states in which the attempt limit is looked up. */
  function StatesAtReply(cal: Calendar, db: Db, k: Worker, item: Item): States {
    AfterTurns(cal, db, Worked(cal, db, k, item)).states
  }

  function ItemTurns(cal: Calendar, db: Db, k: Worker, item: Item): seq<Turn> {
    var turns := Unfinished(cal, db, k, item);
    if !Claimed(cal, db, k, item) then turns
    else turns + FinishTurns(StatesAtReply(cal, db, k, item), HandleFor(cal, db, k, item), item, Lost(cal, db, k, item))
  }

  function FinishVerdict(db: Db, h: Handle, item: Item, lost: bool): Verdict {
    if lost then LeaseLost
    else if item.script.reply.Unreachable? || item.script.reply.receipt == "" then Undelivered
    else if LiveLease(db.runs, h) then Dispatched
    else NotAccepted
  }

  function ItemVerdict(cal: Calendar, db: Db, k: Worker, item: Item): Verdict {
    var before := After(cal, db, item.script.before);
    if !Claimed(cal, db, k, item) then
      if IdOf(item.due) !in before.runs && |Pending(before.runs)| >= k.limit then BacklogFull else NotClaimed
    else FinishVerdict(AfterTurns(cal, db, Unfinished(cal, db, k, item)), HandleFor(cal, db, k, item), item, Lost(cal, db, k, item))
  }

  // ---------- a whole tick ----------

  function TickTurns(cal: Calendar, db: Db, k: Worker, items: seq<Item>): seq<Turn>
    decreases |items|
  {
    if |items| == 0 then [] else
      var turns := ItemTurns(cal, db, k, items[0]);
      turns + TickTurns(cal, AfterTurns(cal, db, turns), k, items[1..])
  }

  function Verdicts(cal: Calendar, db: Db, k: Worker, items: seq<Item>): (vs: seq<Verdict>)
    ensures |vs| == |items|
    decreases |items|
  {
    if |items| == 0 then [] else
      [ItemVerdict(cal, db, k, items[0])] + Verdicts(cal, AfterTurns(cal, db, ItemTurns(cal, db, k, items[0])), k, items[1..])
  }

  function Processed(vs: seq<Verdict>): nat {
    if |vs| == 0 then 0 else (if IsError(vs[0]) then 0 else 1) + Processed(vs[1..])
  }

  function FirstError(vs: seq<Verdict>): Option<Verdict> {
    if |vs| == 0 then None else if IsError(vs[0]) then Some(vs[0]) else FirstError(vs[1..])
  }

  function ItemsOf(offers: seq<DueTrigger>, script: nat -> Script): (items: seq<Item>)
    ensures |items| == |offers| && forall i :: 0 <= i < |items| ==> items[i] == Item(offers[i], script(i))
  {
    seq(|offers|, i requires 0 <= i < |offers| => Item(offers[i], script(i)))
  }

  /** The items of a tick: what its scan offers. */
  function DueItems(cal: Calendar, db: Db, q: RunStore.Scan, script: nat -> Script): seq<Item> {
    ItemsOf(RunStore.AllOffers(cal, db, q), script)
  }

  /** A whole tick, the scan and then the items. */
  function WholeTick(cal: Calendar, db: Db, k: Worker, q: RunStore.Scan, script: nat -> Script): seq<Turn> {
    RunStore.DueTurns(q) + TickTurns(cal, AfterTurns(cal, db, RunStore.DueTurns(q)), k, DueItems(cal, db, q, script))
  }

  // ---------- what the turns amount to ----------

  lemma {:induction false} ClaimContents(cal: Calendar, db: Db, k: Worker, item: Item)
    ensures var id, s := IdOf(item.due), item.script;
      AfterTurns(cal, db, ClaimTurns(db, k, item))
      == if id in db.runs then After(cal, Tables(cal, db, Op.TakeExpired(id, k.name, k.ttl, s.claimedAt)), s.between)
         else Tables(cal, db, Op.Claim(item.due, k.name, k.ttl, s.claimedAt, k.limit))
    ensures Claims(db, k, item) ==> IdOf(item.due) in AfterTurns(cal, db, ClaimTurns(db, k, item)).runs
  {
    var id, s := IdOf(item.due), item.script;
    if id in db.runs {
      var take, read := Mine(Op.TakeExpired(id, k.name, k.ttl, s.claimedAt)), Mine(Op.Read(id));
      TurnsThen(cal, db, [take] + OfOthers(s.between), [read]);
      TurnsThen(cal, db, [take], OfOthers(s.between));
      OneTurn(cal, db, take);
      OneTurn(cal, AfterTurns(cal, db, [take] + OfOthers(s.between)), read);
      AfterKeepsRuns(cal, Tables(cal, db, take.op), s.between, id);
    } else {
      OneTurn(cal, db, Mine(Op.Claim(item.due, k.name, k.ttl, s.claimedAt, k.limit)));
    }
  }

  lemma {:induction false} HeadContents(cal: Calendar, db: Db, k: Worker, item: Item)
    ensures var before := After(cal, db, item.script.before);
      && AfterTurns(cal, db, HeadTurns(cal, db, k, item)) == AfterTurns(cal, before, ClaimTurns(before, k, item))
      && (Claimed(cal, db, k, item) <==> Claims(before, k, item))
  {
    var before := After(cal, db, item.script.before);
    TurnsThen(cal, db, OfOthers(item.script.before), ClaimTurns(before, k, item));
    ClaimContents(cal, before, k, item);
  }

  // ---------- the service ----------

  class Service {
    const runs: RunStore.Store
    var leaseTTL: nat

    constructor (runs: RunStore.Store, leaseTTL: nat)
      ensures this.runs == runs && this.leaseTTL == leaseTTL
    {
      this.runs, this.leaseTTL := runs, leaseTTL;
    }

    function Me(): Worker
      reads this, runs
    {
      Worker(runs.worker, leaseTTL, runs.maxPendingTriggers)
    }

    /** The heartbeat, while the downstream owner works and other processes act. */
    method KeepAlive(run: Handle, during: seq<Meantime>) returns (lost: bool)
      modifies runs`runs, runs`states, runs`deadLetters, runs`events
      ensures runs.Contents() == AfterTurns(runs.cal, old(runs.Contents()), WorkTurns(runs.cal, old(runs.Contents()), old(Me()), run, during, false))
      ensures lost == WorkLost(runs.cal, old(runs.Contents()), old(Me()), run, during, false)
    {
      ghost var start, me := runs.Contents(), Me();
      lost := false;
      var i := 0;
      assert during[0..] == during;
      while i < |during|
        invariant 0 <= i <= |during| && Me() == me
        invariant AfterTurns(runs.cal, runs.Contents(), WorkTurns(runs.cal, runs.Contents(), me, run, during[i..], lost))
                  == AfterTurns(runs.cal, start, WorkTurns(runs.cal, start, me, run, during, false))
        invariant WorkLost(runs.cal, runs.Contents(), me, run, during[i..], lost) == WorkLost(runs.cal, start, me, run, during, false)
      {
        WorkUnfolds(runs.cal, runs.Contents(), me, run, during, i, lost);
        match during[i] {
          case Other(op) =>
            AfterOne(runs.cal, runs.Contents(), op);
            runs.Meanwhile([op]);
          case Beat(at) =>
            if run.owner != "" && !lost {
              var owned := runs.Renew(run, leaseTTL, at);
              lost := !owned;
            }
          case BeatError =>
            if run.owner != "" { lost := true; }
        }
        i := i + 1;
      }
    }

    /** Hands over a claimed run and records the outcome, unless the heartbeat lost the lease.  The
        lease may be gone without the heartbeat having noticed; then nothing is recorded either. */
    method DispatchClaimed(run: Handle, item: Item) returns (v: Verdict)
      modifies runs`runs, runs`states, runs`deadLetters, runs`events
      ensures var before, k := old(runs.Contents()), old(Me());
        var work, lost := WorkTurns(runs.cal, before, k, run, item.script.during, false), WorkLost(runs.cal, before, k, run, item.script.during, false);
        var replied := AfterTurns(runs.cal, before, work);
        var mid := AfterTurns(runs.cal, replied, PauseTurns(item, lost));
        && runs.Contents() == AfterTurns(runs.cal, mid, FinishTurns(replied.states, run, item, lost))
        && v == FinishVerdict(mid, run, item, lost)
    {
      var lost := KeepAlive(run, item.script.during);
      if lost { return LeaseLost; }
      ghost var replied := runs.Contents();
      ghost var mid := AfterTurns(runs.cal, replied, PauseTurns(item, false));
      if item.script.reply.Unreachable? {
        OneTurn(runs.cal, mid, Mine(Op.Fail(run, AllowedAttempts(replied.states, run.id.key), item.script.reply.reason, item.script.retryAt)));
        var recorded := runs.Fail(run, item.script.reply.reason, item.script.retryAt, item.script.failing);
        return Undelivered;
      }
      if item.script.reply.receipt == "" {
        OneTurn(runs.cal, mid, Mine(Op.Fail(run, AllowedAttempts(replied.states, run.id.key), NO_RECEIPT, item.script.retryAt)));
        var recorded := runs.Fail(run, NO_RECEIPT, item.script.retryAt, item.script.failing);
        return Undelivered;
      }
      OneTurn(runs.cal, mid, Mine(Op.Accept(run, item.script.reply.receipt)));
      var done := runs.Accept(run, item.script.reply.receipt);
      return if done == RunStore.Done then Dispatched else NotAccepted;
    }

    method Dispatch(item: Item) returns (v: Verdict)
      modifies runs`runs, runs`states, runs`deadLetters, runs`events
      ensures runs.Contents() == AfterTurns(runs.cal, old(runs.Contents()), ItemTurns(runs.cal, old(runs.Contents()), old(Me()), item))
      ensures v == ItemVerdict(runs.cal, old(runs.Contents()), old(Me()), item)
    {
      ghost var start, me := runs.Contents(), Me();
      HeadContents(runs.cal, start, me, item);
      runs.Meanwhile(item.script.before);
      ClaimContents(runs.cal, runs.Contents(), me, item);
      var claim := runs.Claim(item.due, leaseTTL, item.script.claimedAt, item.script.between);
      match claim {
        case BacklogFull => return BacklogFull;
        case CursorMoved => return NotClaimed;
        case NotClaimed(_) => return NotClaimed;
        case Claimed(run) =>
          FinishedContents(runs.cal, start, me, item);
          v := DispatchClaimed(run, item);
      }
    }

    /** Dispatches offers in turn; an error does not stop the others. */
    method DispatchAll(items: seq<Item>) returns (processed: nat, firstErr: Option<Verdict>)
      modifies runs`runs, runs`states, runs`deadLetters, runs`events
      ensures runs.Contents() == AfterTurns(runs.cal, old(runs.Contents()), TickTurns(runs.cal, old(runs.Contents()), old(Me()), items))
      ensures processed == Processed(Verdicts(runs.cal, old(runs.Contents()), old(Me()), items))
      ensures firstErr == FirstError(Verdicts(runs.cal, old(runs.Contents()), old(Me()), items))
    {
      ghost var start, me := runs.Contents(), Me();
      processed, firstErr := 0, None;
      var i := 0;
      assert items[0..] == items;
      while i < |items|
        invariant 0 <= i <= |items| && Me() == me
        invariant AfterTurns(runs.cal, runs.Contents(), TickTurns(runs.cal, runs.Contents(), me, items[i..]))
                  == AfterTurns(runs.cal, start, TickTurns(runs.cal, start, me, items))
        invariant processed + Processed(Verdicts(runs.cal, runs.Contents(), me, items[i..])) == Processed(Verdicts(runs.cal, start, me, items))
        invariant (if firstErr.Some? then firstErr else FirstError(Verdicts(runs.cal, runs.Contents(), me, items[i..])))
                  == FirstError(Verdicts(runs.cal, start, me, items))
      {
        TickUnfolds(runs.cal, runs.Contents(), me, items, i);
        var v := Dispatch(items[i]);
        i := i + 1;
        if IsError(v) {
          if firstErr.None? { firstErr := Some(v); }
          continue;
        }
        processed := processed + 1;
      }
    }

    /** One tick: what is due, then its dispatch, with others acting throughout. */
    method Tick(now: Instant, limit: int, keys: seq<string>, ids: seq<RunId>, resolve: RunStore.Misfire, others: RunStore.Others, script: nat -> Script)
      returns (processed: nat, firstErr: Option<Verdict>)
      requires RunStore.AnswersDue(runs.states, now, RunStore.DueLimit(limit), keys)
      requires var q := RunStore.Scan(resolve, RunStore.Rows(runs.states, keys), now, RunStore.DueLimit(limit), ids, others);
        |RunStore.WindowOffers(q)| < q.size ==>
          RunStore.AnswersRetries(AfterTurns(runs.cal, runs.Contents(), RunStore.RowsTurns(q)).runs, now, q.size - |RunStore.WindowOffers(q)|, ids)
      modifies runs`runs, runs`states, runs`deadLetters, runs`events
      ensures var before, q := old(runs.Contents()), RunStore.Scan(resolve, RunStore.Rows(old(runs.states), keys), now, RunStore.DueLimit(limit), ids, others);
        var scanned, items := AfterTurns(runs.cal, before, RunStore.DueTurns(q)), DueItems(runs.cal, before, q, script);
        && runs.Contents() == AfterTurns(runs.cal, scanned, TickTurns(runs.cal, scanned, old(Me()), items))
        && processed == Processed(Verdicts(runs.cal, scanned, old(Me()), items))
        && firstErr == FirstError(Verdicts(runs.cal, scanned, old(Me()), items))
    {
      var size := if limit <= 0 then 25 else limit;
      var due := runs.Due(now, size, keys, ids, resolve, others);
      processed, firstErr := DispatchAll(ItemsOf(due, script));
    }
  }

  lemma {:induction false} WorkUnfolds(cal: Calendar, db: Db, k: Worker, h: Handle, during: seq<Meantime>, i: nat, lost: bool)
    requires i < |during|
    ensures var here, rest := WorkTurns(cal, db, k, h, during[i..], lost), during[i + 1..];
      match during[i]
      case Other(op) =>
        && AfterTurns(cal, db, here) == AfterTurns(cal, Tables(cal, db, op), WorkTurns(cal, Tables(cal, db, op), k, h, rest, lost))
        && WorkLost(cal, db, k, h, during[i..], lost) == WorkLost(cal, Tables(cal, db, op), k, h, rest, lost)
      case Beat(at) =>
        if !Beating(h) || lost then
          here == WorkTurns(cal, db, k, h, rest, lost) && WorkLost(cal, db, k, h, during[i..], lost) == WorkLost(cal, db, k, h, rest, lost)
        else
          var db', lost' := Tables(cal, db, Op.Renew(h, at + k.ttl)), !LiveLease(db.runs, h);
          && AfterTurns(cal, db, here) == AfterTurns(cal, db', WorkTurns(cal, db', k, h, rest, lost'))
          && WorkLost(cal, db, k, h, during[i..], lost) == WorkLost(cal, db', k, h, rest, lost')
      case BeatError =>
        && here == WorkTurns(cal, db, k, h, rest, lost || Beating(h))
        && WorkLost(cal, db, k, h, during[i..], lost) == WorkLost(cal, db, k, h, rest, lost || Beating(h))
  {
    assert during[i..][1..] == during[i + 1..];
    match during[i]
    case Other(op) =>
      OneTurn(cal, db, Theirs(op));
      TurnsThen(cal, db, [Theirs(op)], WorkTurns(cal, Tables(cal, db, op), k, h, during[i + 1..], lost));
    case Beat(at) =>
      if Beating(h) && !lost {
        var op := Op.Renew(h, at + k.ttl);
        OneTurn(cal, db, Mine(op));
        TurnsThen(cal, db, [Mine(op)], WorkTurns(cal, Tables(cal, db, op), k, h, during[i + 1..], !LiveLease(db.runs, h)));
      }
    case BeatError =>
  }

  /** A claimed item is its head, its work, a pause and its finish. */
  lemma {:induction false} FinishedContents(cal: Calendar, db: Db, k: Worker, item: Item)
    requires Claimed(cal, db, k, item)
    ensures var h, claimed := HandleFor(cal, db, k, item), AfterTurns(cal, db, HeadTurns(cal, db, k, item));
      var lost, replied := Lost(cal, db, k, item), AfterTurns(cal, claimed, WorkTurns(cal, claimed, k, h, item.script.during, false));
      var mid := AfterTurns(cal, replied, PauseTurns(item, lost));
      && StatesAtReply(cal, db, k, item) == replied.states
      && AfterTurns(cal, db, Unfinished(cal, db, k, item)) == mid
      && AfterTurns(cal, db, ItemTurns(cal, db, k, item)) == AfterTurns(cal, mid, FinishTurns(replied.states, h, item, lost))
  {
    var head, h, lost := HeadTurns(cal, db, k, item), HandleFor(cal, db, k, item), Lost(cal, db, k, item);
    TurnsThen(cal, db, head, WorkTurns(cal, AfterTurns(cal, db, head), k, h, item.script.during, false));
    var worked, turns := Worked(cal, db, k, item), Unfinished(cal, db, k, item);
    TurnsThen(cal, db, worked, PauseTurns(item, lost));
    TurnsThen(cal, db, turns, FinishTurns(StatesAtReply(cal, db, k, item), h, item, lost));
  }

  lemma {:induction false} TickUnfolds(cal: Calendar, db: Db, k: Worker, items: seq<Item>, i: nat)
    requires i < |items|
    ensures var next, v := AfterTurns(cal, db, ItemTurns(cal, db, k, items[i])), ItemVerdict(cal, db, k, items[i]);
      && AfterTurns(cal, db, TickTurns(cal, db, k, items[i..])) == AfterTurns(cal, next, TickTurns(cal, next, k, items[i + 1..]))
      && Verdicts(cal, db, k, items[i..]) == [v] + Verdicts(cal, next, k, items[i + 1..])
      && Processed(Verdicts(cal, db, k, items[i..])) == (if IsError(v) then 0 else 1) + Processed(Verdicts(cal, next, k, items[i + 1..]))
      && FirstError(Verdicts(cal, db, k, items[i..])) == (if IsError(v) then Some(v) else FirstError(Verdicts(cal, next, k, items[i + 1..])))
  {
    var turns := ItemTurns(cal, db, k, items[i]);
    var next, v := AfterTurns(cal, db, turns), ItemVerdict(cal, db, k, items[i]);
    assert items[i..][1..] == items[i + 1..];
    TurnsThen(cal, db, turns, TickTurns(cal, next, k, items[i + 1..]));
    var rest := Verdicts(cal, next, k, items[i + 1..]);
    assert ([v] + rest)[1..] == rest;
  }
}
