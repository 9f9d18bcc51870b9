/** The worker of a service: starting it, joining it, its exit, and closing the service.  Each
    generation of the worker has its own done channel. */
module Lifecycle {
  import opened Options
  import opened Multisets
  import RunStore

  // ---------- what each locked region does ----------

  /** The guarded fields, and beside them the worker generations that have not finished, the
      channels closed so far in order, and the next channel to be made. */
  datatype Life = Life(closed: bool, cancelled: bool, workerDone: Option<nat>, live: set<nat>, closings: seq<nat>, next: nat)

  function Begun(): Life {
    Life(false, false, None, {}, [], 0)
  }

  /** A start that is refused is answered with a channel of its own, already closed. */
  function Refuse(l: Life): (Life, nat) {
    (l.(closings := l.closings + [l.next], next := l.next + 1), l.next)
  }

  /** Asked: the worker is enabled and the caller's context is live.  Fits: the store takes the
      backlog limit. */
  function Started(l: Life, asked: bool, fits: bool): (Life, nat) {
    if !asked || l.closed || l.cancelled then Refuse(l)
    else if l.workerDone.Some? then (l, l.workerDone.value)
    else if !fits then Refuse(l)
    else (l.(workerDone := Some(l.next), live := l.live + {l.next}, next := l.next + 1), l.next)
  }

  function Exited(l: Life, done: nat): Life {
    l.(workerDone := if l.workerDone == Some(done) then None else l.workerDone, live := l.live - {done}, closings := l.closings + [done])
  }

  // ---------- the service ----------

  datatype WorkerConfig = WorkerConfig(enabled: bool, maxPending: int, leaseTTL: int, dispatchTimeout: int)

  class Worker {
    const runs: RunStore.Store
    var closed: bool
    var cancelled: bool
    var workerDone: Option<nat>
    var leaseTTL: int
    var dispatchTimeout: int
    var next: nat
    ghost var live: set<nat>
    ghost var closings: seq<nat>

    ghost function Contents(): Life
      reads this
    {
      Life(closed, cancelled, workerDone, live, closings, next)
    }

    constructor (runs: RunStore.Store, leaseTTL: int, dispatchTimeout: int)
      ensures this.runs == runs && Contents() == Begun() && this.leaseTTL == leaseTTL && this.dispatchTimeout == dispatchTimeout
    {
      this.runs, this.leaseTTL, this.dispatchTimeout := runs, leaseTTL, dispatchTimeout;
      closed, cancelled, workerDone, next, live, closings := false, false, None, 0, {}, [];
    }

    method ClosedDone() returns (done: nat)
      modifies this`next, this`closings
      ensures (Contents(), done) == Refuse(old(Contents()))
    {
      done := next;
      next, closings := next + 1, closings + [done];
    }

    /** Starts a worker or joins the live one; only a new generation takes the configuration. */
    method Start(config: WorkerConfig, contextLive: bool) returns (done: nat)
      modifies this, runs`maxPendingTriggers
      ensures var fits := 1 <= config.maxPending <= 1_000_000;
        && (Contents(), done) == Started(old(Contents()), config.enabled && contextLive, fits)
        && (if workerDone.Some? && old(workerDone).None?
            then leaseTTL == config.leaseTTL && dispatchTimeout == config.dispatchTimeout && runs.maxPendingTriggers == config.maxPending
            else leaseTTL == old(leaseTTL) && dispatchTimeout == old(dispatchTimeout)
                 && runs.maxPendingTriggers == old(runs.maxPendingTriggers))
    {
      if !config.enabled || !contextLive {
        done := ClosedDone();
        return;
      }
      if closed || cancelled {
        done := ClosedDone();
        return;
      }
      if workerDone.Some? { return workerDone.value; }
      var configured := runs.ConfigureTriggerBacklogLimit(config.maxPending);
      if configured != RunStore.Done {
        done := ClosedDone();
        return;
      }
      leaseTTL, dispatchTimeout := config.leaseTTL, config.dispatchTimeout;
      done := next;
      next, live, workerDone := next + 1, live + {done}, Some(done);
    }

    /** The last thing a worker does. */
    method WorkerExit(done: nat)
      modifies this`workerDone, this`live, this`closings
      ensures Contents() == Exited(old(Contents()), done)
    {
      if workerDone == Some(done) { workerDone := None; }
      live, closings := live - {done}, closings + [done];
    }

    /** What closing does before it waits: which worker to wait for, if any. */
    method BeginClose() returns (done: Option<nat>)
      modifies this`closed, this`cancelled
      ensures done == old(workerDone)
      ensures Contents() == old(Contents()).(closed := true, cancelled := old(cancelled) || !old(closed))
    {
      var shouldCancel := !closed;
      closed := true;
      done := workerDone;
      if shouldCancel { cancelled := true; }
    }
  }

  // ---------- any interleaving ----------

  datatype Closer = Cancelling(done: Option<nat>, first: bool) | Waiting(done: Option<nat>) | Returned(clean: bool)

  datatype World = World(life: Life, closers: map<nat, Closer>, answers: map<nat, nat>)

  datatype Act = Start(caller: nat, asked: bool, fits: bool) | Exit(done: nat) | CancelOwner
               | Close(closer: nat) | CloseOn(closer: nat, expired: bool)

  function Step(w: World, act: Act): World {
    match act
    case Start(t, asked, fits) =>
      if t in w.answers then w else
        var (life, done) := Started(w.life, asked, fits);
        w.(life := life, answers := w.answers[t := done])
    case Exit(done) => if done in w.life.live then w.(life := Exited(w.life, done)) else w
    case CancelOwner => w.(life := w.life.(cancelled := true))
    case Close(c) =>
      if c in w.closers then w else
        w.(life := w.life.(closed := true), closers := w.closers[c := Cancelling(w.life.workerDone, !w.life.closed)])
    case CloseOn(c, expired) =>
      if c !in w.closers then w else
        match w.closers[c]
        case Cancelling(done, first) =>
          w.(life := w.life.(cancelled := w.life.cancelled || first), closers := w.closers[c := Waiting(done)])
        case Waiting(done) =>
          if done.None? || (done.value in w.life.closings && !expired) then w.(closers := w.closers[c := Returned(true)])
          else if expired then w.(closers := w.closers[c := Returned(false)])
          else w
        case Returned(_) => w
  }

  function Run(w: World, acts: seq<Act>): World {
    if |acts| == 0 then w else Step(Run(w, acts[..|acts| - 1]), acts[|acts| - 1])
  }

  function Fresh(): World {
    World(Begun(), map[], map[])
  }

  // ---------- invariants ----------

  function Current(l: Life): set<nat> {
    if l.workerDone.Some? then {l.workerDone.value} else {}
  }

  ghost predicate LifeOk(l: Life) {
    && l.live == Current(l)
    && (forall i, j :: 0 <= i < j < |l.closings| ==> l.closings[i] != l.closings[j])
    && (forall d: nat :: d < l.next <==> d in l.live || d in l.closings)
    && (forall d: nat :: d in l.closings ==> d !in l.live)
  }

  predicate CloserOk(l: Life, c: Closer) {
    && l.closed
    && match c
       case Cancelling(done, _) => l.live <= (if done.Some? then {done.value} else {})
       case Waiting(done) => l.live <= (if done.Some? then {done.value} else {})
       case Returned(clean) => clean ==> l.live == {}
  }

  ghost predicate Inv(w: World) {
    && LifeOk(w.life)
    && (forall c :: c in w.closers ==> CloserOk(w.life, w.closers[c]))
    && (forall t :: t in w.answers ==> w.answers[t] < w.life.next)
  }

  lemma {:induction false} RefuseKeeps(l: Life)
    requires LifeOk(l)
    ensures LifeOk(Refuse(l).0)
  {
    var r := Refuse(l).0;
    assert forall d: nat :: d in r.closings <==> d in l.closings || d == l.next;
    assert l.next !in l.closings && l.next !in l.live;
  }

  lemma {:induction false} StartKeeps(l: Life, asked: bool, fits: bool)
    requires LifeOk(l)
    ensures var (after, done) := Started(l, asked, fits);
      && LifeOk(after) && done < after.next && l.next <= after.next && after.closed == l.closed
      && (l.closed ==> after.live == l.live)
      && (done in after.closings || after.live == {done})
  {
    RefuseKeeps(l);
    assert l.next !in l.closings && l.next !in l.live;
    var (after, done) := Started(l, asked, fits);
    if l.workerDone.Some? { assert l.workerDone.value in l.live; }
    if after == Refuse(l).0 { assert after.closings[|l.closings|] == l.next; }
  }

  lemma {:induction false} ExitKeeps(l: Life, done: nat)
    requires LifeOk(l) && done in l.live
    ensures LifeOk(Exited(l, done)) && Exited(l, done).live == {}
  {
    var after := Exited(l, done);
    assert forall d: nat :: d in after.closings <==> d in l.closings || d == done;
  }

  lemma {:induction false} StepInv(w: World, act: Act)
    requires Inv(w)
    ensures Inv(Step(w, act))
  {
    match act
    case Start(t, asked, fits) => StartKeeps(w.life, asked, fits);
    case Exit(done) => if done in w.life.live { ExitKeeps(w.life, done); }
    case CancelOwner =>
    case Close(c) =>
    case CloseOn(c, expired) =>
      if c in w.closers { assert CloserOk(w.life, w.closers[c]); }
  }

  lemma {:induction false} RunInv(w: World, acts: seq<Act>)
    requires Inv(w)
    ensures Inv(Run(w, acts))
  {
    if |acts| > 0 {
      RunInv(w, acts[..|acts| - 1]);
      StepInv(Run(w, acts[..|acts| - 1]), acts[|acts| - 1]);
    }
  }

  // ---------- what holds over every run ----------

  /** At most one worker is live, and it is the one a caller would join. */
  lemma {:induction false} OneWorker(acts: seq<Act>)
    ensures var l := Run(Fresh(), acts).life; |l.live| <= 1 && l.live == Current(l)
  {
    RunInv(Fresh(), acts);
  }

  /** No channel is closed twice, and every channel made is closed or belongs to the live worker. */
  lemma {:induction false} ChannelsCloseOnce(acts: seq<Act>, d: nat)
    ensures var l := Run(Fresh(), acts).life;
      && multiset(l.closings)[d] == (if d < l.next && d !in l.live then 1 else 0)
      && (d in l.live ==> d < l.next)
  {
    RunInv(Fresh(), acts);
    var l := Run(Fresh(), acts).life;
    OnceEach(l.closings, d);
  }

  /** Every caller of Start holds a channel that is closed or is the live worker's, so all callers that
      still wait, wait for the same worker. */
  lemma {:induction false} JoinedCallersShareTheWorker(acts: seq<Act>, t: nat, u: nat)
    requires var w := Run(Fresh(), acts);
      && t in w.answers && u in w.answers && w.answers[t] !in w.life.closings && w.answers[u] !in w.life.closings
    ensures var w := Run(Fresh(), acts);
      w.answers[t] == w.answers[u] && w.life.live == {w.answers[t]} && w.life.workerDone == Some(w.answers[t])
  {
    RunInv(Fresh(), acts);
    var w := Run(Fresh(), acts);
    assert w.answers[t] < w.life.next && w.answers[u] < w.life.next;
    assert w.answers[t] in w.life.live && w.answers[u] in w.life.live;
  }

  /** Once a close has returned without error, no worker is live, none ever starts again, and whoever
      calls Start is answered with a closed channel. */
  lemma {:induction false} ClosedForGood(w: World, acts: seq<Act>, c: nat, t: nat)
    requires Inv(w) && c in w.closers && w.closers[c] == Returned(true)
    ensures var w' := Run(w, acts);
      && w'.life.live == {} && w'.life.workerDone == None && w'.life.closed
      && (t in w'.answers ==> w'.answers[t] in w'.life.closings)
  {
    RunInv(w, acts);
    ReturnedStays(w, acts, c);
    var w' := Run(w, acts);
    assert CloserOk(w'.life, w'.closers[c]);
    IdleHasNoWorker(w'.life);
    if t in w'.answers { assert w'.answers[t] < w'.life.next; }
  }

  lemma {:induction false} IdleHasNoWorker(l: Life)
    ensures Current(l) == {} <==> l.workerDone == None
  {
    if l.workerDone.Some? { assert l.workerDone.value in Current(l); }
  }

  lemma {:induction false} ReturnedStays(w: World, acts: seq<Act>, c: nat)
    requires c in w.closers && w.closers[c].Returned?
    ensures c in Run(w, acts).closers && Run(w, acts).closers[c] == w.closers[c]
  {
    if |acts| > 0 { ReturnedStays(w, acts[..|acts| - 1], c); }
  }

  /** After a worker's exit, and only then, a later start that is not refused makes a new one. */
  lemma {:induction false} RestartsExactly(acts: seq<Act>, asked: bool, fits: bool)
    ensures var l := Run(Fresh(), acts).life; var (after, done) := Started(l, asked, fits);
      (after.live - l.live == {done} <==> asked && fits && !l.closed && !l.cancelled && l.live == {})
      && (after.live != l.live <==> after.live - l.live == {done})
  {
    RunInv(Fresh(), acts);
    var l := Run(Fresh(), acts).life;
    assert l.next !in l.live;
  }

  /** What a call of Start is answered with.  Refused: a new channel that is already closed.  While a worker
      is live: its channel, which is open, and nothing else changes.  Otherwise: a new channel, open, of the
      worker that is live from now on. */
  lemma {:induction false} StartAnswers(acts: seq<Act>, asked: bool, fits: bool)
    ensures var l := Run(Fresh(), acts).life;
      var (after, done) := Started(l, asked, fits);
      if !asked || l.closed || l.cancelled || (l.live == {} && !fits) then
        && after.live == l.live && after.workerDone == l.workerDone && done !in l.closings && after.closings == l.closings + [done]
      else if l.live != {} then
        after == l && l.live == {done} && done !in l.closings
      else
        && after.live == {done} && after.workerDone == Some(done) && after.closings == l.closings && done !in l.closings
        && after.closed == l.closed && after.cancelled == l.cancelled
  {
    RunInv(Fresh(), acts);
    var l := Run(Fresh(), acts).life;
    IdleHasNoWorker(l);
    assert l.next !in l.closings;
    if l.workerDone.Some? { assert l.workerDone.value in l.live; }
  }

  /** A close that nobody comes between cancels, waits for the live worker, if there is one, to exit, and
      returns without error; one whose time runs out first returns with one. */
  lemma {:induction false} CloseReturns(acts: seq<Act>, c: nat)
    requires c !in Run(Fresh(), acts).closers
    ensures var w := Run(Fresh(), acts);
      var waiting := Step(Step(w, Close(c)), CloseOn(c, false));
      && waiting.life.closed && (!w.life.closed ==> waiting.life.cancelled)
      && (forall d :: w.life.live == {d} ==>
            && Step(waiting, CloseOn(c, false)) == waiting
            && Step(waiting, CloseOn(c, true)).closers[c] == Returned(false)
            && Step(Step(waiting, Exit(d)), CloseOn(c, false)).closers[c] == Returned(true))
      && (w.life.live == {} ==> Step(waiting, CloseOn(c, false)).closers[c] == Returned(true))
  {
    RunInv(Fresh(), acts);
    var w := Run(Fresh(), acts);
    var closing := Step(w, Close(c));
    var waiting := Step(closing, CloseOn(c, false));
    IdleHasNoWorker(w.life);
    assert waiting.closers[c] == Waiting(w.life.workerDone) && waiting.life.live == w.life.live && waiting.life.closings == w.life.closings;
    forall d | w.life.live == {d}
      ensures Step(waiting, CloseOn(c, false)) == waiting && Step(waiting, CloseOn(c, true)).closers[c] == Returned(false)
      ensures Step(Step(waiting, Exit(d)), CloseOn(c, false)).closers[c] == Returned(true)
    {
      assert d in w.life.live && w.life.workerDone == Some(d) && d !in w.life.closings;
      var gone := Step(waiting, Exit(d));
      assert gone.life.closings == w.life.closings + [d] && d in gone.life.closings;
    }
  }
}
