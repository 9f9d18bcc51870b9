/** Many requests for management commands at once, statement by statement: claiming, reading the
    receipt found, running the handler, completing.  A request may stop anywhere, and a statement
    may fail before or after it took effect. */
module ReceiptRaces {
  import opened Receipts

  datatype Request = Request(key: string, command: Command)

  datatype Phase = Arrived | Beaten | Holding | Served(response: Response) | Replied(reply: Reply)

  datatype Client = Client(request: Request, phase: Phase)

  /** The receipts, with a record of every handler run from the moment it starts: under which key,
      and what for. */
  datatype World = World(receipts: Receipts, clients: map<nat, Client>, runs: seq<Request>)

  /** How a statement ends for its caller: well, or with an error before or after its effect. */
  datatype Luck = Well | LostBefore | LostAfter

  datatype Act = Arrive(client: nat, request: Request) | Advance(client: nat, luck: Luck, handler: seq<Write>) | Stop(client: nat)

  function Start(): World {
    World(map[], map[], [])
  }

  function Id(q: Request): Identity {
    IdentityOf(q.command)
  }

  function To(w: World, t: nat, phase: Phase): World
    requires t in w.clients
  {
    w.(clients := w.clients[t := w.clients[t].(phase := phase)])
  }

  predicate Completes(receipts: Receipts, q: Request) {
    q.key in receipts && receipts[q.key].Executing? && receipts[q.key].identity.hash == Id(q).hash
  }

  function Progress(w: World, t: nat, luck: Luck, handler: seq<Write>): World
    requires t in w.clients
  {
    var q := w.clients[t].request;
    match w.clients[t].phase
    case Arrived =>
      if !KeyAllowed(q.key) then To(w, t, Replied(BadRequest))
      else if !Complete(q.key, Id(q)) || luck.LostBefore? then To(w, t, Replied(Unavailable))
      else if q.key in w.receipts then To(w, t, if luck.Well? then Beaten else Replied(Unavailable))
      else To(w.(receipts := w.receipts[q.key := Executing(Id(q))]), t, if luck.Well? then Holding else Replied(Unavailable))
    case Beaten =>
      if !luck.Well? || q.key !in w.receipts then To(w, t, Replied(Unavailable))
      else To(w, t, Replied(Answer(w.receipts[q.key], Id(q))))
    case Holding => To(w.(runs := w.runs + [q]), t, Served(Written(handler)))
    case Served(response) =>
      if luck.LostBefore? || !Completes(w.receipts, q) then To(w, t, Replied(Unavailable))
      else To(w.(receipts := w.receipts[q.key := Completed(w.receipts[q.key].identity, response)]), t,
              Replied(if luck.Well? then Ran(response) else Unavailable))
    case Replied(_) => w
  }

  function Step(w: World, act: Act): World {
    match act
    case Arrive(t, q) => if t in w.clients then w else w.(clients := w.clients[t := Client(q, Arrived)])
    case Advance(t, luck, handler) => if t in w.clients then Progress(w, t, luck, handler) else w
    case Stop(t) => w.(clients := w.clients - {t})
  }

  function Run(w: World, acts: seq<Act>): World {
    if |acts| == 0 then w else Step(Run(w, acts[..|acts| - 1]), acts[|acts| - 1])
  }

  // ---------- invariants ----------

  predicate Holds(c: Client) {
    c.phase.Holding? || c.phase.Served?
  }

  ghost predicate HasRun(runs: seq<Request>, key: string) {
    exists i :: 0 <= i < |runs| && runs[i].key == key
  }

  ghost predicate ClientOk(receipts: Receipts, runs: seq<Request>, c: Client) {
    var q := c.request;
    match c.phase
    case Arrived => true
    case Beaten => q.key in receipts
    case Holding => q.key in receipts && receipts[q.key] == Executing(Id(q)) && !HasRun(runs, q.key)
    case Served(_) => q.key in receipts && receipts[q.key] == Executing(Id(q)) && q in runs
    case Replied(Ran(response)) => q.key in receipts && receipts[q.key] == Completed(Id(q), response)
    case Replied(Replayed(response)) => q.key in receipts && receipts[q.key] == Completed(Id(q), response)
    case Replied(_) => true
  }

  ghost predicate OneHolder(clients: map<nat, Client>) {
    forall t, u :: t in clients && u in clients && t != u && Holds(clients[t]) && Holds(clients[u])
                   ==> clients[t].request.key != clients[u].request.key
  }

  ghost predicate RunsOk(receipts: Receipts, runs: seq<Request>) {
    && (forall i :: 0 <= i < |runs| ==> runs[i].key in receipts && receipts[runs[i].key].identity == Id(runs[i]))
    && (forall i, j :: 0 <= i < j < |runs| ==> runs[i].key != runs[j].key)
    && (forall key :: key in receipts && receipts[key].Completed? ==> HasRun(runs, key))
  }

  ghost predicate Inv(w: World) {
    && (forall t :: t in w.clients ==> ClientOk(w.receipts, w.runs, w.clients[t]))
    && OneHolder(w.clients)
    && RunsOk(w.receipts, w.runs)
  }

  /** Receipts appear and are completed; a completed one never changes. */
  ghost predicate Settles(a: Receipts, b: Receipts) {
    forall key :: key in a ==> key in b && b[key].identity == a[key].identity && (a[key].Completed? ==> b[key] == a[key])
  }

  lemma {:induction false} PhaseOnly(w: World, t: nat, phase: Phase)
    requires Inv(w) && t in w.clients
    requires ClientOk(w.receipts, w.runs, w.clients[t].(phase := phase))
    requires Holds(w.clients[t].(phase := phase)) ==> Holds(w.clients[t])
    ensures Inv(To(w, t, phase))
  {
  }

  lemma {:induction false} ClaimStep(w: World, t: nat, phase: Phase)
    requires Inv(w) && t in w.clients && w.clients[t].phase.Arrived? && w.clients[t].request.key !in w.receipts
    requires phase == Holding || phase == Replied(Unavailable)
    ensures var q := w.clients[t].request;
      Inv(To(w.(receipts := w.receipts[q.key := Executing(Id(q))]), t, phase))
  {
    var q := w.clients[t].request;
    var w' := To(w.(receipts := w.receipts[q.key := Executing(Id(q))]), t, phase);
    forall u | u in w'.clients ensures ClientOk(w'.receipts, w'.runs, w'.clients[u]) {
      assert ClientOk(w.receipts, w.runs, w.clients[u]);
    }
    forall u | u in w.clients && Holds(w.clients[u]) ensures w.clients[u].request.key != q.key {
      assert ClientOk(w.receipts, w.runs, w.clients[u]);
    }
  }

  lemma {:induction false} HasRunStep(runs: seq<Request>, q: Request, key: string)
    ensures HasRun(runs + [q], key) <==> HasRun(runs, key) || key == q.key
  {
    var all := runs + [q];
    if HasRun(runs, key) {
      var i :| 0 <= i < |runs| && runs[i].key == key;
      assert all[i].key == key;
    }
    if key == q.key { assert all[|runs|].key == key; }
  }

  lemma {:induction false} RunStep(w: World, t: nat, response: Response)
    requires Inv(w) && t in w.clients && w.clients[t].phase.Holding?
    ensures Inv(To(w.(runs := w.runs + [w.clients[t].request]), t, Served(response)))
  {
    var q := w.clients[t].request;
    var w' := To(w.(runs := w.runs + [q]), t, Served(response));
    assert ClientOk(w.receipts, w.runs, w.clients[t]);
    forall u | u in w'.clients ensures ClientOk(w'.receipts, w'.runs, w'.clients[u]) {
      assert ClientOk(w.receipts, w.runs, w.clients[u]);
      HasRunStep(w.runs, q, w.clients[u].request.key);
      if u != t && Holds(w.clients[u]) { assert w.clients[u].request.key != q.key; }
    }
    forall key ensures HasRun(w'.runs, key) <==> HasRun(w.runs, key) || key == q.key { HasRunStep(w.runs, q, key); }
    forall i | 0 <= i < |w.runs| ensures w'.runs[i] == w.runs[i] && w.runs[i].key != q.key { assert !HasRun(w.runs, q.key); }
  }

  lemma {:induction false} CompleteStep(w: World, t: nat, reply: Reply)
    requires Inv(w) && t in w.clients && w.clients[t].phase.Served?
    requires var response := w.clients[t].phase.response; reply == Ran(response) || reply == Unavailable
    ensures var q, response := w.clients[t].request, w.clients[t].phase.response;
      && q.key in w.receipts && Completes(w.receipts, q)
      && Inv(To(w.(receipts := w.receipts[q.key := Completed(w.receipts[q.key].identity, response)]), t, Replied(reply)))
  {
    var q, response := w.clients[t].request, w.clients[t].phase.response;
    assert ClientOk(w.receipts, w.runs, w.clients[t]);
    var w' := To(w.(receipts := w.receipts[q.key := Completed(w.receipts[q.key].identity, response)]), t, Replied(reply));
    forall u | u in w'.clients ensures ClientOk(w'.receipts, w'.runs, w'.clients[u]) {
      assert ClientOk(w.receipts, w.runs, w.clients[u]);
      if u != t && Holds(w.clients[u]) { assert w.clients[u].request.key != q.key; }
    }
    var i :| 0 <= i < |w.runs| && w.runs[i] == q;
    assert HasRun(w.runs, q.key);
  }

  lemma {:induction false} StepInv(w: World, act: Act)
    requires Inv(w)
    ensures Inv(Step(w, act)) && Settles(w.receipts, Step(w, act).receipts)
  {
    match act
    case Arrive(t, q) =>
    case Stop(t) =>
    case Advance(t, luck, handler) =>
      if t in w.clients {
        var q := w.clients[t].request;
        assert ClientOk(w.receipts, w.runs, w.clients[t]);
        match w.clients[t].phase
        case Arrived =>
          if KeyAllowed(q.key) && Complete(q.key, Id(q)) && !luck.LostBefore? && q.key !in w.receipts {
            ClaimStep(w, t, if luck.Well? then Holding else Replied(Unavailable));
          } else {
            PhaseOnly(w, t, Progress(w, t, luck, handler).clients[t].phase);
          }
        case Beaten => PhaseOnly(w, t, Progress(w, t, luck, handler).clients[t].phase);
        case Holding => RunStep(w, t, Written(handler));
        case Served(response) =>
          if luck.LostBefore? {
            PhaseOnly(w, t, Replied(Unavailable));
          } else {
            CompleteStep(w, t, if luck.Well? then Ran(response) else Unavailable);
          }
        case Replied(_) =>
      }
  }

  lemma {:induction false} RunInv(w: World, acts: seq<Act>)
    requires Inv(w)
    ensures Inv(Run(w, acts)) && Settles(w.receipts, Run(w, acts).receipts)
  {
    if |acts| > 0 {
      RunInv(w, acts[..|acts| - 1]);
      StepInv(Run(w, acts[..|acts| - 1]), acts[|acts| - 1]);
    }
  }

  // ---------- what holds over every run ----------

  /** Under one key a handler runs at most once, whatever arrives, fails or stops. */
  lemma {:induction false} RunsAtMostOnce(acts: seq<Act>, i: nat, j: nat)
    requires i < j < |Run(Start(), acts).runs|
    ensures Run(Start(), acts).runs[i].key != Run(Start(), acts).runs[j].key
  {
    RunInv(Start(), acts);
  }

  predicate Responded(c: Client) {
    c.phase.Replied? && (c.phase.reply.Ran? || c.phase.reply.Replayed?)
  }

  /** All who are given a response under one key are given the same one, byte for byte, and asked for
      the same command as the handler that ran. */
  lemma {:induction false} ReplaysAreExact(acts: seq<Act>, t: nat, u: nat)
    requires var w := Run(Start(), acts);
      && t in w.clients && u in w.clients && w.clients[t].request.key == w.clients[u].request.key
      && Responded(w.clients[t]) && Responded(w.clients[u])
    ensures var w := Run(Start(), acts);
      && w.clients[t].phase.reply.response == w.clients[u].phase.reply.response
      && Id(w.clients[t].request) == Id(w.clients[u].request)
      && exists i :: 0 <= i < |w.runs| && w.runs[i].key == w.clients[t].request.key && Id(w.runs[i]) == Id(w.clients[t].request)
  {
    RunInv(Start(), acts);
    var w := Run(Start(), acts);
    assert ClientOk(w.receipts, w.runs, w.clients[t]) && ClientOk(w.receipts, w.runs, w.clients[u]);
    assert HasRun(w.runs, w.clients[t].request.key);
  }

  /** A request that differs from what holds its key, in action, resource or content, never runs its
      handler, holds nothing and is never given a response. */
  lemma {:induction false} OthersNeverRun(acts: seq<Act>, t: nat)
    requires var w := Run(Start(), acts);
      && t in w.clients && w.clients[t].request.key in w.receipts
      && w.receipts[w.clients[t].request.key].identity != Id(w.clients[t].request)
    ensures var w := Run(Start(), acts);
      && !Holds(w.clients[t]) && !Responded(w.clients[t])
      && (forall i :: 0 <= i < |w.runs| && w.runs[i].key == w.clients[t].request.key ==> Id(w.runs[i]) != Id(w.clients[t].request))
  {
    RunInv(Start(), acts);
    var w := Run(Start(), acts);
    assert ClientOk(w.receipts, w.runs, w.clients[t]);
  }

  /** A recorded response is for good. */
  lemma {:induction false} CompletedIsForever(w: World, acts: seq<Act>, key: string)
    requires Inv(w) && key in w.receipts && w.receipts[key].Completed?
    ensures key in Run(w, acts).receipts && Run(w, acts).receipts[key] == w.receipts[key]
  {
    RunInv(w, acts);
  }

  // ---------- an abandoned claim ----------

  /** Executing, and nobody left to complete it. */
  ghost predicate Abandoned(w: World, key: string) {
    && key in w.receipts && w.receipts[key].Executing?
    && forall t :: t in w.clients && w.clients[t].request.key == key ==> !Holds(w.clients[t])
  }

  lemma {:induction false} AbandonedStep(w: World, act: Act, key: string)
    requires Inv(w) && Abandoned(w, key)
    ensures var w' := Step(w, act);
      && Abandoned(w', key) && w'.receipts[key] == w.receipts[key]
      && (w'.runs == w.runs || (|w'.runs| > 0 && w'.runs == w.runs + [w'.runs[|w.runs|]] && w'.runs[|w.runs|].key != key))
  {
    if act.Advance? && act.client in w.clients {
      var t, c := act.client, w.clients[act.client];
      assert ClientOk(w.receipts, w.runs, c);
      var w' := Progress(w, t, act.luck, act.handler);
      if c.request.key == key {
        assert !Holds(c);
        assert w'.receipts == w.receipts && w'.runs == w.runs && !Holds(w'.clients[t]);
      } else {
        assert key in w'.receipts && w'.receipts[key] == w.receipts[key];
      }
    }
  }

  lemma {:induction false} ExecutingIsUnanswered(w: World, key: string, t: nat)
    requires Inv(w) && key in w.receipts && w.receipts[key].Executing?
    ensures t in w.clients && w.clients[t].request.key == key ==> !Responded(w.clients[t])
  {
    if t in w.clients { assert ClientOk(w.receipts, w.runs, w.clients[t]); }
  }

  /** A claim whose holder is gone keeps its key executing for ever: nothing runs under the key again,
      the receipt is never completed, and no request with the key is ever given a response. */
  lemma {:induction false} AbandonedForever(w: World, acts: seq<Act>, key: string, t: nat)
    requires Inv(w) && Abandoned(w, key)
    ensures var w' := Run(w, acts);
      && Abandoned(w', key) && w'.receipts[key] == w.receipts[key]
      && w.runs <= w'.runs && (forall i :: |w.runs| <= i < |w'.runs| ==> w'.runs[i].key != key)
      && (t in w'.clients && w'.clients[t].request.key == key ==> !Responded(w'.clients[t]))
  {
    RunInv(w, acts);
    var w' := Run(w, acts);
    if |acts| > 0 {
      var mid := Run(w, acts[..|acts| - 1]);
      RunInv(w, acts[..|acts| - 1]);
      AbandonedForever(w, acts[..|acts| - 1], key, t);
      AbandonedStep(mid, acts[|acts| - 1], key);
      forall i | |w.runs| <= i < |w'.runs| ensures w'.runs[i].key != key {
        if i < |mid.runs| { assert w'.runs[i] == mid.runs[i]; }
      }
    }
    ExecutingIsUnanswered(w', key, t);
  }

  lemma {:induction false} Then(w: World, acts: seq<Act>, v: World, act: Act) returns (acts': seq<Act>, v': World)
    requires v == Run(w, acts)
    ensures acts' == acts + [act] && v' == Step(v, act) && v' == Run(w, acts')
  {
    acts', v' := acts + [act], Step(v, act);
    assert acts'[..|acts'| - 1] == acts;
  }

  predicate CompletedAfter(w: World, acts: seq<Act>, key: string) {
    key in Run(w, acts).receipts && Run(w, acts).receipts[key].Completed?
  }

  /** A holder that carries on completes its receipt. */
  lemma {:induction false} HolderCompletes(w: World, t: nat) returns (acts: seq<Act>)
    requires Inv(w) && t in w.clients && Holds(w.clients[t])
    ensures CompletedAfter(w, acts, w.clients[t].request.key)
  {
    var v: World;
    acts, v := [], w;
    if w.clients[t].phase.Holding? {
      StepInv(w, Advance(t, Well, []));
      acts, v := Then(w, acts, v, Advance(t, Well, []));
    }
    assert v.clients[t].phase.Served? && ClientOk(v.receipts, v.runs, v.clients[t]);
    acts, v := Then(w, acts, v, Advance(t, Well, []));
  }

  /** Abandoned is exactly beyond completing: an executing receipt is completed by some run from here
      if and only if somebody still holds it. */
  lemma {:induction false} CompletableExactly(w: World, key: string)
    requires Inv(w) && key in w.receipts && w.receipts[key].Executing?
    ensures (exists acts :: CompletedAfter(w, acts, key)) <==> !Abandoned(w, key)
  {
    if Abandoned(w, key) {
      forall acts ensures !CompletedAfter(w, acts, key) { AbandonedForever(w, acts, key, 0); }
    } else {
      var t :| t in w.clients && w.clients[t].request.key == key && Holds(w.clients[t]);
      var acts := HolderCompletes(w, t);
      assert CompletedAfter(w, acts, key);
    }
  }

  /** And that happens to any command: its claimant stops before completing, and the same request
      sent again is told that it is in progress. */
  lemma {:induction false} ClaimGetsAbandoned(q: Request) returns (acts: seq<Act>)
    requires KeyAllowed(q.key) && Complete(q.key, Id(q))
    ensures var w := Run(Start(), acts);
      Abandoned(w, q.key) && w.runs == [] && 1 in w.clients && w.clients[1] == Client(q, Replied(InProgress))
  {
    var w: World;
    acts, w := Then(Start(), [], Start(), Arrive(0, q));
    acts, w := Then(Start(), acts, w, Advance(0, Well, []));
    assert w.clients == map[0 := Client(q, Holding)] && w.receipts == map[q.key := Executing(Id(q))];
    acts, w := Then(Start(), acts, w, Stop(0));
    assert w.clients == map[] && Abandoned(w, q.key);
    acts, w := Then(Start(), acts, w, Arrive(1, q));
    acts, w := Then(Start(), acts, w, Advance(1, Well, []));
    assert w.clients == map[1 := Client(q, Beaten)];
    acts, w := Then(Start(), acts, w, Advance(1, Well, []));
    assert w.clients == map[1 := Client(q, Replied(InProgress))];
  }

  // ---------- nobody in between ----------

  /** A request that arrives and is served without a failure and without anybody in between. */
  function ServedAlone(w: World, t: nat, q: Request, handler: seq<Write>): World {
    var a := Step(w, Arrive(t, q));
    Step(Step(Step(a, Advance(t, Well, handler)), Advance(t, Well, handler)), Advance(t, Well, handler))
  }

  /** It runs its handler if its key is well formed and new, and is given what the handler wrote; under a
      key that is known it is given the recorded response, or told that the command is under way, or that
      the key is another command's, and its handler does not run. */
  lemma {:induction false} AnsweredAlone(w: World, t: nat, q: Request, handler: seq<Write>)
    requires t !in w.clients
    ensures var w' := ServedAlone(w, t, q, handler);
      var wellFormed := 1 <= |q.key| <= 191 && q.command.action != "" && q.command.path != "";
      && t in w'.clients && w'.clients == w.clients[t := w'.clients[t]] && w'.clients[t].request == q && w'.clients[t].phase.Replied?
      && var reply := w'.clients[t].phase.reply;
      if wellFormed && q.key !in w.receipts then
        && reply == Ran(Written(handler)) && w'.runs == w.runs + [q]
        && w'.receipts == w.receipts[q.key := Completed(IdentityOf(q.command), Written(handler))]
      else
        && w'.runs == w.runs && w'.receipts == w.receipts
        && (|q.key| == 0 || |q.key| > 191 ==> reply == BadRequest)
        && (1 <= |q.key| <= 191 && !wellFormed ==> reply == Unavailable)
        && (wellFormed ==>
              var known := w.receipts[q.key];
              && (known.identity != IdentityOf(q.command) ==> reply == ConflictingKey)
              && (known.identity == IdentityOf(q.command) && known.Executing? ==> reply == InProgress)
              && (known.identity == IdentityOf(q.command) && known.Completed? ==> reply == Replayed(known.response)))
  {
    JoinedFields(q.command);
    assert HashText(q.command) != "";
    if 1 <= |q.key| <= 191 && q.command.action != "" && q.command.path != "" && q.key !in w.receipts { RunsAlone(w, t, q, handler); }
  }

  lemma {:induction false} RunsAlone(w: World, t: nat, q: Request, handler: seq<Write>)
    requires t !in w.clients && KeyAllowed(q.key) && Complete(q.key, Id(q)) && q.key !in w.receipts
    ensures var response := Written(handler);
      ServedAlone(w, t, q, handler)
      == World(w.receipts[q.key := Completed(Id(q), response)], w.clients[t := Client(q, Replied(Ran(response)))], w.runs + [q])
  {
    var a := Step(w, Arrive(t, q));
    var b := Step(a, Advance(t, Well, handler));
    assert b == World(w.receipts[q.key := Executing(Id(q))], w.clients[t := Client(q, Holding)], w.runs);
    var c := Step(b, Advance(t, Well, handler));
    assert c == World(w.receipts[q.key := Executing(Id(q))], w.clients[t := Client(q, Served(Written(handler)))], w.runs + [q]);
  }

  /** So a command that was run is answered for good: whatever happens in between, the same request under the
      same key is given the same response, byte for byte, and nothing runs for it. */
  lemma {:induction false} RepeatsAreReplayed(w: World, t: nat, u: nat, q: Request, handler: seq<Write>, acts: seq<Act>, again: seq<Write>)
    requires Inv(w) && t !in w.clients && q.key !in w.receipts
    requires 1 <= |q.key| <= 191 && q.command.action != "" && q.command.path != ""
    requires u !in Run(ServedAlone(w, t, q, handler), acts).clients
    ensures var later := Run(ServedAlone(w, t, q, handler), acts);
      var after := ServedAlone(later, u, q, again);
      && after.clients[u].phase == Replied(Replayed(Written(handler))) && after.runs == later.runs
      && w.runs + [q] <= later.runs
  {
    AnsweredAlone(w, t, q, handler);
    var done := ServedAlone(w, t, q, handler);
    StepsInv(w, t, q, handler);
    CompletedIsForever(done, acts, q.key);
    RunsOnlyGrow(done, acts);
    AnsweredAlone(Run(done, acts), u, q, again);
  }

  lemma {:induction false} StepsInv(w: World, t: nat, q: Request, handler: seq<Write>)
    requires Inv(w)
    ensures Inv(ServedAlone(w, t, q, handler))
  {
    var a := Step(w, Arrive(t, q));
    StepInv(w, Arrive(t, q));
    StepInv(a, Advance(t, Well, handler));
    StepInv(Step(a, Advance(t, Well, handler)), Advance(t, Well, handler));
    StepInv(Step(Step(a, Advance(t, Well, handler)), Advance(t, Well, handler)), Advance(t, Well, handler));
  }

  lemma {:induction false} RunsOnlyGrow(w: World, acts: seq<Act>)
    ensures w.runs <= Run(w, acts).runs
  {
    if |acts| > 0 { RunsOnlyGrow(w, acts[..|acts| - 1]); }
  }
}
