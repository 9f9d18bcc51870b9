/** Command receipts: a management command is claimed under its idempotency key, run, and its
    response recorded, so that a repeat is answered without running it again. */
module Receipts {
  import opened Options

  // ---------- what identifies a command ----------

  datatype Command = Command(action: string, verb: string, path: string, reason: string, confirmation: string, body: string)

  /** A collision-free digest of a text. */
  datatype Digest = Digest(text: string)

  datatype Identity = Identity(action: string, resource: string, hash: Digest)

  function Join(parts: seq<string>): string {
    if |parts| == 0 then "" else if |parts| == 1 then parts[0] else parts[0] + "\n" + Join(parts[1..])
  }

  function Fields(c: Command): seq<string> {
    [c.action, c.verb, c.path, c.reason, c.confirmation, c.body]
  }

  function HashText(c: Command): string {
    Join(Fields(c))
  }

  function IdentityOf(c: Command): Identity {
    Identity(c.action, c.path, Digest(HashText(c)))
  }

  predicate OneLine(s: string) {
    '\n' !in s
  }

  /** The first line of a text that goes on determines the rest. */
  lemma {:induction false} SplitsAtNewline(a: string, b: string, x: string, y: string)
    requires OneLine(a) && OneLine(b) && a + "\n" + x == b + "\n" + y
    ensures a == b && x == y
  {
    FirstNewline(a, x);
    FirstNewline(b, y);
    var s, t := a + "\n" + x, b + "\n" + y;
    assert s[..|a|] == a && t[..|b|] == b;
    assert s[|a| + 1..] == x && t[|b| + 1..] == y;
  }

  lemma {:induction false} FirstNewline(a: string, x: string)
    requires OneLine(a)
    ensures var s := a + "\n" + x; s[|a|] == '\n' && forall i :: 0 <= i < |s| && s[i] == '\n' ==> |a| <= i
  {
    var s := a + "\n" + x;
    forall i | 0 <= i < |a| ensures s[i] != '\n' { assert s[i] == a[i] && a[i] in a; }
  }

  /** With one method, reason and confirmation line each, as HTTP requires of them, the identity that
      is compared is that of the command: no other command passes for it. */
  lemma {:induction false} IdentityIsTheCommand(c: Command, d: Command)
    requires OneLine(c.verb) && OneLine(c.reason) && OneLine(c.confirmation)
    requires OneLine(d.verb) && OneLine(d.reason) && OneLine(d.confirmation)
    ensures IdentityOf(c) == IdentityOf(d) <==> c == d
  {
    if IdentityOf(c) == IdentityOf(d) {
      var c3, d3 := c.reason + "\n" + (c.confirmation + "\n" + c.body), d.reason + "\n" + (d.confirmation + "\n" + d.body);
      JoinedFields(c);
      JoinedFields(d);
      SamePrefix(c.action + "\n", c.verb + "\n" + (c.path + "\n" + c3), d.verb + "\n" + (d.path + "\n" + d3));
      SplitsAtNewline(c.verb, d.verb, c.path + "\n" + c3, d.path + "\n" + d3);
      SamePrefix(c.path + "\n", c3, d3);
      SplitsAtNewline(c.reason, d.reason, c.confirmation + "\n" + c.body, d.confirmation + "\n" + d.body);
      SplitsAtNewline(c.confirmation, d.confirmation, c.body, d.body);
    }
  }

  lemma {:induction false} JoinedFields(c: Command)
    ensures HashText(c) == c.action + "\n" + (c.verb + "\n" + (c.path + "\n" + (c.reason + "\n" + (c.confirmation + "\n" + c.body))))
  {
    var f := Fields(c);
    assert f[1..][1..] == f[2..] && f[2..][1..] == f[3..] && f[3..][1..] == f[4..] && f[4..][1..] == f[5..];
    assert Join(f[5..]) == c.body;
    assert Join(f[4..]) == c.confirmation + "\n" + c.body;
    assert Join(f[3..]) == c.reason + "\n" + Join(f[4..]);
    assert Join(f[2..]) == c.path + "\n" + Join(f[3..]);
    assert Join(f[1..]) == c.verb + "\n" + Join(f[2..]);
  }

  lemma {:induction false} SamePrefix(p: string, x: string, y: string)
    requires p + x == p + y
    ensures x == y
  {
    assert (p + x)[|p|..] == x && (p + y)[|p|..] == y;
  }

  /** The hash alone would not do: a path may hold a line break, and then two different commands
      have one hash text.  Only the separate comparison of the resource tells them apart. */
  lemma {:induction false} HashAloneConfuses(action: string, verb: string, path: string, a: string, b: string, body: string)
    ensures var c, d := Command(action, verb, path + "\n" + a, b, "", body), Command(action, verb, path, a, b, "\n" + body);
      HashText(c) == HashText(d) && IdentityOf(c) != IdentityOf(d)
  {
    JoinedFields(Command(action, verb, path + "\n" + a, b, "", body));
    JoinedFields(Command(action, verb, path, a, b, "\n" + body));
    assert (path + "\n" + a) + "\n" + (b + "\n" + ("" + "\n" + body)) == path + "\n" + (a + "\n" + (b + "\n" + ("\n" + body)));
    assert |path + "\n" + a| != |path|;
  }

  // ---------- the response a handler writes ----------

  datatype Write = Header(status: int) | Bytes(text: string)

  datatype Response = Response(status: int, body: string)

  /** The first header counts, unless bytes came before it; all bytes count. */
  function Written(writes: seq<Write>): Response {
    Response(StatusOf(writes), BodyOf(writes))
  }

  function StatusOf(writes: seq<Write>): int {
    if |writes| == 0 || writes[0].Bytes? then 200 else writes[0].status
  }

  function BodyOf(writes: seq<Write>): string {
    if |writes| == 0 then "" else
      BodyOf(writes[..|writes| - 1]) + (if writes[|writes| - 1].Bytes? then writes[|writes| - 1].text else "")
  }

  class BufferedResponse {
    var status: int
    var wroteHeader: bool
    var body: string

    constructor ()
      ensures status == 200 && !wroteHeader && body == ""
    {
      status, wroteHeader, body := 200, false, "";
    }

    method WriteHeader(code: int)
      modifies this
      ensures wroteHeader && body == old(body)
      ensures status == if old(wroteHeader) then old(status) else code
    {
      if wroteHeader { return; }
      status, wroteHeader := code, true;
    }

    method WriteBytes(text: string)
      modifies this
      ensures wroteHeader && body == old(body) + text
      ensures status == if old(wroteHeader) then old(status) else 200
    {
      if !wroteHeader { WriteHeader(200); }
      body := body + text;
    }

    /** A handler is what it writes. */
    method Serve(writes: seq<Write>) returns (r: Response)
      requires status == 200 && !wroteHeader && body == ""
      modifies this
      ensures r == Written(writes)
    {
      var i := 0;
      while i < |writes|
        invariant 0 <= i <= |writes|
        invariant body == BodyOf(writes[..i]) && status == StatusOf(writes[..i]) && (wroteHeader <==> i > 0)
      {
        assert writes[..i + 1][..i] == writes[..i];
        match writes[i] {
          case Header(code) => WriteHeader(code);
          case Bytes(text) => WriteBytes(text);
        }
        i := i + 1;
      }
      assert writes[..i] == writes;
      return Response(status, body);
    }
  }

  // ---------- receipts ----------

  datatype Receipt = Executing(identity: Identity) | Completed(identity: Identity, response: Response)

  type Receipts = map<string, Receipt>

  datatype Reply = BadRequest | Unavailable | ConflictingKey | InProgress | Replayed(response: Response) | Ran(response: Response)

  predicate KeyAllowed(key: string) {
    1 <= |key| <= 191
  }

  predicate Complete(key: string, id: Identity) {
    key != "" && id.action != "" && id.resource != "" && id.hash.text != ""
  }

  /** What a request that found a receipt is answered, without running anything. */
  function Answer(stored: Receipt, id: Identity): Reply {
    if stored.identity != id then ConflictingKey
    else if stored.Executing? then InProgress
    else Replayed(stored.response)
  }

  datatype Claim = Claimed | Found(receipt: Receipt) | Incomplete

  class CommandReceiptStore {
    var receipts: Receipts

    constructor ()
      ensures receipts == map[]
    {
      receipts := map[];
    }

    method ClaimCommand(key: string, id: Identity) returns (r: Claim)
      modifies this
      ensures r == (if !Complete(key, id) then Incomplete
                    else if key in old(receipts) then Found(old(receipts)[key]) else Claimed)
      ensures receipts == if r == Claimed then old(receipts)[key := Executing(id)] else old(receipts)
    {
      if key == "" || id.action == "" || id.resource == "" || id.hash.text == "" { return Incomplete; }
      if key !in receipts {
        receipts := receipts[key := Executing(id)];
        return Claimed;
      }
      return Found(receipts[key]);
    }

    method CompleteCommand(key: string, hash: Digest, response: Response) returns (ok: bool)
      modifies this
      ensures ok <==> key in old(receipts) && old(receipts)[key].Executing? && old(receipts)[key].identity.hash == hash
      ensures receipts == if ok then old(receipts)[key := Completed(old(receipts)[key].identity, response)] else old(receipts)
    {
      if key in receipts && receipts[key].identity.hash == hash && receipts[key].Executing? {
        receipts := receipts[key := Completed(receipts[key].identity, response)];
        return true;
      }
      return false;
    }

    /** One request, undisturbed: the handler runs exactly when the key is new. */
    method WithReceipt(key: string, c: Command, handler: seq<Write>) returns (reply: Reply, ran: bool)
      modifies this
      ensures ran <==> KeyAllowed(key) && Complete(key, IdentityOf(c)) && key !in old(receipts)
      ensures reply == (if !KeyAllowed(key) then BadRequest
                        else if !Complete(key, IdentityOf(c)) then Unavailable
                        else if key in old(receipts) then Answer(old(receipts)[key], IdentityOf(c))
                        else Ran(Written(handler)))
      ensures receipts == if ran then old(receipts)[key := Completed(IdentityOf(c), Written(handler))] else old(receipts)
    {
      if key == "" || |key| > 191 { return BadRequest, false; }
      var id := IdentityOf(c);
      var claim := ClaimCommand(key, id);
      match claim {
        case Incomplete => return Unavailable, false;
        case Found(stored) =>
          if stored.identity.action != id.action || stored.identity.resource != id.resource || stored.identity.hash != id.hash {
            return ConflictingKey, false;
          }
          if !stored.Completed? { return InProgress, false; }
          return Replayed(stored.response), false;
        case Claimed =>
          var buffer := new BufferedResponse();
          var response := buffer.Serve(handler);
          var ok := CompleteCommand(key, id.hash, response);
          return if ok then Ran(response) else Unavailable, true;
      }
    }
  }
}
