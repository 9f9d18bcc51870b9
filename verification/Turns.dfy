/** Operations on the shared tables one after another, and whose turn each of them is. */
module Turns {
  import opened RunTables
  import Windows

  // ---------- operations one after another ----------

  function After(cal: Calendar, db: Db, ops: seq<Op>): Db
    decreases |ops|
  {
    if |ops| == 0 then db else After(cal, Tables(cal, db, ops[0]), ops[1..])
  }

  lemma {:induction false} AfterKeepsRuns(cal: Calendar, db: Db, ops: seq<Op>, id: RunId)
    requires id in db.runs
    ensures id in After(cal, db, ops).runs
    decreases |ops|
  {
    if |ops| > 0 {
      Windows.RunsOnlyAppear(cal, db, ops[0], id);
      AfterKeepsRuns(cal, Tables(cal, db, ops[0]), ops[1..], id);
    }
  }

  lemma {:induction false} AfterKeepsStates(cal: Calendar, db: Db, ops: seq<Op>, key: string)
    requires key in db.states
    ensures key in After(cal, db, ops).states
    decreases |ops|
  {
    if |ops| > 0 { AfterKeepsStates(cal, Tables(cal, db, ops[0]), ops[1..], key); }
  }

  lemma {:induction false} AfterThen(cal: Calendar, db: Db, a: seq<Op>, b: seq<Op>)
    ensures After(cal, db, a + b) == After(cal, After(cal, db, a), b)
    decreases |a|
  {
    if |a| == 0 {
      assert a + b == b;
    } else {
      assert (a + b)[1..] == a[1..] + b;
      AfterThen(cal, Tables(cal, db, a[0]), a[1..], b);
    }
  }

  lemma {:induction false} AfterOne(cal: Calendar, db: Db, op: Op)
    ensures After(cal, db, [op]) == Tables(cal, db, op)
  {
    assert [op][1..] == [];
  }

  // ---------- one process among others ----------

  datatype Turn = Mine(op: Op) | Theirs(op: Op)

  function Ops(turns: seq<Turn>): (ops: seq<Op>)
    ensures |ops| == |turns| && forall i :: 0 <= i < |ops| ==> ops[i] == turns[i].op
  {
    seq(|turns|, i requires 0 <= i < |turns| => turns[i].op)
  }

  function OfOthers(ops: seq<Op>): (turns: seq<Turn>)
    ensures |turns| == |ops| && Ops(turns) == ops && forall i :: 0 <= i < |turns| ==> turns[i].Theirs?
  {
    seq(|ops|, i requires 0 <= i < |ops| => Theirs(ops[i]))
  }

  function OfMine(ops: seq<Op>): (turns: seq<Turn>)
    ensures |turns| == |ops| && Ops(turns) == ops && forall i :: 0 <= i < |turns| ==> turns[i] == Mine(ops[i])
  {
    seq(|ops|, i requires 0 <= i < |ops| => Mine(ops[i]))
  }

  lemma {:induction false} OpsThen(a: seq<Turn>, b: seq<Turn>)
    ensures Ops(a + b) == Ops(a) + Ops(b)
  {
  }

  function AfterTurns(cal: Calendar, db: Db, turns: seq<Turn>): Db {
    After(cal, db, Ops(turns))
  }

  lemma {:induction false} TurnsThen(cal: Calendar, db: Db, a: seq<Turn>, b: seq<Turn>)
    ensures AfterTurns(cal, db, a + b) == AfterTurns(cal, AfterTurns(cal, db, a), b)
  {
    OpsThen(a, b);
    AfterThen(cal, db, Ops(a), Ops(b));
  }

  lemma {:induction false} OneTurn(cal: Calendar, db: Db, turn: Turn)
    ensures AfterTurns(cal, db, [turn]) == Tables(cal, db, turn.op)
  {
    assert Ops([turn]) == [turn.op];
    AfterOne(cal, db, turn.op);
  }
}
