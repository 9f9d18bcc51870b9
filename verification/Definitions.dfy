/** Definition snapshots: their canonical form and content, and the rows a publication leaves. */
module Definitions {
  import opened TextOrder
  import opened Options
  import opened Multisets
  import opened RunTables

  // ---------- canonical content ----------

  function KeyOf(d: Definition): string {
    d.key
  }

  /** The digest of a canonical snapshot; two snapshots have one digest only if they are one. */
  datatype Content = Content(canonical: seq<Definition>)

  function Canonical(defs: seq<Definition>): seq<Definition> {
    SortBy(KeyOf, defs)
  }

  function ContentOf(defs: seq<Definition>): Content {
    Content(Canonical(defs))
  }

  predicate RepeatsKey(defs: seq<Definition>) {
    exists i, j :: 0 <= i < j < |defs| && defs[i].key == defs[j].key
  }

  lemma {:induction false} CanonicalKeepsKeys(defs: seq<Definition>)
    ensures multiset(Canonical(defs)) == multiset(defs) && |Canonical(defs)| == |defs|
    ensures forall d :: d in Canonical(defs) <==> d in defs
  {
    SortBySorts(KeyOf, defs);
    assert |multiset(Canonical(defs))| == |multiset(defs)|;
    forall d ensures d in Canonical(defs) <==> d in defs {
      assert d in Canonical(defs) <==> d in multiset(Canonical(defs));
    }
  }

  /** The canonical form of a snapshot is its definitions, each as often as it was there, in key order. */
  lemma {:induction false} CanonicalIsKeyOrder(defs: seq<Definition>)
    ensures multiset(Canonical(defs)) == multiset(defs)
    ensures forall i, j :: 0 <= i < j < |Canonical(defs)| ==> AtMost(Canonical(defs)[i].key, Canonical(defs)[j].key)
  {
    SortBySorts(KeyOf, defs);
    var c := Canonical(defs);
    forall i, j | 0 <= i < j < |c| ensures AtMost(c[i].key, c[j].key) { assert AtMost(KeyOf(c[i]), KeyOf(c[j])); }
  }

  /** Encodes a snapshot: refused exactly when a key repeats, otherwise its definitions in key order
      and the digest of that. */
  method EncodeDefinitions(defs: seq<Definition>) returns (r: Option<(seq<Definition>, Content)>)
    ensures r.None? <==> RepeatsKey(defs)
    ensures r.Some? ==> r.value.0 == Canonical(defs) && r.value.1 == ContentOf(defs)
  {
    var values, seen := [], {};
    var i := 0;
    while i < |defs|
      invariant 0 <= i <= |defs|
      invariant values == defs[..i]
      invariant forall k :: k in seen <==> exists j :: 0 <= j < i && defs[j].key == k
      invariant !RepeatsKey(defs[..i])
    {
      if defs[i].key in seen {
        return None;
      }
      seen := seen + {defs[i].key};
      values := values + [defs[i]];
      i := i + 1;
    }
    assert defs[..i] == defs;
    values := SortBy(KeyOf, values);
    return Some((values, Content(values)));
  }

  lemma {:induction false} DistinctKeysDetermine(defs: seq<Definition>)
    requires !RepeatsKey(defs)
    ensures KeyDetermines(KeyOf, defs)
  {
    forall i, j | 0 <= i < |defs| && 0 <= j < |defs| ensures KeyOf(defs[i]) == KeyOf(defs[j]) ==> defs[i] == defs[j] {
      if i < j { assert defs[i].key != defs[j].key; }
      if j < i { assert defs[j].key != defs[i].key; }
    }
  }

  /** A snapshot's content does not depend on the order it is submitted in, and nothing else has
      that content. */
  lemma {:induction false} ContentIsUpToOrder(a: seq<Definition>, b: seq<Definition>)
    requires !RepeatsKey(a)
    ensures ContentOf(a) == ContentOf(b) <==> multiset(a) == multiset(b)
  {
    CanonicalKeepsKeys(a);
    CanonicalKeepsKeys(b);
    if multiset(a) == multiset(b) {
      DistinctKeysDetermine(a);
      SortForgetsOrder(KeyOf, a, b);
    }
  }

  // ---------- definition rows ----------

  datatype DefRow = DefRow(definition: Definition, version: int, disabled: bool)

  type DefRows = map<string, DefRow>

  function DisableAll(rows: DefRows): DefRows {
    map key | key in rows :: rows[key].(disabled := true)
  }

  function Upsert(rows: DefRows, d: Definition, version: int): DefRows {
    rows[d.key := DefRow(d, version, false)]
  }

  function UpsertAll(rows: DefRows, defs: seq<Definition>, version: int): DefRows {
    if |defs| == 0 then rows else Upsert(UpsertAll(rows, defs[..|defs| - 1], version), defs[|defs| - 1], version)
  }

  function WriteDefinitions(rows: DefRows, defs: seq<Definition>, version: int): DefRows {
    UpsertAll(DisableAll(rows), defs, version)
  }

  predicate RowsOk(rows: DefRows) {
    forall key :: key in rows ==> rows[key].definition.key == key
  }

  /** The enabled definitions, in whatever order the engine returns them. */
  ghost function Listing(rows: DefRows, keys: set<string>): seq<Definition> {
    if keys == {} then [] else
      var k :| k in keys;
      (if k in rows && !rows[k].disabled then [rows[k].definition] else []) + Listing(rows, keys - {k})
  }

  ghost function ReadDefinitions(rows: DefRows): seq<Definition> {
    Canonical(Listing(rows, rows.Keys))
  }

  lemma {:induction false} ListingHas(rows: DefRows, keys: set<string>)
    requires RowsOk(rows)
    ensures forall d :: d in Listing(rows, keys) <==> d.key in keys && d.key in rows && rows[d.key] == DefRow(d, rows[d.key].version, false)
    ensures !RepeatsKey(Listing(rows, keys))
    decreases keys
  {
    if keys != {} {
      var k :| k in keys && Listing(rows, keys)
        == (if k in rows && !rows[k].disabled then [rows[k].definition] else []) + Listing(rows, keys - {k});
      ListingHas(rows, keys - {k});
      var rest := Listing(rows, keys - {k});
      if k in rows && !rows[k].disabled {
        PrependKey(rows[k].definition, rest);
        assert forall d :: d in Listing(rows, keys) <==> d == rows[k].definition || d in rest;
      } else {
        assert Listing(rows, keys) == rest;
      }
    }
  }

  lemma {:induction false} PrependKey(d: Definition, rest: seq<Definition>)
    requires !RepeatsKey(rest) && forall e :: e in rest ==> e.key != d.key
    ensures !RepeatsKey([d] + rest)
  {
    var all := [d] + rest;
    forall i, j | 0 <= i < j < |all| ensures all[i].key != all[j].key {
      assert all[j] == rest[j - 1] && all[j] in rest;
      if i > 0 { assert all[i] == rest[i - 1]; }
    }
  }

  lemma {:induction false} UpsertedRows(rows: DefRows, defs: seq<Definition>, version: int)
    requires RowsOk(rows) && !RepeatsKey(defs)
    ensures var after := UpsertAll(rows, defs, version);
      && RowsOk(after)
      && (forall i :: 0 <= i < |defs| ==> defs[i].key in after && after[defs[i].key] == DefRow(defs[i], version, false))
      && (forall key :: key in after ==> (key in rows && after[key] == rows[key]) || (exists i :: 0 <= i < |defs| && defs[i].key == key))
  {
    if |defs| > 0 {
      var init, last := defs[..|defs| - 1], defs[|defs| - 1];
      UpsertedRows(rows, init, version);
      forall i | 0 <= i < |init| ensures defs[i] == init[i] && init[i].key != last.key { assert defs[i].key != defs[|defs| - 1].key; }
      var before, after := UpsertAll(rows, init, version), UpsertAll(rows, defs, version);
      forall key | key in after && !(key in rows && after[key] == rows[key]) ensures exists i :: 0 <= i < |defs| && defs[i].key == key {
        if key == last.key {
          assert defs[|defs| - 1].key == key;
        } else {
          assert after[key] == before[key];
          var i :| 0 <= i < |init| && init[i].key == key;
          assert defs[i].key == key;
        }
      }
    }
  }

  /** Publishing a snapshot and reading the rows back gives the snapshot, in key order, whatever
      rows were there before. */
  lemma {:induction false} PublishThenRead(rows: DefRows, defs: seq<Definition>, version: int)
    requires RowsOk(rows) && !RepeatsKey(defs)
    ensures var after := WriteDefinitions(rows, defs, version);
      && RowsOk(after) && ReadDefinitions(after) == Canonical(defs)
      && (forall key :: key in after && !after[key].disabled ==> after[key].version == version)
  {
    var after := WriteDefinitions(rows, defs, version);
    UpsertedRows(DisableAll(rows), defs, version);
    ListingHas(after, after.Keys);
    var listed := Listing(after, after.Keys);
    WrittenListed(rows, defs, version);
    SameMembersSameMultiset(listed, defs);
    ContentIsUpToOrder(listed, defs);
  }

  lemma {:induction false} WrittenListed(rows: DefRows, defs: seq<Definition>, version: int)
    requires RowsOk(rows) && !RepeatsKey(defs)
    ensures var after := WriteDefinitions(rows, defs, version);
      && (forall d :: d in Listing(after, after.Keys) <==> d in defs)
      && (forall key :: key in after && !after[key].disabled ==> after[key].version == version)
  {
    var after := WriteDefinitions(rows, defs, version);
    UpsertedRows(DisableAll(rows), defs, version);
    ListingHas(after, after.Keys);
    var listed := Listing(after, after.Keys);
    forall d ensures d in listed <==> d in defs {
      if d in defs {
        var i :| 0 <= i < |defs| && defs[i] == d;
        assert after[defs[i].key] == DefRow(d, version, false);
      }
    }
  }
}
