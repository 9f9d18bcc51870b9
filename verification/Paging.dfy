/** Keyset paging over text ids: what a caller that follows cursors gets to see. */
module Paging {
  import opened TextOrder

  /** Ids as an ordered query lists them: no two alike. */
  ghost predicate Ascending(ids: seq<string>) {
    forall i, j :: 0 <= i < j < |ids| ==> Less(ids[i], ids[j])
  }

  /** The ids behind a cursor; the empty cursor is the start. */
  function Following(ids: seq<string>, after: string): seq<string> {
    if after == "" || |ids| == 0 || Less(after, ids[0]) then ids else Following(ids[1..], after)
  }

  /** The rows a query returns that orders, filters by the cursor and stops at the limit. */
  function Page(ids: seq<string>, after: string, limit: nat): seq<string> {
    var rest := Following(ids, after);
    if |rest| <= limit then rest else rest[..limit]
  }

  /** Behind a non-empty cursor are exactly the ids greater than it, and they are the end of the list. */
  lemma {:induction false} FollowingIsSuffix(ids: seq<string>, after: string) returns (n: nat)
    requires Ascending(ids)
    ensures n <= |ids| && Following(ids, after) == ids[n..]
    ensures after == "" ==> n == 0
    ensures forall i :: 0 <= i < |ids| && after != "" ==> (n <= i <==> Less(after, ids[i]))
  {
    if after == "" || |ids| == 0 {
      n := 0;
    } else if Less(after, ids[0]) {
      n := 0;
      forall i | 0 <= i < |ids| ensures Less(after, ids[i]) {
        if i > 0 { Transitive(after, ids[0], ids[i]); }
      }
    } else {
      n := FollowingIsSuffix(ids[1..], after);
      n := n + 1;
      forall i | 0 <= i < |ids| ensures n <= i <==> Less(after, ids[i]) {
        if i > 0 { assert ids[1..][i - 1] == ids[i]; }
      }
    }
  }

  lemma {:induction false} FollowingIsListed(ids: seq<string>, after: string, i: nat)
    requires Ascending(ids) && i < |Following(ids, after)|
    ensures Following(ids, after)[i] in ids
  {
    var n := FollowingIsSuffix(ids, after);
    assert Following(ids, after)[i] == ids[n + i];
  }

  lemma {:induction false} EmptyIsLeast(a: string)
    ensures !Less(a, "") && (a != "" ==> Less("", a))
  {
  }

  /** A full page moves the cursor strictly forward, and what then follows is what the page left. */
  lemma {:induction false} CursorAdvances(ids: seq<string>, after: string, limit: nat)
    requires Ascending(ids) && limit >= 1 && |Following(ids, after)| >= limit && Following(ids, after)[limit - 1] != ""
    ensures var next := Following(ids, after)[limit - 1];
      && Less(after, next)
      && Following(ids, next) == Following(ids, after)[limit..]
  {
    var n := FollowingIsSuffix(ids, after);
    var next := ids[n + limit - 1];
    var m := FollowingIsSuffix(ids, next);
    EmptyIsLeast(next);
    Irreflexive(next);
    assert m > n + limit - 1;
    if n + limit < |ids| { assert Less(next, ids[n + limit]); }
    assert m == n + limit;
    assert ids[n..][limit..] == ids[n + limit..];
  }

  /** Everything a caller sees that asks for one page after another, each with the last id of the
      page before it, and stops at the first page with nothing behind it. */
  function FollowCursors(ids: seq<string>, after: string, limit: nat, fuel: nat): seq<string>
    decreases fuel
  {
    var rest := Following(ids, after);
    if fuel == 0 || limit == 0 || |rest| <= limit then Page(ids, after, limit)
    else Page(ids, after, limit) + FollowCursors(ids, rest[limit - 1], limit, fuel - 1)
  }

  /** That is everything behind the first cursor, once each and in order, whatever the page size;
      the number of ids is enough pages. */
  lemma {:induction false} PagesAreComplete(ids: seq<string>, after: string, limit: nat, fuel: nat)
    requires Ascending(ids) && "" !in ids && limit >= 1 && fuel >= |Following(ids, after)|
    ensures FollowCursors(ids, after, limit, fuel) == Following(ids, after)
    decreases fuel
  {
    var rest := Following(ids, after);
    if |rest| > limit {
      FollowingIsListed(ids, after, limit - 1);
      CursorAdvances(ids, after, limit);
      PagesAreComplete(ids, rest[limit - 1], limit, fuel - 1);
      assert rest == Page(ids, after, limit) + rest[limit..];
    }
  }
}
