/** Text comparison as the database and Go perform it: character by character, a proper prefix
    first.  Sorting by a text key is defined on top of it. */
module TextOrder {

  predicate Less(a: string, b: string) {
    |b| > 0 && (|a| == 0 || a[0] < b[0] || (a[0] == b[0] && Less(a[1..], b[1..])))
  }

  predicate AtMost(a: string, b: string) {
    !Less(b, a)
  }

  lemma {:induction false} Irreflexive(a: string)
    ensures !Less(a, a)
  {
    if |a| > 0 { Irreflexive(a[1..]); }
  }

  lemma {:induction false} Transitive(a: string, b: string, c: string)
    requires Less(a, b) && Less(b, c)
    ensures Less(a, c)
  {
    if |a| > 0 && a[0] == b[0] == c[0] { Transitive(a[1..], b[1..], c[1..]); }
  }

  lemma {:induction false} Asymmetric(a: string, b: string)
    requires Less(a, b)
    ensures !Less(b, a) && a != b
  {
    if |a| > 0 && a[0] == b[0] { Asymmetric(a[1..], b[1..]); }
  }

  lemma {:induction false} Trichotomy(a: string, b: string)
    ensures Less(a, b) || a == b || Less(b, a)
  {
    if |a| > 0 && |b| > 0 && a[0] == b[0] {
      Trichotomy(a[1..], b[1..]);
      assert a == [a[0]] + a[1..] && b == [b[0]] + b[1..];
    }
  }

  /** A shared prefix does not matter. */
  lemma {:induction false} CommonPrefix(p: string, a: string, b: string)
    ensures Less(p + a, p + b) == Less(a, b)
  {
    if |p| == 0 {
      assert p + a == a && p + b == b;
    } else {
      assert (p + a)[1..] == p[1..] + a && (p + b)[1..] == p[1..] + b;
      CommonPrefix(p[1..], a, b);
    }
  }

  /** Two different prefixes of one length decide the comparison. */
  lemma {:induction false} PrefixDecides(p: string, q: string, a: string, b: string)
    requires |p| == |q| && p != q
    ensures Less(p + a, q + b) == Less(p, q)
  {
    assert (p + a)[1..] == p[1..] + a && (q + b)[1..] == q[1..] + b;
    if p[0] == q[0] {
      assert p == [p[0]] + p[1..] && q == [q[0]] + q[1..];
      PrefixDecides(p[1..], q[1..], a, b);
    }
  }

  // ---------- sorting by a text key ----------

  ghost predicate SortedBy<T(!new)>(key: T -> string, s: seq<T>) {
    forall i, j :: 0 <= i < j < |s| ==> AtMost(key(s[i]), key(s[j]))
  }

  /** Elements with one key are one element. */
  ghost predicate KeyDetermines<T(!new)>(key: T -> string, s: seq<T>) {
    forall i, j :: 0 <= i < |s| && 0 <= j < |s| && key(s[i]) == key(s[j]) ==> s[i] == s[j]
  }

  /** Texts as keys of themselves. */
  function Itself(s: string): string {
    s
  }

  function Insert<T>(key: T -> string, x: T, s: seq<T>): seq<T> {
    if |s| == 0 || AtMost(key(x), key(s[0])) then [x] + s else [s[0]] + Insert(key, x, s[1..])
  }

  function SortBy<T>(key: T -> string, s: seq<T>): seq<T> {
    if |s| == 0 then [] else Insert(key, s[0], SortBy(key, s[1..]))
  }

  lemma {:induction false} AtMostTransitive(a: string, b: string, c: string)
    requires AtMost(a, b) && AtMost(b, c)
    ensures AtMost(a, c)
  {
    Trichotomy(a, b);
    Trichotomy(b, c);
    if Less(a, b) && Less(b, c) { Transitive(a, b, c); Asymmetric(a, c); }
  }

  lemma {:induction false} InsertSorts<T(!new)>(key: T -> string, x: T, s: seq<T>)
    requires SortedBy(key, s)
    ensures SortedBy(key, Insert(key, x, s))
    ensures multiset(Insert(key, x, s)) == multiset{x} + multiset(s)
  {
    var r := Insert(key, x, s);
    if |s| == 0 {
    } else if AtMost(key(x), key(s[0])) {
      forall j | 0 <= j < |s| ensures AtMost(key(x), key(s[j])) {
        if j > 0 { AtMostTransitive(key(x), key(s[0]), key(s[j])); }
      }
    } else {
      InsertSorts(key, x, s[1..]);
      var rest := Insert(key, x, s[1..]);
      assert s == [s[0]] + s[1..];
      Asymmetric(key(s[0]), key(x));
      forall j | 0 <= j < |rest| ensures AtMost(key(s[0]), key(rest[j])) {
        assert rest[j] in multiset(rest);
        assert rest[j] == x || rest[j] in s[1..];
      }
    }
  }

  /** Sorting keeps exactly the elements it was given and puts them in key order. */
  lemma {:induction false} SortBySorts<T(!new)>(key: T -> string, s: seq<T>)
    ensures SortedBy(key, SortBy(key, s))
    ensures multiset(SortBy(key, s)) == multiset(s)
  {
    if |s| > 0 {
      SortBySorts(key, s[1..]);
      InsertSorts(key, s[0], SortBy(key, s[1..]));
      assert s == [s[0]] + s[1..];
    }
  }

  lemma {:induction false} SortedHeadsAgree<T(!new)>(key: T -> string, s: seq<T>, t: seq<T>)
    requires SortedBy(key, s) && SortedBy(key, t)
    requires multiset(s) == multiset(t) && KeyDetermines(key, s)
    requires |s| > 0 && |t| > 0
    ensures s[0] == t[0]
  {
    assert t[0] in multiset(s) && s[0] in multiset(t);
    var j :| 0 <= j < |s| && s[j] == t[0];
    var i :| 0 <= i < |t| && t[i] == s[0];
    Irreflexive(key(s[0]));
    assert AtMost(key(s[0]), key(s[j])) && AtMost(key(t[0]), key(t[i]));
    Trichotomy(key(s[0]), key(t[0]));
    assert key(s[0]) == key(s[j]);
  }

  lemma {:induction false} MultisetTail<T>(s: seq<T>)
    requires |s| > 0
    ensures multiset(s[1..]) == multiset(s) - multiset{s[0]}
  {
    assert s == [s[0]] + s[1..];
  }

  /** There is only one sorted arrangement of elements that their keys determine. */
  lemma {:induction false} SortedUnique<T(!new)>(key: T -> string, s: seq<T>, t: seq<T>)
    requires SortedBy(key, s) && SortedBy(key, t)
    requires multiset(s) == multiset(t) && KeyDetermines(key, s)
    ensures s == t
  {
    assert |s| == |multiset(s)| == |multiset(t)| == |t|;
    if |s| > 0 {
      SortedHeadsAgree(key, s, t);
      MultisetTail(s);
      MultisetTail(t);
      SortedUnique(key, s[1..], t[1..]);
      assert s == [s[0]] + s[1..] && t == [t[0]] + t[1..];
    }
  }

  /** So the order in which the elements arrive cannot be seen in the sorted result. */
  lemma {:induction false} SortForgetsOrder<T(!new)>(key: T -> string, s: seq<T>, t: seq<T>)
    requires multiset(s) == multiset(t)
    requires KeyDetermines(key, s)
    ensures SortBy(key, s) == SortBy(key, t)
  {
    SortBySorts(key, s);
    SortBySorts(key, t);
    var r := SortBy(key, s);
    forall i, j | 0 <= i < |r| && 0 <= j < |r| && key(r[i]) == key(r[j]) ensures r[i] == r[j] {
      assert r[i] in multiset(s) && r[j] in multiset(s);
    }
    SortedUnique(key, r, SortBy(key, t));
  }
}
