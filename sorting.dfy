/** `Array.prototype.sort` with a comparator that subtracts two timestamps, as the
    components write it (`new Date(a.x).getTime() - new Date(b.x).getTime()`).

    A comparator that returns NaN is read as 0 by the sort, so an unparsable date
    (`None`) "equals" every other element. JavaScript's sort is stable; this model is a
    stable insertion sort. With every key present its result is the unique stable
    ordering, so it agrees with any engine; with missing keys the order an engine
    produces is its own choice and the model fixes one. */
module Sorting {
  import opened Wrappers
  import opened Seqs

  /** `x - y` on two timestamps, where a NaN difference counts as 0. */
  function Diff(x: Option<int>, y: Option<int>): int {
    if x.Some? && y.Some? then x.value - y.value else 0
  }

  /** The comparator: ascending by key, or descending when `desc` (`b - a`). */
  function Cmp<T>(key: T -> Option<int>, desc: bool, a: T, b: T): int {
    if desc then Diff(key(b), key(a)) else Diff(key(a), key(b))
  }

  /** Puts `x` before the first element it does not sort after. */
  function Insert<T>(x: T, s: seq<T>, key: T -> Option<int>, desc: bool): (r: seq<T>)
    ensures multiset(r) == multiset(s) + multiset{x}
    ensures |r| == |s| + 1
    decreases |s|
  {
    if s == [] then [x]
    else if Cmp(key, desc, x, s[0]) <= 0 then [x] + s
    else
      assert s == [s[0]] + s[1..];
      [s[0]] + Insert(x, s[1..], key, desc)
  }

  /** The sorted copy of `s`. */
  function SortBy<T>(s: seq<T>, key: T -> Option<int>, desc: bool): (r: seq<T>)
    ensures multiset(r) == multiset(s)
    ensures |r| == |s|
    decreases |s|
  {
    if s == [] then []
    else
      assert s == [s[0]] + s[1..];
      Insert(s[0], SortBy(s[1..], key, desc), key, desc)
  }

  /** Every element of `s` has a key (every date parses). */
  ghost predicate AllKeyed<T>(s: seq<T>, key: T -> Option<int>) {
    forall x :: x in s ==> key(x).Some?
  }

  /** `a` may stand before `b`. */
  predicate InOrder(a: int, b: int, desc: bool) {
    if desc then a >= b else a <= b
  }

  /** Keys run in the requested direction. */
  ghost predicate Ordered<T>(s: seq<T>, key: T -> Option<int>, desc: bool)
    requires AllKeyed(s, key)
  {
    forall i, j :: 0 <= i < j < |s| ==> InOrder(key(s[i]).value, key(s[j]).value, desc)
  }

  lemma {:induction false} InsertOrdered<T(!new)>(x: T, s: seq<T>, key: T -> Option<int>, desc: bool)
    requires AllKeyed(s, key) && key(x).Some? && Ordered(s, key, desc)
    ensures AllKeyed(Insert(x, s, key, desc), key)
    ensures Ordered(Insert(x, s, key, desc), key, desc)
    decreases |s|
  {
    var r := Insert(x, s, key, desc);
    InsertMembers(x, s, key, desc);
    if s != [] && Cmp(key, desc, x, s[0]) > 0 {
      var t := s[1..];
      InsertOrdered(x, t, key, desc);
      InsertAfterHead(x, s, key, desc);
    }
  }

  lemma InsertMembers<T(!new)>(x: T, s: seq<T>, key: T -> Option<int>, desc: bool)
    ensures forall y {:trigger y in Insert(x, s, key, desc)} :: y in Insert(x, s, key, desc) <==> y == x || y in s
  {
    var r := Insert(x, s, key, desc);
    forall y ensures y in r <==> y == x || y in s {
      calc {
        y in r;
        y in multiset(r);
        y in multiset(s) + multiset{x};
        y == x || y in s;
      }
    }
  }

  /** The step where `x` goes behind the head of `s`. */
  lemma InsertAfterHead<T(!new)>(x: T, s: seq<T>, key: T -> Option<int>, desc: bool)
    requires AllKeyed(s, key) && key(x).Some? && Ordered(s, key, desc)
    requires s != [] && Cmp(key, desc, x, s[0]) > 0
    requires AllKeyed(Insert(x, s[1..], key, desc), key)
    requires Ordered(Insert(x, s[1..], key, desc), key, desc)
    ensures Ordered(Insert(x, s, key, desc), key, desc)
  {
    var rt := Insert(x, s[1..], key, desc);
    var r := Insert(x, s, key, desc);
    assert r == [s[0]] + rt;
    HeadBeforeRest(x, s, key, desc);
    PrependOrdered(s[0], rt, key, desc);
  }

  lemma HeadBeforeRest<T(!new)>(x: T, s: seq<T>, key: T -> Option<int>, desc: bool)
    requires AllKeyed(s, key) && key(x).Some? && Ordered(s, key, desc)
    requires s != [] && Cmp(key, desc, x, s[0]) > 0
    ensures forall y :: y in Insert(x, s[1..], key, desc) ==>
      key(y).Some? && InOrder(key(s[0]).value, key(y).value, desc)
  {
    var t := s[1..];
    var it := Insert(x, t, key, desc);
    InsertMembers(x, t, key, desc);
    forall y | y in it
      ensures key(y).Some? && InOrder(key(s[0]).value, key(y).value, desc)
    {
      if y != x {
        assert y in t;
        var k :| 0 <= k < |t| && t[k] == y;
        assert s[k + 1] == y;
      }
    }
  }

  lemma PrependOrdered<T(!new)>(h: T, t: seq<T>, key: T -> Option<int>, desc: bool)
    requires key(h).Some? && AllKeyed(t, key) && Ordered(t, key, desc)
    requires forall y :: y in t ==> InOrder(key(h).value, key(y).value, desc)
    ensures AllKeyed([h] + t, key)
    ensures Ordered([h] + t, key, desc)
  {
    var r := [h] + t;
    forall i, j | 0 <= i < j < |r|
      ensures InOrder(key(r[i]).value, key(r[j]).value, desc)
    {
      assert r[j] == t[j - 1];
      if i > 0 {
        assert r[i] == t[i - 1];
      }
    }
  }

  /** With every key present the sort yields keys in the requested direction. */
  lemma {:induction false} SortByOrdered<T(!new)>(s: seq<T>, key: T -> Option<int>, desc: bool)
    requires AllKeyed(s, key)
    ensures AllKeyed(SortBy(s, key, desc), key)
    ensures Ordered(SortBy(s, key, desc), key, desc)
    decreases |s|
  {
    var r := SortBy(s, key, desc);
    if s != [] {
      var r1 := SortBy(s[1..], key, desc);
      assert forall y :: y in r1 ==> y in multiset(r1);
      assert forall y :: y in s[1..] ==> y in s;
      SortByOrdered(s[1..], key, desc);
      InsertOrdered(s[0], SortBy(s[1..], key, desc), key, desc);
    }
  }

  lemma SortByMembers<T(!new)>(s: seq<T>, key: T -> Option<int>, desc: bool)
    ensures forall x :: x in SortBy(s, key, desc) <==> x in s
  {
    var r := SortBy(s, key, desc);
    forall x ensures x in r <==> x in s {
      assert x in r <==> x in multiset(r);
      assert x in s <==> x in multiset(s);
    }
  }

  /** A prefix of an ordered sequence is ordered. */
  lemma PrefixOrdered<T(!new)>(s: seq<T>, t: seq<T>, key: T -> Option<int>, desc: bool)
    requires t <= s && AllKeyed(s, key) && Ordered(s, key, desc)
    ensures AllKeyed(t, key) && Ordered(t, key, desc)
  {
    forall x | x in t ensures key(x).Some? {
      var i :| 0 <= i < |t| && t[i] == x;
      assert s[i] == x;
    }
    forall i, j | 0 <= i < j < |t| ensures InOrder(key(t[i]).value, key(t[j]).value, desc) {
      assert t[i] == s[i] && t[j] == s[j];
    }
  }

  /** In an ordered sequence, an occurrence beyond the first `n` does not come before any
      element among the first `n`. */
  lemma DroppedNotBefore<T(!new)>(sorted: seq<T>, n: nat, kept: T, dropped: T, key: T -> Option<int>, desc: bool)
    requires AllKeyed(sorted, key) && Ordered(sorted, key, desc)
    requires n <= |sorted| && kept in sorted[..n]
    requires multiset(sorted[..n])[dropped] < multiset(sorted)[dropped]
    ensures dropped in sorted && key(kept).Some? && key(dropped).Some?
    ensures InOrder(key(kept).value, key(dropped).value, desc)
  {
    var rest := sorted[n..];
    assert sorted == sorted[..n] + rest;
    assert multiset(sorted) == multiset(sorted[..n]) + multiset(rest);
    assert dropped in multiset(rest);
    var j :| 0 <= j < |rest| && rest[j] == dropped;
    var i :| 0 <= i < n && sorted[..n][i] == kept;
    assert sorted[i] == kept && sorted[n + j] == dropped;
  }
  /** `sort(...).slice(0, n)`: as many elements as the limit allows, drawn from `s` and,
      when every key parses, in the requested direction. */
  lemma TakeSorted<T(!new)>(s: seq<T>, key: T -> Option<int>, desc: bool, n: nat)
    ensures var t := Take(SortBy(s, key, desc), n);
      |t| == (if n < |s| then n else |s|) &&
      multiset(t) <= multiset(s) &&
      (forall x :: x in t ==> x in s) &&
      (AllKeyed(s, key) ==> AllKeyed(t, key) && Ordered(t, key, desc))
  {
    var sorted := SortBy(s, key, desc);
    SortByMembers(s, key, desc);
    TakeParts(sorted, n);
    if AllKeyed(s, key) {
      SortByOrdered(s, key, desc);
      PrefixOrdered(sorted, Take(sorted, n), key, desc);
    }
  }

  /** An element that `slice(0, n)` leaves out of the sorted copy (an occurrence of it
      beyond those kept) does not precede any kept element. */
  lemma TakeSortedDropped<T(!new)>(s: seq<T>, key: T -> Option<int>, desc: bool, n: nat, kept: T, dropped: T)
    requires AllKeyed(s, key)
    requires kept in Take(SortBy(s, key, desc), n)
    requires multiset(Take(SortBy(s, key, desc), n))[dropped] < multiset(s)[dropped]
    ensures dropped in s && key(kept).Some? && key(dropped).Some?
    ensures InOrder(key(kept).value, key(dropped).value, desc)
  {
    var sorted := SortBy(s, key, desc);
    SortByOrdered(s, key, desc);
    SortByMembers(s, key, desc);
    var m := if n < |sorted| then n else |sorted|;
    assert Take(sorted, n) == sorted[..m];
    DroppedNotBefore(sorted, m, kept, dropped, key, desc);
  }
}
