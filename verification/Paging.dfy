/**
  Cursor paging: board/internal/store.go `postPage`, `commentPage` and `searchPage`.

  A page lists the keys greater than a cursor in ascending order.  It asks for one more key than the limit, so the
  next cursor is present exactly when something was left over.  The walk theorem says what a client that follows
  cursors sees while the listed set changes arbitrarily between two fetches.
*/
module Paging {
  import opened Core

  datatype Page<+T> = Page(items: seq<T>, next: Option<int>)

  predicate Ascending(s: seq<int>) {
    forall i, j :: 0 <= i < j < |s| ==> s[i] < s[j]
  }

  /** The page functions of the store: cut a sorted listing that holds up to one item too many. */
  function Cut<T>(items: seq<T>, limit: int, key: T -> int): (p: Page<T>)
    requires 1 <= limit
    ensures |p.items| <= limit && p.items <= items
    ensures p.next.None? <==> |items| <= limit
    ensures p.next.None? ==> p.items == items
    ensures p.next.Some? ==> |p.items| == limit && p.next.value == key(p.items[limit - 1])
  {
    if |items| <= limit then Page(items, None) else Page(items[..limit], Some(key(items[limit - 1])))
  }

  ghost function After(m: set<int>, after: int): (r: set<int>) {
    set x | x in m && x > after
  }

  lemma {:induction false} MinExists(m: set<int>) returns (x: int)
    requires m != {}
    ensures x in m && forall y :: y in m ==> x <= y
    decreases |m|
  {
    var z := Witness(m);
    var rest := m - {z};
    if rest == {} {
      assert m == {z};
      x := z;
    } else {
      var y := MinExists(rest);
      x := if y < z then y else z;
      assert forall w :: w in m ==> w == z || w in rest;
    }
  }

  /** The elements of a set in ascending order. */
  ghost function Sorted(m: set<int>): (s: seq<int>)
    ensures Ascending(s) && |s| == |m|
    ensures forall x :: x in s <==> x in m
    decreases |m|
  {
    if m == {} then [] else
      assert exists x :: x in m && forall y :: y in m ==> x <= y by { var _ := MinExists(m); }
      var x :| x in m && forall y :: y in m ==> x <= y;
      var rest := Sorted(m - {x});
      [x] + rest
  }

  /** Ascending sequences with the same elements are equal, so any correct sort gives `Sorted`. */
  lemma {:induction false} AscendingUnique(a: seq<int>, b: seq<int>)
    requires Ascending(a) && Ascending(b)
    requires forall x :: x in a <==> x in b
    ensures a == b
    decreases |a|
  {
    assert a != [] ==> a[0] in a;
    assert b != [] ==> b[0] in b;
    if a == [] {
    } else {
      assert b[0] in a;
      assert a[0] == b[0];
      var a', b' := a[1..], b[1..];
      forall x ensures x in a' <==> x in b' {
        if x in a' { assert x in a && x > a[0]; assert x in b; }
        if x in b' { assert x in b && x > b[0]; assert x in a; }
      }
      AscendingUnique(a', b');
    }
  }

  /** One fetch against the set `m` of matching keys. */
  ghost function PageOf(m: set<int>, after: int, limit: int): (p: Page<int>)
    requires 1 <= limit
  {
    Cut(Sorted(After(m, after)), limit, x => x)
  }

  /** What a page promises the client, free of how it is computed. */
  ghost predicate IsPage(p: Page<int>, m: set<int>, after: int) {
    && Ascending(p.items)
    && (forall x :: x in p.items ==> x in m && after < x)
    && (p.next.None? ==> forall x :: x in m && after < x ==> x in p.items)
    && (p.next.Some? ==>
          && p.next.value in p.items
          && (forall x :: x in p.items ==> x <= p.next.value)
          && (forall x :: x in m && after < x <= p.next.value ==> x in p.items))
  }

  lemma CutIsPage(all: seq<int>, m: set<int>, after: int, limit: int)
    requires 1 <= limit && Ascending(all)
    requires forall x :: x in all <==> x in m && after < x
    ensures IsPage(Cut(all, limit, x => x), m, after)
  {
    var p := Cut(all, limit, x => x);
    assert forall x :: x in p.items ==> x in all;
    if p.next.Some? {
      assert p.items[limit - 1] == all[limit - 1];
      forall x | x in p.items ensures x <= p.next.value {
        var i :| 0 <= i < |p.items| && p.items[i] == x;
        assert all[i] == x;
      }
      forall x | x in m && after < x <= p.next.value ensures x in p.items {
        var i :| 0 <= i < |all| && all[i] == x;
        assert i < limit;
        assert p.items[i] == x;
      }
    }
  }

  lemma PageMeaning(m: set<int>, after: int, limit: int)
    requires 1 <= limit
    ensures IsPage(PageOf(m, after, limit), m, after)
  {
    CutIsPage(Sorted(After(m, after)), m, after, limit);
  }

  /** Follow cursors: fetch number i sees the matching set `ms[i]`. */
  ghost function Walk(ms: seq<set<int>>, after: int, limit: int): (keys: seq<int>)
    requires 1 <= limit
  {
    if ms == [] then [] else
      var p := PageOf(ms[0], after, limit);
      if p.next.None? then p.items else p.items + Walk(ms[1..], p.next.value, limit)
  }

  /** The walk reached a page without a next cursor. */
  ghost predicate Finished(ms: seq<set<int>>, after: int, limit: int)
    requires 1 <= limit
  {
    ms != [] &&
    var p := PageOf(ms[0], after, limit);
    p.next.None? || Finished(ms[1..], p.next.value, limit)
  }

  ghost predicate MatchedThroughout(x: int, ms: seq<set<int>>) {
    forall i :: 0 <= i < |ms| ==> x in ms[i]
  }

  ghost predicate MatchedOnce(x: int, ms: seq<set<int>>) {
    exists i :: 0 <= i < |ms| && x in ms[i]
  }

  lemma AscendingConcat(a: seq<int>, b: seq<int>, bound: int)
    requires Ascending(a) && Ascending(b)
    requires forall x :: x in a ==> x <= bound
    requires forall x :: x in b ==> bound < x
    ensures Ascending(a + b)
  {
    var c := a + b;
    forall i, j | 0 <= i < j < |c| ensures c[i] < c[j] {
      if i < |a| { assert c[i] in a; }
      if j >= |a| { assert c[j] in b; }
    }
  }

  lemma MatchedLater(ms: seq<set<int>>)
    requires ms != []
    ensures forall x :: MatchedOnce(x, ms[1..]) ==> MatchedOnce(x, ms)
    ensures forall x :: MatchedThroughout(x, ms) ==> x in ms[0] && MatchedThroughout(x, ms[1..])
  {
    var tail := ms[1..];
    forall x | MatchedOnce(x, tail) ensures MatchedOnce(x, ms) {
      var i :| 0 <= i < |tail| && x in tail[i];
      assert x in ms[i + 1];
    }
  }

  /**
    Whatever happens between two fetches, a walk returns keys in strictly increasing order (so none twice), only keys
    that matched at some fetch, and, once finished, every key that matched at every fetch.
  */
  lemma {:induction false} WalkUnderChange(ms: seq<set<int>>, after: int, limit: int)
    requires 1 <= limit
    ensures Ascending(Walk(ms, after, limit))
    ensures forall x :: x in Walk(ms, after, limit) ==> after < x && MatchedOnce(x, ms)
    ensures Finished(ms, after, limit) ==>
              forall x :: after < x && MatchedThroughout(x, ms) ==> x in Walk(ms, after, limit)
    decreases |ms|
  {
    if ms != [] {
      var p := PageOf(ms[0], after, limit);
      PageMeaning(ms[0], after, limit);
      hide PageOf, Ascending;
      assert forall x :: x in p.items ==> MatchedOnce(x, ms);
      if p.next.Some? {
        var next := p.next.value;
        var tail := ms[1..];
        WalkUnderChange(tail, next, limit);
        var rest := Walk(tail, next, limit);
        AscendingConcat(p.items, rest, next);
        MatchedLater(ms);
      }
    }
  }
}
