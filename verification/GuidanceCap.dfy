/**
  Ordering and capping of guidance bindings: guidance/internal/bindings.go `sortBindings`, `capApplicableBindings` and
  `capResolvedBindings`.

  The cap keeps must-read items from beyond the limit by overwriting kept items from the back, in place.  It is proved
  equal to a plain rule: all must-read items first, then the others, each in input order, cut at the limit and sorted.
*/
module GuidanceCap {
  import opened Core
  import opened Text

  datatype Scope = Task | AgentProfile | Capability | Project | Global

  datatype Policy = MustRead | Inline | OnDemand | Latent

  datatype Binding = Binding(id: int, target: string, scope: Scope, scopeRef: string, audience: seq<string>,
                             priority: int, sortOrder: int, policy: Policy, shadowsGlobal: bool)

  // ---- Order ------------------------------------------------------------------------------------------------------

  function Specificity(s: Scope): (n: int) {
    match s
    case Task => 5
    case AgentProfile => 4
    case Capability => 3
    case Project => 2
    case Global => 1
  }

  function Rank(p: Policy): (n: int) {
    match p
    case MustRead => 0
    case Inline => 1
    case OnDemand => 2
    case Latent => 3
  }

  /** The comparison of the two sorts: specificity, policy, priority, sort order, target, id. */
  predicate Before(a: Binding, b: Binding) {
    if Specificity(a.scope) != Specificity(b.scope) then Specificity(a.scope) > Specificity(b.scope)
    else if Rank(a.policy) != Rank(b.policy) then Rank(a.policy) < Rank(b.policy)
    else if a.priority != b.priority then a.priority > b.priority
    else if a.sortOrder != b.sortOrder then a.sortOrder < b.sortOrder
    else if a.target != b.target then StringBefore(a.target, b.target)
    else a.id < b.id
  }

  lemma BeforeTotal(a: Binding, b: Binding)
    ensures !(Before(a, b) && Before(b, a))
    ensures Differ(a, b) == Differ(b, a) && !Differ(a, a)
    ensures a.id != b.id || a.target != b.target ==> Differ(a, b)
  {
    StringTotal(a.target, b.target);
    StringTotal(a.target, a.target);
  }

  lemma BeforeTransitive(a: Binding, b: Binding, c: Binding)
    requires !Before(b, a) && !Before(c, b)
    ensures !Before(c, a)
  {
    StringTotal(a.target, b.target);
    StringTotal(b.target, c.target);
    StringTotal(a.target, c.target);
    if StringBefore(a.target, b.target) && StringBefore(b.target, c.target) {
      StringTransitive(a.target, b.target, c.target);
    }
  }

  // ---- Stable sort --------------------------------------------------------------------------------------------------

  function Insert<T>(x: T, s: seq<T>, key: T -> Binding): (r: seq<T>)
    ensures multiset(r) == multiset(s) + multiset{x} && |r| == |s| + 1
    decreases |s|
  {
    if s == [] then [x]
    else if Before(key(x), key(s[0])) then [x] + s
    else
      assert s == [s[0]] + s[1..];
      [s[0]] + Insert(x, s[1..], key)
  }

  /** `sort.SliceStable`: equal items keep their order. */
  function Sort<T>(s: seq<T>, key: T -> Binding): (r: seq<T>)
    ensures multiset(r) == multiset(s) && |r| == |s|
    decreases |s|
  {
    if s == [] then [] else
      var last := |s| - 1;
      assert s == s[..last] + [s[last]];
      Insert(s[last], Sort(s[..last], key), key)
  }

  ghost predicate Sorted<T>(s: seq<T>, key: T -> Binding) {
    forall i, j :: 0 <= i < j < |s| ==> !Before(key(s[j]), key(s[i]))
  }

  lemma {:induction false} InsertSorted<T>(x: T, s: seq<T>, key: T -> Binding)
    requires Sorted(s, key)
    ensures Sorted(Insert(x, s, key), key)
    decreases |s|
  {
    if s != [] {
      var r := Insert(x, s, key);
      BeforeTotal(key(x), key(s[0]));
      if Before(key(x), key(s[0])) {
        forall j | 0 <= j < |s| ensures !Before(key(s[j]), key(x)) {
          if j > 0 { BeforeTransitive(key(x), key(s[0]), key(s[j])); }
        }
      } else {
        var tail := Insert(x, s[1..], key);
        InsertSorted(x, s[1..], key);
        hide Before, Insert;
        forall j | 0 <= j < |tail| ensures !Before(key(tail[j]), key(s[0])) {
          assert tail[j] in multiset(tail);
          if tail[j] != x { var k := MemberAt(s[1..], tail[j]); }
        }
      }
    }
  }

  lemma {:induction false} SortSorted<T>(s: seq<T>, key: T -> Binding)
    ensures Sorted(Sort(s, key), key)
    decreases |s|
  {
    hide Insert, Before;
    if s != [] {
      var last := |s| - 1;
      SortSorted(s[..last], key);
      InsertSorted(s[last], Sort(s[..last], key), key);
    }
  }

  predicate Differ(a: Binding, b: Binding) {
    Before(a, b) || Before(b, a)
  }

  /** The comparison tells any two items apart. */
  ghost predicate Distinct<T>(s: seq<T>, key: T -> Binding) {
    forall i, j :: 0 <= i < j < |s| ==> Differ(key(s[i]), key(s[j]))
  }

  lemma MemberAt<T>(s: seq<T>, x: T) returns (i: nat)
    requires x in multiset(s)
    ensures i < |s| && s[i] == x
  {
    i :| 0 <= i < |s| && s[i] == x;
  }

  /** Items with distinct ids have one sorted arrangement. */
  lemma {:induction false} SortedUnique<T>(a: seq<T>, b: seq<T>, key: T -> Binding)
    requires Sorted(a, key) && Sorted(b, key) && multiset(a) == multiset(b) && Distinct(a, key)
    ensures a == b
    decreases |a|
  {
    SameLength(a, b);
    if a != [] {
      SameHead(a, b, key);
      SameTail(a, b);
      assert a == [a[0]] + a[1..] && b == [b[0]] + b[1..];
      SortedUnique(a[1..], b[1..], key);
    }
  }

  lemma SameLength<T>(a: seq<T>, b: seq<T>)
    requires multiset(a) == multiset(b)
    ensures |a| == |b|
  {
    assert |a| == |multiset(a)| == |multiset(b)| == |b|;
  }

  lemma SameHead<T>(a: seq<T>, b: seq<T>, key: T -> Binding)
    requires a != [] && b != [] && multiset(a) == multiset(b)
    requires Sorted(a, key) && Sorted(b, key) && Distinct(a, key)
    ensures a[0] == b[0]
  {
    assert a[0] in multiset(b) && b[0] in multiset(a);
    var i := MemberAt(a, b[0]);
    var j := MemberAt(b, a[0]);
    BeforeTotal(key(a[0]), key(b[0]));
  }

  lemma SameTail<T>(a: seq<T>, b: seq<T>)
    requires a != [] && b != [] && multiset(a) == multiset(b) && a[0] == b[0]
    ensures multiset(a[1..]) == multiset(b[1..])
  {
    assert a == [a[0]] + a[1..] && b == [b[0]] + b[1..];
    assert multiset(a[1..]) == multiset(a) - multiset{a[0]};
    assert multiset(b[1..]) == multiset(b) - multiset{b[0]};
  }

  /** The items the comparison does not tell from x, in order. */
  function Ties<T>(s: seq<T>, key: T -> Binding, x: Binding): (r: seq<T>)
    decreases |s|
  {
    if s == [] then [] else
      var last := |s| - 1;
      if Differ(key(s[last]), x) then Ties(s[..last], key, x) else Ties(s[..last], key, x) + [s[last]]
  }

  lemma {:induction false} TiesCons<T>(s: seq<T>, key: T -> Binding, x: Binding)
    requires s != []
    ensures Ties(s, key, x) == (if Differ(key(s[0]), x) then [] else [s[0]]) + Ties(s[1..], key, x)
    decreases |s|
  {
    hide Differ;
    if |s| > 1 {
      var last := |s| - 1;
      TiesCons(s[..last], key, x);
      assert s[..last][1..] == s[1..][..last - 1];
    }
  }

  /** What comes after an item that must come later than x does not tie with it. */
  lemma {:induction false} NoTies<T>(s: seq<T>, key: T -> Binding, x: Binding)
    requires forall i :: 0 <= i < |s| ==> Before(x, key(s[i]))
    ensures Ties(s, key, x) == []
    decreases |s|
  {
    hide Before;
    if s != [] { NoTies(s[..|s| - 1], key, x); }
  }

  lemma TiesAlike(a: Binding, b: Binding, c: Binding)
    requires !Differ(a, b)
    ensures Differ(a, c) <==> Differ(b, c)
    ensures Before(a, c) <==> Before(b, c)
  {
    hide Before;
    if !Before(c, a) { BeforeTransitive(b, a, c); }
    if !Before(c, b) { BeforeTransitive(a, b, c); }
    if !Before(a, c) { BeforeTransitive(c, a, b); }
    if !Before(b, c) { BeforeTransitive(c, b, a); }
  }

  /** An item is inserted behind those it ties with. */
  lemma {:induction false} InsertKeepsTies<T>(x: T, s: seq<T>, key: T -> Binding, y: Binding)
    requires Sorted(s, key)
    ensures Ties(Insert(x, s, key), key, y) == Ties(s, key, y) + if Differ(key(x), y) then [] else [x]
    decreases |s|
  {
    hide Before, Differ, Ties;
    NothingTies(key, y);
    var r := Insert(x, s, key);
    TiesCons(r, key, y);
    if s == [] {
      assert r[1..] == [];
    } else {
      TiesCons(s, key, y);
      if Before(key(x), key(s[0])) {
        assert r[1..] == s;
        if !Differ(key(x), y) { LaterDiffers(x, s, key, y); }
      } else {
        assert r[1..] == Insert(x, s[1..], key);
        InsertKeepsTies(x, s[1..], key, y);
      }
    }
  }

  lemma NothingTies<T>(key: T -> Binding, y: Binding)
    ensures Ties([], key, y) == []
  {
  }

  lemma LaterDiffers<T>(x: T, s: seq<T>, key: T -> Binding, y: Binding)
    requires Sorted(s, key) && s != [] && Before(key(x), key(s[0])) && !Differ(key(x), y)
    ensures Ties(s, key, y) == []
  {
    hide Before;
    forall i | 0 <= i < |s| ensures Before(y, key(s[i])) {
      if i > 0 { BeforeChain(key(x), key(s[0]), key(s[i])); }
      TiesAlike(key(x), y, key(s[i]));
    }
    NoTies(s, key, y);
  }

  lemma BeforeChain(a: Binding, b: Binding, c: Binding)
    requires Before(a, b) && !Before(c, b)
    ensures Before(a, c)
  {
    BeforeTotal(a, b);
    if !Before(a, c) { BeforeTransitive(b, c, a); }
    hide Before;
  }

  /** The sort is stable: items that tie keep their order. */
  lemma {:induction false} SortStable<T>(s: seq<T>, key: T -> Binding, y: Binding)
    ensures Ties(Sort(s, key), key, y) == Ties(s, key, y)
    decreases |s|
  {
    hide Insert, Differ;
    if s != [] {
      var last := |s| - 1;
      SortStable(s[..last], key, y);
      SortSorted(s[..last], key);
      InsertKeepsTies(s[last], Sort(s[..last], key), key, y);
    }
  }

  /** So sorting forgets the order its input came in. */
  lemma SortForgetsOrder<T>(a: seq<T>, b: seq<T>, key: T -> Binding)
    requires multiset(a) == multiset(b) && Distinct(a, key)
    ensures Sort(a, key) == Sort(b, key)
  {
    SortSorted(a, key);
    SortSorted(b, key);
    DistinctSurvives(a, Sort(a, key), key);
    SortedUnique(Sort(a, key), Sort(b, key), key);
  }

  lemma {:induction false} CountedOnce<T>(s: seq<T>, x: T)
    requires x in multiset(s) && forall i, j :: 0 <= i < j < |s| ==> s[i] != s[j]
    ensures multiset(s)[x] == 1
    decreases |s|
  {
    assert s == [s[0]] + s[1..];
    if x == s[0] {
      assert forall i :: 0 <= i < |s[1..]| ==> s[1..][i] == s[i + 1];
      assert x !in s[1..];
    } else {
      CountedOnce(s[1..], x);
    }
  }

  lemma FoundOnce<T>(s: seq<T>, key: T -> Binding, x: T)
    requires Distinct(s, key) && x in multiset(s)
    ensures multiset(s)[x] == 1
    ensures forall y :: y in multiset(s) && !Differ(key(y), key(x)) ==> y == x
  {
    hide Before;
    forall i, j | 0 <= i < |s| && 0 <= j < |s| ensures Differ(key(s[i]), key(s[j])) <==> i != j {
      BeforeTotal(key(s[i]), key(s[j]));
    }
    CountedOnce(s, x);
    hide Distinct;
    forall y | y in multiset(s) && !Differ(key(y), key(x)) ensures y == x {
      var i := MemberAt(s, y);
      var j := MemberAt(s, x);
    }
  }

  lemma DistinctSurvives<T>(a: seq<T>, b: seq<T>, key: T -> Binding)
    requires multiset(a) == multiset(b) && Distinct(a, key)
    ensures Distinct(b, key)
  {
    hide Differ;
    forall i, j | 0 <= i < j < |b| ensures Differ(key(b[i]), key(b[j])) {
      assert b[i] in multiset(b) && b[j] in multiset(b);
      FoundOnce(a, key, b[j]);
      if b[i] == b[j] { TwoPlaces(b, i, j); }
    }
  }

  lemma TwoPlaces<T>(s: seq<T>, i: nat, j: nat)
    requires i < j < |s| && s[i] == s[j]
    ensures multiset(s)[s[i]] >= 2
  {
    assert s == s[..i] + [s[i]] + s[i + 1..j] + [s[j]] + s[j + 1..];
  }

  // ---- The rule ---------------------------------------------------------------------------------------------------

  /** The must-read items, in input order. */
  function Musts<T>(s: seq<T>, must: T -> bool): (r: seq<T>)
    ensures |r| <= |s|
    decreases |s|
  {
    if s == [] then [] else
      var last := |s| - 1;
      if must(s[last]) then Musts(s[..last], must) + [s[last]] else Musts(s[..last], must)
  }

  /** The other items, in input order. */
  function Others<T>(s: seq<T>, must: T -> bool): (r: seq<T>)
    ensures |r| <= |s|
    decreases |s|
  {
    if s == [] then [] else
      var last := |s| - 1;
      if must(s[last]) then Others(s[..last], must) else Others(s[..last], must) + [s[last]]
  }

  function Take<T>(s: seq<T>, n: nat): (r: seq<T>) {
    if |s| <= n then s else s[..n]
  }

  /** What a cap keeps, in no particular order: must-read items before all others, cut at the limit. */
  function Kept<T>(s: seq<T>, limit: nat, must: T -> bool): (r: seq<T>) {
    Take(Musts(s, must) + Others(s, must), limit)
  }

  /** The items of `front` that are not must-read, from the last to the first, give way to the extra items in turn. */
  function Filled<T>(front: seq<T>, extra: seq<T>, must: T -> bool): (r: seq<T>)
    ensures |r| == |front|
    decreases |front|
  {
    if front == [] || extra == [] then front else
      var last := |front| - 1;
      if must(front[last]) then Filled(front[..last], extra, must) + [front[last]]
      else Filled(front[..last], extra[1..], must) + [extra[0]]
  }

  /** The arrangement the cap sorts: must-read items beyond the limit fill places from the back. */
  function Arranged<T>(s: seq<T>, limit: nat, must: T -> bool): (r: seq<T>)
    requires limit <= |s|
  {
    Filled(s[..limit], Musts(s[limit..], must), must)
  }

  function Capped<T>(s: seq<T>, limit: nat, must: T -> bool, key: T -> Binding): (r: seq<T>) {
    if |s| <= limit then s else Sort(Kept(s, limit, must), key)
  }

  lemma {:induction false} Split<T>(s: seq<T>, must: T -> bool)
    ensures |Musts(s, must)| + |Others(s, must)| == |s|
    ensures multiset(Musts(s, must)) + multiset(Others(s, must)) == multiset(s)
    decreases |s|
  {
    if s != [] {
      var last := |s| - 1;
      Split(s[..last], must);
      assert s == s[..last] + [s[last]];
    }
  }

  lemma Next<T>(s: seq<T>, i: nat, must: T -> bool)
    requires i < |s|
    ensures Musts(s[..i + 1], must) == if must(s[i]) then Musts(s[..i], must) + [s[i]] else Musts(s[..i], must)
    ensures Others(s[..i + 1], must) == if must(s[i]) then Others(s[..i], must) else Others(s[..i], must) + [s[i]]
  {
    assert s[..i + 1][..i] == s[..i] && s[..i + 1][i] == s[i];
  }

  /** A longer input adds to both lists at the end. */
  lemma {:induction false} Prefix<T>(s: seq<T>, i: nat, j: nat, must: T -> bool)
    requires i <= j <= |s|
    ensures Musts(s[..i], must) <= Musts(s[..j], must) && Others(s[..i], must) <= Others(s[..j], must)
    decreases j
  {
    hide Musts, Others;
    if i < j {
      Prefix(s, i, j - 1, must);
      Next(s, j - 1, must);
    }
  }

  // ---- The algorithm ----------------------------------------------------------------------------------------------

  /** Positions up to `at` still hold the input; later ones hold must-read items; the kept set is right so far. */
  ghost predicate Midway<T>(items: seq<T>, limit: nat, i: nat, selected: seq<T>, at: int, must: T -> bool)
    requires limit <= i <= |items|
  {
    && |selected| == limit && -1 <= at < limit
    && (forall p :: 0 <= p <= at ==> selected[p] == items[p])
    && multiset(selected) == multiset(Kept(items[..i], limit, must))
    && |Others(items[..at + 1], must)| == limit - |Musts(items[..i], must)|
  }

  /** What is left to do fills the places up to `at` with the must-read items still to come. */
  ghost predicate Filling<T>(items: seq<T>, limit: nat, i: nat, selected: seq<T>, at: int, must: T -> bool)
    requires limit <= i <= |items|
  {
    -1 <= at < |selected|
    && Filled(selected[..at + 1], Musts(items[i..], must), must) + selected[at + 1..] == Arranged(items, limit, must)
  }

  lemma {:induction false} MustsCons<T>(s: seq<T>, must: T -> bool)
    requires s != []
    ensures Musts(s, must) == (if must(s[0]) then [s[0]] else []) + Musts(s[1..], must)
    decreases |s|
  {
    if |s| > 1 {
      var last := |s| - 1;
      MustsCons(s[..last], must);
      assert s[..last][1..] == s[1..][..last - 1];
    }
  }

  lemma FillingStarts<T>(items: seq<T>, limit: nat, must: T -> bool)
    requires limit <= |items|
    ensures Filling(items, limit, limit, items[..limit], limit - 1, must)
  {
    assert items[..limit][..limit] == items[..limit];
  }

  lemma FillingSkips<T>(items: seq<T>, limit: nat, i: nat, selected: seq<T>, at: int, must: T -> bool)
    requires limit <= i < |items| && Filling(items, limit, i, selected, at, must) && !must(items[i])
    ensures Filling(items, limit, i + 1, selected, at, must)
  {
    hide Musts, Filled, Arranged;
    MustsCons(items[i..], must);
    assert items[i..][1..] == items[i + 1..];
    assert [] + Musts(items[i + 1..], must) == Musts(items[i + 1..], must);
  }

  lemma FillingMoves<T>(items: seq<T>, limit: nat, i: nat, selected: seq<T>, at: int, must: T -> bool)
    requires limit <= i <= |items| && Filling(items, limit, i, selected, at, must) && at >= 0 && must(selected[at])
    ensures Filling(items, limit, i, selected, at - 1, must)
  {
    hide Musts, Arranged;
    assert selected[..at + 1][..at] == selected[..at];
    assert selected[at..] == [selected[at]] + selected[at + 1..];
    assert selected[..at + 1] == selected[..at] + [selected[at]];
  }

  lemma FillingReplaces<T>(items: seq<T>, limit: nat, i: nat, selected: seq<T>, at: int, must: T -> bool)
    requires limit <= i < |items| && Filling(items, limit, i, selected, at, must) && at >= 0
    requires must(items[i]) && !must(selected[at])
    ensures Filling(items, limit, i + 1, selected[at := items[i]], at - 1, must)
  {
    MustsCons(items[i..], must);
    assert items[i..][1..] == items[i + 1..];
    hide Musts, Arranged;
    var next := selected[at := items[i]];
    assert selected[..at + 1][..at] == selected[..at] == next[..at];
    assert next[at..] == [items[i]] + selected[at + 1..];
  }

  /** With no candidate left, or no place, the arrangement is done. */
  lemma FillingDone<T>(items: seq<T>, limit: nat, i: nat, selected: seq<T>, at: int, must: T -> bool)
    requires limit <= i <= |items| && Filling(items, limit, i, selected, at, must) && (i == |items| || at == -1)
    ensures selected == Arranged(items, limit, must)
  {
    hide Arranged;
    assert selected[..at + 1] + selected[at + 1..] == selected;
    assert i == |items| ==> items[i..] == [];
  }

  lemma MidwayStarts<T>(items: seq<T>, limit: nat, must: T -> bool)
    requires limit <= |items|
    ensures Midway(items, limit, limit, items[..limit], limit - 1, must)
  {
    Split(items[..limit], must);
  }

  /** Another item that is not must-read changes nothing once the limit is reached. */
  lemma MidwaySkips<T>(items: seq<T>, limit: nat, i: nat, selected: seq<T>, at: int, must: T -> bool)
    requires limit <= i < |items| && Midway(items, limit, i, selected, at, must) && !must(items[i])
    ensures Midway(items, limit, i + 1, selected, at, must)
  {
    Next(items, i, must);
    Split(items[..i], must);
    var m, o := Musts(items[..i], must), Others(items[..i], must);
    assert m + (o + [items[i]]) == (m + o) + [items[i]];
    assert Take((m + o) + [items[i]], limit) == Take(m + o, limit);
  }

  /** Moving the cursor below a must-read item. */
  lemma CursorMoves<T>(items: seq<T>, limit: nat, i: nat, selected: seq<T>, at: int, must: T -> bool)
    requires limit <= i <= |items| && Midway(items, limit, i, selected, at, must) && 0 <= at && must(selected[at])
    ensures Midway(items, limit, i, selected, at - 1, must)
  {
    Next(items, at, must);
  }

  /** Overwriting the last kept item that is not must-read with the candidate. */
  lemma MidwayReplaces<T>(items: seq<T>, limit: nat, i: nat, selected: seq<T>, at: int, must: T -> bool)
    requires limit <= i < |items| && Midway(items, limit, i, selected, at, must) && must(items[i])
    requires 0 <= at && !must(selected[at])
    ensures Midway(items, limit, i + 1, selected[at := items[i]], at - 1, must)
  {
    Next(items, i, must);
    Next(items, at, must);
    hide Musts, Others;
    KeptNext(items, limit, i, at, must);
    hide Kept;
    var v := selected[at := items[i]];
    assert multiset(v) == multiset(selected) - multiset{selected[at]} + multiset{items[i]};
    assert forall p :: 0 <= p < at ==> v[p] == items[p];
  }

  /** What one more must-read item does to the kept items: it displaces the last other item that was kept. */
  lemma KeptNext<T>(items: seq<T>, limit: nat, i: nat, at: nat, must: T -> bool)
    requires limit <= i < |items| && at < limit && must(items[i]) && !must(items[at])
    requires |Others(items[..at + 1], must)| == limit - |Musts(items[..i], must)|
    ensures multiset(Kept(items[..i + 1], limit, must))
            == multiset(Kept(items[..i], limit, must)) - multiset{items[at]} + multiset{items[i]}
  {
    hide Musts, Others, Take;
    Next(items, i, must);
    Next(items, at, must);
    Prefix(items, at + 1, i, must);
    Split(items[..i], must);
    var m, o := Musts(items[..i], must), Others(items[..i], must);
    var f := Others(items[..at + 1], must);
    assert f[|f| - 1] == items[at] && o[|f| - 1] == f[|f| - 1];
    KeptTrades(m, o, limit, items[i]);
  }

  /** One more must-read item displaces the last of the others that fitted. */
  lemma KeptTrades<T>(m: seq<T>, o: seq<T>, limit: nat, c: T)
    requires |m| < limit <= |m| + |o|
    ensures multiset(Take(m + [c] + o, limit))
            == multiset(Take(m + o, limit)) - multiset{o[limit - |m| - 1]} + multiset{c}
  {
    var k := limit - |m| - 1;
    var rest := o[..k];
    if |m| + |o| > limit { assert (m + o)[..limit] == m + rest + [o[k]]; } else { assert m + o == m + rest + [o[k]]; }
    assert (m + [c] + o)[..limit] == m + [c] + rest;
  }

  /** With no other item left to overwrite, the rest of the input does not matter. */
  lemma MidwayEnds<T>(items: seq<T>, limit: nat, i: nat, selected: seq<T>, must: T -> bool)
    requires limit <= i <= |items| && Midway(items, limit, i, selected, -1, must)
    ensures multiset(selected) == multiset(Kept(items, limit, must))
  {
    Prefix(items, i, |items|, must);
    assert items[..|items|] == items && items[..0] == [];
    var m, n := Musts(items[..i], must), Musts(items, must);
    assert |m| == limit;
    assert Take(m + Others(items[..i], must), limit) == m;
    assert Take(n + Others(items, must), limit) == m;
  }

  /** `capApplicableBindings` and `capResolvedBindings`: replace from the back, in place, then sort. */
  method Cap<T(0)>(items: seq<T>, limit: nat, must: T -> bool, key: T -> Binding) returns (r: seq<T>)
    ensures |items| <= limit ==> r == items
    ensures |items| > limit ==> Sorted(r, key) && multiset(r) == multiset(Kept(items, limit, must))
    ensures |items| > limit ==> r == Sort(Arranged(items, limit, must), key)
    ensures Distinct(items, key) ==> r == Capped(items, limit, must, key)
  {
    hide Midway, Kept, Distinct, Sort, Filling, Arranged;
    if |items| <= limit { return items; }
    var selected := new T[limit](i requires 0 <= i < limit => items[i]);
    assert selected[..] == items[..limit];
    MidwayStarts(items, limit, must);
    FillingStarts(items, limit, must);
    var next := limit - 1;
    var i := limit;
    var full := false;
    while i < |items| && !full
      invariant limit <= i <= |items|
      invariant Midway(items, limit, i, selected[..], next, must) && Filling(items, limit, i, selected[..], next, must)
      invariant full ==> next == -1
      decreases |items| - i, !full
    {
      if must(items[i]) {
        next := SkipMustRead(items, limit, i, selected, next, must);
        if next < 0 {
          full := true;
        } else {
          Replace(items, limit, i, selected, next, must);
          next := next - 1;
          i := i + 1;
        }
      } else {
        MidwaySkips(items, limit, i, selected[..], next, must);
        FillingSkips(items, limit, i, selected[..], next, must);
        i := i + 1;
      }
    }
    if full { MidwayEnds(items, limit, i, selected[..], must); }
      else { MidwayDone(items, limit, selected[..], next, must); }
    FillingDone(items, limit, i, selected[..], next, must);
    r := Sort(selected[..], key);
    SortSorted(selected[..], key);
    if Distinct(items, key) { SortOfKept(items, limit, selected[..], must, key); }
  }

  lemma SortOfKept<T>(items: seq<T>, limit: nat, selected: seq<T>, must: T -> bool, key: T -> Binding)
    requires Distinct(items, key) && |items| > limit && multiset(selected) == multiset(Kept(items, limit, must))
    ensures Sort(selected, key) == Capped(items, limit, must, key)
  {
    hide Kept, Sort, Distinct;
    KeptDistinct(items, limit, must, key);
    SortForgetsOrder(Kept(items, limit, must), selected, key);
  }

  lemma MidwayDone<T>(items: seq<T>, limit: nat, selected: seq<T>, at: int, must: T -> bool)
    requires limit <= |items| && Midway(items, limit, |items|, selected, at, must)
    ensures multiset(selected) == multiset(Kept(items, limit, must))
  {
    assert items[..|items|] == items;
  }

  method Replace<T>(items: seq<T>, limit: nat, i: nat, selected: array<T>, at: nat, must: T -> bool)
    requires limit <= i < |items| && must(items[i]) && at < selected.Length && !must(selected[at])
    requires Midway(items, limit, i, selected[..], at, must) && Filling(items, limit, i, selected[..], at, must)
    modifies selected
    ensures Midway(items, limit, i + 1, selected[..], at - 1, must)
    ensures Filling(items, limit, i + 1, selected[..], at - 1, must)
  {
    hide Midway, Filling;
    MidwayReplaces(items, limit, i, selected[..], at, must);
    FillingReplaces(items, limit, i, selected[..], at, must);
    ghost var was := selected[..];
    selected[at] := items[i];
    assert selected[..] == was[at := items[i]];
  }

  method SkipMustRead<T>(items: seq<T>, limit: nat, ghost i: nat, selected: array<T>, from: int, must: T -> bool)
    returns (at: int)
    requires limit <= i <= |items|
    requires Midway(items, limit, i, selected[..], from, must) && Filling(items, limit, i, selected[..], from, must)
    ensures Midway(items, limit, i, selected[..], at, must) && Filling(items, limit, i, selected[..], at, must)
    ensures at == -1 || (0 <= at < selected.Length && !must(selected[at]))
  {
    at := from;
    while at >= 0 && must(selected[at])
      invariant -1 <= at < selected.Length
      invariant Midway(items, limit, i, selected[..], at, must) && Filling(items, limit, i, selected[..], at, must)
    {
      hide Midway, Filling;
      CursorMoves(items, limit, i, selected[..], at, must);
      FillingMoves(items, limit, i, selected[..], at, must);
      at := at - 1;
    }
  }

  // ---- What the cap means -----------------------------------------------------------------------------------------

  lemma {:induction false} MustsMeaning<T>(s: seq<T>, must: T -> bool, x: T)
    ensures multiset(Musts(s, must))[x] == if must(x) then multiset(s)[x] else 0
    decreases |s|
  {
    if s != [] {
      var last := |s| - 1;
      MustsMeaning(s[..last], must, x);
      assert s == s[..last] + [s[last]];
    }
  }

  lemma KeptDistinct<T>(s: seq<T>, limit: nat, must: T -> bool, key: T -> Binding)
    requires Distinct(s, key)
    ensures Distinct(Kept(s, limit, must), key)
  {
    var all := Musts(s, must) + Others(s, must);
    Split(s, must);
    DistinctSurvives(s, all, key);
  }

  /** The cap keeps as many items as fit, all of them from the input. */
  lemma CapSize<T>(s: seq<T>, limit: nat, must: T -> bool, key: T -> Binding)
    ensures var r := Capped(s, limit, must, key);
            |r| == (if |s| <= limit then |s| else limit) && multiset(r) <= multiset(s)
  {
    Split(s, must);
    TakeSome(Musts(s, must) + Others(s, must), limit);
  }

  lemma TakeSome<T>(s: seq<T>, n: nat)
    ensures multiset(Take(s, n)) <= multiset(s)
  {
    if |s| > n { assert s == s[..n] + s[n..]; }
  }

  lemma TakeOfTwo<T>(m: seq<T>, o: seq<T>, n: nat)
    ensures |m| <= n ==> multiset(m) <= multiset(Take(m + o, n))
    ensures |m| > n ==> multiset(Take(m + o, n)) <= multiset(m)
  {
    if |m| <= n {
      assert |m + o| > n ==> (m + o)[..n] == m + o[..n - |m|];
    } else {
      assert (m + o)[..n] == m[..n] && m == m[..n] + m[n..];
    }
  }

  /** No must-read item is dropped while an item that is not must-read is kept. */
  lemma MustReadRescued<T>(s: seq<T>, limit: nat, must: T -> bool, key: T -> Binding, dropped: T, kept: T)
    requires must(dropped) && multiset(Capped(s, limit, must, key))[dropped] < multiset(s)[dropped]
    requires kept in multiset(Capped(s, limit, must, key))
    ensures must(kept)
  {
    var m, o := Musts(s, must), Others(s, must);
    MustsMeaning(s, must, dropped);
    MustsMeaning(s, must, kept);
    TakeOfTwo(m, o, limit);
  }
}
