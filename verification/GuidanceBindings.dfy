/**
  Resolution of guidance bindings: guidance/internal/bindings.go `ResolveKnowledgeBindings` and `ResolveContext`.

  The store's listing is a sequence in any order; the knowledge service is a function that finds a target, misses it, or
  breaks.  Summaries are measured in bytes, so their text is a sequence of bytes here.
*/
module GuidanceBindings {
  import opened Core
  import opened Text
  import opened GuidanceCap

  const MaxResolved := 100
  const MaxBudget := 4096

  // ---- Data -------------------------------------------------------------------------------------------------------

  datatype MetaStatus = StatusArchived | StatusDeprecated | StatusOther

  datatype Meta = Meta(slug: string, summary: seq<int>, status: MetaStatus, replacement: string)

  datatype Lookup = Found(meta: Meta) | NotFound | Broken

  datatype TargetState = Active | Deprecated | Archived | Superseded | Missing | Shadowed

  datatype Source = Knowledge | Legacy

  datatype Resolved = Resolved(binding: Binding, source: Source, target: Option<Meta>, state: TargetState,
      admitted: bool)

  datatype Resolution = Resolution(selections: seq<Resolved>, excluded: seq<Resolved>, used: nat)

  function Itself(b: Binding): (r: Binding) { b }

  function BindingOf(r: Resolved): (b: Binding) { r.binding }

  predicate IsMust(b: Binding) { b.policy.MustRead? }

  predicate IsMustResolved(r: Resolved) { r.binding.policy.MustRead? }

  // ---- Which bindings apply -----------------------------------------------------------------------------------------

  /** An empty list on either side matches; "all" on an entry matches every request. */
  predicate AudienceMatches(entry: seq<string>, requested: seq<string>) {
    || requested == [] || entry == []
    || exists i :: 0 <= i < |entry| && (TrimSpace(entry[i]) == "all" || Wants(requested, TrimSpace(entry[i])))
  }

  predicate Wants(requested: seq<string>, value: string) {
    exists j :: 0 <= j < |requested| && TrimSpace(requested[j]) == value
  }

  method MatchAudience(entry: seq<string>, requested: seq<string>) returns (b: bool)
    ensures b == AudienceMatches(entry, requested)
  {
    hide TrimSpace;
    if |requested| == 0 || |entry| == 0 { return true; }
    var wanted: set<string> := {};
    for i := 0 to |requested|
      invariant forall v :: v in wanted <==> exists j :: 0 <= j < i && TrimSpace(requested[j]) == v
    {
      wanted := wanted + {TrimSpace(requested[i])};
    }
    assert forall v :: v in wanted <==> Wants(requested, v);
    for i := 0 to |entry|
      invariant forall k :: 0 <= k < i ==> TrimSpace(entry[k]) != "all" && !Wants(requested, TrimSpace(entry[k]))
    {
      var trimmed := TrimSpace(entry[i]);
      if trimmed == "all" { return true; }
      if trimmed in wanted { return true; }
    }
    return false;
  }

  predicate Applies(b: Binding, scopes: set<(Scope, string)>, audience: seq<string>) {
    (b.scope, b.scopeRef) in scopes && AudienceMatches(b.audience, audience)
  }

  function Applicable(listed: seq<Binding>, scopes: set<(Scope, string)>, audience: seq<string>): (r: seq<Binding>)
    decreases |listed|
  {
    if listed == [] then [] else
      var last := |listed| - 1;
      var front := Applicable(listed[..last], scopes, audience);
      if Applies(listed[last], scopes, audience) then front + [listed[last]] else front
  }

  /** Targets of global bindings that some applicable local binding shadows. */
  function ShadowedTargets(bindings: seq<Binding>): (r: set<string>) {
    set i, j | 0 <= i < |bindings| && 0 <= j < |bindings| && bindings[i].scope.Global? &&
               !bindings[j].scope.Global? && bindings[j].shadowsGlobal && bindings[j].target == bindings[i].target
             :: bindings[i].target
  }

  method CollectShadowed(bindings: seq<Binding>) returns (r: set<string>)
    ensures r == ShadowedTargets(bindings)
  {
    var global: set<string> := {};
    for i := 0 to |bindings|
      invariant forall t ::
                  t in global <==> exists k :: 0 <= k < i && bindings[k].scope.Global? && bindings[k].target == t
    {
      if bindings[i].scope.Global? { global := global + {bindings[i].target}; }
    }
    r := {};
    for j := 0 to |bindings|
      invariant forall t :: t in r <==>
                  t in global && exists k :: 0 <= k < j && !bindings[k].scope.Global? && bindings[k].shadowsGlobal
                                             && bindings[k].target == t
    {
      if !bindings[j].scope.Global? && bindings[j].shadowsGlobal && bindings[j].target in global {
        r := r + {bindings[j].target};
      }
    }
  }

  // ---- One binding ------------------------------------------------------------------------------------------------

  /** `knowledgeTargetState`. */
  function StateOf(m: Meta): (s: TargetState) {
    if m.status.StatusArchived? then Archived
    else if m.replacement != "" then Superseded
    else if m.status.StatusDeprecated? then Deprecated
    else Active
  }

  function Cost(b: Binding, m: Meta): (n: nat) {
    if b.policy.Inline? then |m.summary| else 0
  }

  /** Append the binding's result; a broken knowledge service gives none. */
  function ResolveOne(b: Binding, shadowed: set<string>, reader: string -> Lookup, budget: nat, acc: Resolution)
    : (r: Option<Resolution>)
  {
    if b.scope.Global? && b.target in shadowed
    then Some(acc.(excluded := acc.excluded + [Resolved(b, Knowledge, None, Shadowed, false)]))
    else
      match reader(b.target)
      case Broken => None
      case NotFound => Some(acc.(excluded := acc.excluded + [Resolved(b, Knowledge, None, Missing, false)]))
      case Found(m) =>
        var state := StateOf(m);
        if state.Archived? || state.Superseded?
        then Some(acc.(excluded := acc.excluded + [Resolved(b, Knowledge, Some(m), state, false)]))
        else
          var admitted := 0 < Cost(b, m) && acc.used + Cost(b, m) <= budget;
          Some(acc.(selections := acc.selections + [Resolved(b, Knowledge, Some(m), state, admitted)],
                    used := if admitted then acc.used + Cost(b, m) else acc.used))
  }

  function ResolveAll(items: seq<Binding>, shadowed: set<string>, reader: string -> Lookup, budget: nat,
      acc: Resolution)
    : (r: Option<Resolution>)
    decreases |items|
  {
    if items == [] then Some(acc) else
      match ResolveOne(items[0], shadowed, reader, budget, acc)
      case None => None
      case Some(next) => ResolveAll(items[1..], shadowed, reader, budget, next)
  }

  const NoResolution := Resolution([], [], 0)

  function SortBoth(r: Resolution): (q: Resolution) {
    r.(selections := Sort(r.selections, BindingOf), excluded := Sort(r.excluded, BindingOf))
  }

  function Resolve(listed: seq<Binding>, scopes: set<(Scope, string)>, audience: seq<string>, reader: string -> Lookup,
                   budget: nat): (r: Option<(Resolution, bool)>)
  {
    var applicable := Sort(Applicable(listed, scopes, audience), Itself);
    var capped := Capped(applicable, MaxResolved, IsMust, Itself);
    match ResolveAll(capped, ShadowedTargets(applicable), reader, budget, NoResolution)
    case None => None
    case Some(r) => Some((SortBoth(r), |applicable| > MaxResolved))
  }

  // ---- The order of the listing -----------------------------------------------------------------------------------

  lemma {:induction false} ApplicableCount(listed: seq<Binding>, scopes: set<(Scope, string)>, audience: seq<string>,
      b: Binding)
    ensures multiset(Applicable(listed, scopes, audience))[b]
            == if Applies(b, scopes, audience) then multiset(listed)[b] else 0
    decreases |listed|
  {
    hide Applies;
    if listed != [] {
      var last := |listed| - 1;
      ApplicableCount(listed[..last], scopes, audience, b);
      assert listed == listed[..last] + [listed[last]];
    }
  }

  lemma {:induction false} ApplicableIn(listed: seq<Binding>, scopes: set<(Scope, string)>, audience: seq<string>)
    ensures forall i :: 0 <= i < |Applicable(listed, scopes, audience)| ==>
              Applicable(listed, scopes, audience)[i] in listed
                && Applies(Applicable(listed, scopes, audience)[i], scopes, audience)
    decreases |listed|
  {
    hide Applies;
    if listed != [] {
      var last := |listed| - 1;
      ApplicableIn(listed[..last], scopes, audience);
      assert forall b :: b in listed[..last] ==> b in listed;
    }
  }

  lemma FrontDistinct(listed: seq<Binding>)
    requires listed != [] && DistinctIds(listed)
    ensures DistinctIds(listed[..|listed| - 1])
  {
  }

  lemma DistinctAppend(front: seq<Binding>, listed: seq<Binding>, last: int)
    requires 0 <= last < |listed| && DistinctIds(listed) && DistinctIds(front)
    requires forall i :: 0 <= i < |front| ==> front[i] in listed[..last]
    ensures DistinctIds(front + [listed[last]])
  {
    forall i | 0 <= i < |front| ensures front[i].id != listed[last].id {
      var k :| 0 <= k < last && listed[..last][k] == front[i];
      assert listed[k] == front[i];
    }
  }

  lemma {:induction false} ApplicableDistinct(listed: seq<Binding>, scopes: set<(Scope, string)>, audience: seq<string>)
    requires DistinctIds(listed)
    ensures DistinctIds(Applicable(listed, scopes, audience))
    decreases |listed|
  {
    hide Applies;
    if listed != [] {
      var last := |listed| - 1;
      FrontDistinct(listed);
      hide DistinctIds;
      ApplicableDistinct(listed[..last], scopes, audience);
      ApplicableIn(listed[..last], scopes, audience);
      DistinctAppend(Applicable(listed[..last], scopes, audience), listed, last);
    }
  }

  ghost predicate DistinctIds(s: seq<Binding>) {
    forall i, j :: 0 <= i < j < |s| ==> s[i].id != s[j].id
  }

  lemma DistinctIdsDiffer(s: seq<Binding>)
    requires DistinctIds(s)
    ensures Distinct(s, Itself)
  {
    hide Before, Differ;
    forall i, j | 0 <= i < j < |s| ensures Differ(Itself(s[i]), Itself(s[j])) { BeforeTotal(s[i], s[j]); }
  }

  /** However the store lists its rows, the resolution is the same. */
  lemma ListingOrderIsIrrelevant(a: seq<Binding>, b: seq<Binding>, scopes: set<(Scope, string)>, audience: seq<string>,
                                 reader: string -> Lookup, budget: nat)
    requires DistinctIds(a) && multiset(a) == multiset(b)
    ensures Resolve(a, scopes, audience, reader, budget) == Resolve(b, scopes, audience, reader, budget)
  {
    hide Sort, Capped, ResolveAll, ShadowedTargets, Distinct, Applicable, Applies;
    var x, y := Applicable(a, scopes, audience), Applicable(b, scopes, audience);
    forall v ensures multiset(x)[v] == multiset(y)[v] {
      ApplicableCount(a, scopes, audience, v);
      ApplicableCount(b, scopes, audience, v);
    }
    assert multiset(x) == multiset(y);
    ApplicableDistinct(a, scopes, audience);
    DistinctIdsDiffer(x);
    SortForgetsOrder(x, y, Itself);
  }

  // ---- What a resolution holds --------------------------------------------------------------------------------------

  function Bindings(rs: seq<Resolved>): (bs: seq<Binding>)
    ensures |bs| == |rs| && forall i :: 0 <= i < |rs| ==> bs[i] == rs[i].binding
    decreases |rs|
  {
    if rs == [] then [] else Bindings(rs[..|rs| - 1]) + [rs[|rs| - 1].binding]
  }

  /** Summary bytes of the admitted selections. */
  function Admitted(rs: seq<Resolved>): (n: nat)
    decreases |rs|
  {
    if rs == [] then 0 else
      var r := rs[|rs| - 1];
      Admitted(rs[..|rs| - 1]) + if r.admitted && r.target.Some? then |r.target.value.summary| else 0
  }

  predicate SelectionOk(r: Resolved, reader: string -> Lookup, shadowed: set<string>) {
    && r.target.Some? && reader(r.binding.target) == Found(r.target.value) && r.state == StateOf(r.target.value)
    && (r.state.Active? || r.state.Deprecated?)
    && !(r.binding.scope.Global? && r.binding.target in shadowed)
    && (r.admitted ==> r.binding.policy.Inline? && |r.target.value.summary| > 0)
  }

  predicate ExclusionOk(r: Resolved, reader: string -> Lookup, shadowed: set<string>) {
    && (r.state.Shadowed? <==> r.binding.scope.Global? && r.binding.target in shadowed)
    && (r.state.Missing? ==> reader(r.binding.target) == NotFound)
    && (r.state.Archived? || r.state.Superseded? ==>
          r.target.Some? && reader(r.binding.target) == Found(r.target.value) && r.state == StateOf(r.target.value))
    && !r.state.Active? && !r.state.Deprecated? && !r.admitted
  }

  /** A summary that was refused would not fit in what the budget still holds. */
  predicate RightlyRefused(r: Resolved, budget: nat, used: nat) {
    r.target.Some? && r.binding.policy.Inline? && !r.admitted && |r.target.value.summary| > 0 ==>
      |r.target.value.summary| > budget - used
  }

  ghost predicate Sound(q: Resolution, reader: string -> Lookup, shadowed: set<string>, budget: nat) {
    && (forall i :: 0 <= i < |q.selections| ==>
          SelectionOk(q.selections[i], reader, shadowed) && RightlyRefused(q.selections[i], budget, q.used))
    && (forall i :: 0 <= i < |q.excluded| ==> ExclusionOk(q.excluded[i], reader, shadowed))
    && q.used == Admitted(q.selections) <= budget
  }

  lemma Appended(rs: seq<Resolved>, r: Resolved)
    ensures Bindings(rs + [r]) == Bindings(rs) + [r.binding]
    ensures Admitted(rs + [r]) == Admitted(rs) + if r.admitted && r.target.Some? then |r.target.value.summary| else 0
  {
    assert (rs + [r])[..|rs|] == rs;
  }

  lemma AddExcluded(acc: Resolution, r: Resolved, reader: string -> Lookup, shadowed: set<string>, budget: nat)
    requires Sound(acc, reader, shadowed, budget) && ExclusionOk(r, reader, shadowed)
    ensures Sound(acc.(excluded := acc.excluded + [r]), reader, shadowed, budget)
    ensures Bindings(acc.excluded + [r]) == Bindings(acc.excluded) + [r.binding]
  {
    Appended(acc.excluded, r);
    hide SelectionOk, ExclusionOk, RightlyRefused, Admitted, Bindings;
  }

  lemma AddSelection(acc: Resolution, r: Resolved, used: nat, reader: string -> Lookup, shadowed: set<string>,
      budget: nat)
    requires Sound(acc, reader, shadowed, budget) && SelectionOk(r, reader, shadowed) && used <= budget
    requires used == acc.used + if r.admitted then |r.target.value.summary| else 0
    requires RightlyRefused(r, budget, used)
    ensures Sound(acc.(selections := acc.selections + [r], used := used), reader, shadowed, budget)
    ensures Bindings(acc.selections + [r]) == Bindings(acc.selections) + [r.binding]
  {
    Appended(acc.selections, r);
    hide ExclusionOk, Bindings, Admitted;
    forall i | 0 <= i < |acc.selections| ensures RightlyRefused(acc.selections[i], budget, used) {
      assert RightlyRefused(acc.selections[i], budget, acc.used);
    }
  }

  /** A binding added to the selections or to the exclusions is accounted for. */
  lemma BagGrows(a: seq<Binding>, c: seq<Binding>, b: Binding)
    ensures multiset(a + [b]) == multiset(a) + multiset{b}
    ensures multiset(a + [b]) + multiset(c) == multiset(a) + multiset(c) + multiset{b}
    ensures multiset(c) + multiset(a + [b]) == multiset(c) + multiset(a) + multiset{b}
  {
  }

  lemma ResolveFoundSound(b: Binding, shadowed: set<string>, reader: string -> Lookup, budget: nat, acc: Resolution)
    requires Sound(acc, reader, shadowed, budget) && ResolveOne(b, shadowed, reader, budget, acc).Some?
    requires !(b.scope.Global? && b.target in shadowed) && reader(b.target).Found?
    ensures var q := ResolveOne(b, shadowed, reader, budget, acc).value;
            && Sound(q, reader, shadowed, budget)
            && multiset(Bindings(q.selections)) + multiset(Bindings(q.excluded))
               == multiset(Bindings(acc.selections)) + multiset(Bindings(acc.excluded)) + multiset{b}
  {
    hide Sound, Bindings;
    var m := reader(b.target).meta;
    var state := StateOf(m);
    BagGrows(Bindings(acc.excluded), Bindings(acc.selections), b);
    BagGrows(Bindings(acc.selections), Bindings(acc.excluded), b);
    if state.Archived? || state.Superseded? {
      AddExcluded(acc, Resolved(b, Knowledge, Some(m), state, false), reader, shadowed, budget);
    } else {
      UsedWithin(acc, reader, shadowed, budget);
      var admitted := 0 < Cost(b, m) && acc.used + Cost(b, m) <= budget;
      AddSelection(acc, Resolved(b, Knowledge, Some(m), state, admitted),
                   if admitted then acc.used + Cost(b, m) else acc.used, reader, shadowed, budget);
    }
  }

  lemma ResolveOneSound(b: Binding, shadowed: set<string>, reader: string -> Lookup, budget: nat, acc: Resolution)
    requires Sound(acc, reader, shadowed, budget) && ResolveOne(b, shadowed, reader, budget, acc).Some?
    ensures var q := ResolveOne(b, shadowed, reader, budget, acc).value;
            && Sound(q, reader, shadowed, budget)
            && multiset(Bindings(q.selections)) + multiset(Bindings(q.excluded))
               == multiset(Bindings(acc.selections)) + multiset(Bindings(acc.excluded)) + multiset{b}
  {
    hide Sound, Bindings;
    BagGrows(Bindings(acc.excluded), Bindings(acc.selections), b);
    if b.scope.Global? && b.target in shadowed {
      AddExcluded(acc, Resolved(b, Knowledge, None, Shadowed, false), reader, shadowed, budget);
    } else if reader(b.target).NotFound? {
      AddExcluded(acc, Resolved(b, Knowledge, None, Missing, false), reader, shadowed, budget);
    } else {
      ResolveFoundSound(b, shadowed, reader, budget, acc);
    }
  }

  lemma UsedWithin(acc: Resolution, reader: string -> Lookup, shadowed: set<string>, budget: nat)
    requires Sound(acc, reader, shadowed, budget)
    ensures acc.used <= budget
  {
  }

  lemma {:induction false} ResolveAllSound(items: seq<Binding>, shadowed: set<string>, reader: string -> Lookup,
                                           budget: nat, acc: Resolution)
    requires Sound(acc, reader, shadowed, budget) && ResolveAll(items, shadowed, reader, budget, acc).Some?
    ensures var q := ResolveAll(items, shadowed, reader, budget, acc).value;
            && Sound(q, reader, shadowed, budget)
            && multiset(Bindings(q.selections)) + multiset(Bindings(q.excluded))
               == multiset(Bindings(acc.selections)) + multiset(Bindings(acc.excluded)) + multiset(items)
    decreases |items|
  {
    hide Sound, ResolveOne, Bindings;
    if items != [] {
      ResolveOneSound(items[0], shadowed, reader, budget, acc);
      var next := ResolveOne(items[0], shadowed, reader, budget, acc).value;
      ResolveAllSound(items[1..], shadowed, reader, budget, next);
      assert items == [items[0]] + items[1..];
    }
  }

  // ---- Sorting the answer keeps what it holds -----------------------------------------------------------------------

  lemma {:induction false} Concat(a: seq<Resolved>, b: seq<Resolved>)
    ensures Bindings(a + b) == Bindings(a) + Bindings(b) && Admitted(a + b) == Admitted(a) + Admitted(b)
    decreases |b|
  {
    if b == [] {
      assert a + b == a;
    } else {
      var last := |b| - 1;
      Concat(a, b[..last]);
      assert (a + b)[..|a + b| - 1] == a + b[..last] && (a + b)[|a + b| - 1] == b[last];
    }
  }

  lemma {:induction false} CountBindings(rs: seq<Resolved>, ss: seq<Resolved>)
    requires multiset(rs) == multiset(ss)
    ensures multiset(Bindings(rs)) == multiset(Bindings(ss)) && Admitted(rs) == Admitted(ss)
    decreases |rs|
  {
    hide Bindings, Admitted;
    SameLength(rs, ss);
    if rs == [] {
      assert rs == ss;
    } else {
      var r, rest := rs[0], rs[1..];
      assert rs == [r] + rest;
      assert r in multiset(ss);
      var k := MemberAt(ss, r);
      var cut := ss[..k] + ss[k + 1..];
      MiddleOut(ss, k);
      assert multiset(rest) == multiset(rs) - multiset{r};
      CountBindings(rest, cut);
      Concat([r], rest);
    }
  }

  lemma MiddleOut(ss: seq<Resolved>, k: nat)
    requires k < |ss|
    ensures var cut := ss[..k] + ss[k + 1..];
            && multiset(cut) == multiset(ss) - multiset{ss[k]}
            && multiset(Bindings(ss)) == multiset(Bindings([ss[k]])) + multiset(Bindings(cut))
            && Admitted(ss) == Admitted([ss[k]]) + Admitted(cut)
  {
    hide Bindings, Admitted;
    var r := ss[k];
    assert ss == ss[..k] + ([r] + ss[k + 1..]);
    Concat(ss[..k], [r] + ss[k + 1..]);
    Concat([r], ss[k + 1..]);
    Concat(ss[..k], ss[k + 1..]);
  }

  lemma SortBothSound(q: Resolution, reader: string -> Lookup, shadowed: set<string>, budget: nat)
    requires Sound(q, reader, shadowed, budget)
    ensures Sound(SortBoth(q), reader, shadowed, budget)
    ensures multiset(Bindings(SortBoth(q).selections)) == multiset(Bindings(q.selections))
    ensures multiset(Bindings(SortBoth(q).excluded)) == multiset(Bindings(q.excluded))
  {
    var s := SortBoth(q);
    hide Sort, SelectionOk, ExclusionOk, RightlyRefused, Bindings, Admitted;
    CountBindings(q.selections, s.selections);
    CountBindings(q.excluded, s.excluded);
    forall i | 0 <= i < |s.selections|
      ensures SelectionOk(s.selections[i], reader, shadowed) && RightlyRefused(s.selections[i], budget, q.used)
    {
      assert s.selections[i] in multiset(s.selections);
      var k := MemberAt(q.selections, s.selections[i]);
    }
    forall i | 0 <= i < |s.excluded| ensures ExclusionOk(s.excluded[i], reader, shadowed) {
      assert s.excluded[i] in multiset(s.excluded);
      var k := MemberAt(q.excluded, s.excluded[i]);
    }
  }

  /**
    The answer splits the capped list exactly into selections and exclusions.  A capped global binding is excluded as
    shadowed exactly when an applicable local binding shadows its target.  The inline budget is spent greedily: what was
    used is the size of the admitted summaries, it stays within the budget, and no refused summary would still fit.
  */
  lemma ResolutionMeaning(listed: seq<Binding>, scopes: set<(Scope, string)>, audience: seq<string>,
                          reader: string -> Lookup, budget: nat)
    requires Resolve(listed, scopes, audience, reader, budget).Some?
    ensures var applicable := Sort(Applicable(listed, scopes, audience), Itself);
            var capped := Capped(applicable, MaxResolved, IsMust, Itself);
            var (q, truncated) := Resolve(listed, scopes, audience, reader, budget).value;
            && multiset(Bindings(q.selections)) + multiset(Bindings(q.excluded)) == multiset(capped)
            && Sound(q, reader, ShadowedTargets(applicable), budget)
            && (truncated <==> |applicable| > |capped|)
            && Sorted(q.selections, BindingOf) && Sorted(q.excluded, BindingOf)
  {
    hide Sort, Capped, ResolveAll, ShadowedTargets, Applicable, Sound, Sorted, Bindings;
    var applicable := Sort(Applicable(listed, scopes, audience), Itself);
    var capped := Capped(applicable, MaxResolved, IsMust, Itself);
    CapSize(applicable, MaxResolved, IsMust, Itself);
    var shadowed := ShadowedTargets(applicable);
    NothingIsSound(reader, shadowed, budget);
    ResolveAllSound(capped, shadowed, reader, budget, NoResolution);
    var q := ResolveAll(capped, shadowed, reader, budget, NoResolution).value;
    SortBothSound(q, reader, shadowed, budget);
    SortSorted(q.selections, BindingOf);
    SortSorted(q.excluded, BindingOf);
  }

  lemma NothingIsSound(reader: string -> Lookup, shadowed: set<string>, budget: nat)
    ensures Sound(NoResolution, reader, shadowed, budget)
    ensures Bindings(NoResolution.selections) == [] && Bindings(NoResolution.excluded) == []
  {
  }

  /** What the shadowed state says, spelled out. */
  lemma ShadowedExactly(listed: seq<Binding>, scopes: set<(Scope, string)>, audience: seq<string>,
                        reader: string -> Lookup, budget: nat, k: int)
    requires Resolve(listed, scopes, audience, reader, budget).Some?
    requires 0 <= k < |Resolve(listed, scopes, audience, reader, budget).value.0.excluded|
    ensures var applicable := Sort(Applicable(listed, scopes, audience), Itself);
            var r := Resolve(listed, scopes, audience, reader, budget).value.0.excluded[k];
            r.state.Shadowed? <==>
              r.binding.scope.Global? &&
              exists i, j :: 0 <= i < |applicable| && 0 <= j < |applicable| && applicable[i].scope.Global?
                             && applicable[i].target == r.binding.target && Shadows(applicable[j], r.binding.target)
  {
    ResolutionMeaning(listed, scopes, audience, reader, budget);
    var applicable := Sort(Applicable(listed, scopes, audience), Itself);
    hide Resolve, Sort, Capped, Applicable, Bindings, Admitted, SelectionOk, RightlyRefused, Sorted, ShadowedTargets;
    var r := Resolve(listed, scopes, audience, reader, budget).value.0.excluded[k];
    assert ExclusionOk(r, reader, ShadowedTargets(applicable));
    InShadowed(applicable, r.binding.target);
  }

  lemma InShadowed(bindings: seq<Binding>, target: string)
    ensures target in ShadowedTargets(bindings) <==>
              exists i, j :: 0 <= i < |bindings| && 0 <= j < |bindings| && bindings[i].scope.Global?
                             && bindings[i].target == target && Shadows(bindings[j], target)
  {
  }

  predicate Shadows(b: Binding, target: string) {
    !b.scope.Global? && b.shadowsGlobal && b.target == target
  }

  // ---- The loops --------------------------------------------------------------------------------------------------

  /** `ResolveKnowledgeBindings`, with the cache of targets already read. */
  method ResolveKnowledgeBindings(listed: seq<Binding>, scopes: set<(Scope, string)>, audience: seq<string>,
                                  reader: string -> Lookup, budget: int)
    returns (r: Option<(Resolution, bool)>)
    requires DistinctIds(listed)
    ensures r == if 0 <= budget <= MaxBudget then Resolve(listed, scopes, audience, reader, budget) else None
  {
    if budget < 0 || budget > MaxBudget { return None; }
    hide Sort, Capped, ShadowedTargets, Distinct, AudienceMatches, DistinctIds;
    var applicable := [];
    for i := 0 to |listed|
      invariant applicable == Applicable(listed[..i], scopes, audience)
    {
      assert listed[..i + 1][..i] == listed[..i] && listed[..i + 1][i] == listed[i];
      var matches := MatchAudience(listed[i].audience, audience);
      if (listed[i].scope, listed[i].scopeRef) in scopes && matches { applicable := applicable + [listed[i]]; }
    }
    assert listed[..|listed|] == listed;
    SortedDistinct(listed, scopes, audience);
    hide Applicable;
    applicable := Sort(applicable, Itself);
    var shadowed := CollectShadowed(applicable);
    var capped := Cap(applicable, MaxResolved, IsMust, Itself);
    r := ResolveLoop(capped, shadowed, reader, budget);
    if r.Some? { r := Some((SortBoth(r.value.0), |applicable| > MaxResolved)); }
  }

  lemma SortedDistinct(listed: seq<Binding>, scopes: set<(Scope, string)>, audience: seq<string>)
    requires DistinctIds(listed)
    ensures Distinct(Sort(Applicable(listed, scopes, audience), Itself), Itself)
  {
    hide Applies, DistinctIds, Distinct;
    var a := Applicable(listed, scopes, audience);
    ApplicableDistinct(listed, scopes, audience);
    DistinctIdsDiffer(a);
    DistinctSurvives(a, Sort(a, Itself), Itself);
  }

  method ResolveLoop(items: seq<Binding>, shadowed: set<string>, reader: string -> Lookup, budget: nat)
    returns (r: Option<(Resolution, bool)>)
    ensures match ResolveAll(items, shadowed, reader, budget, NoResolution)
            case None => r.None?
            case Some(q) => r.Some? && r.value.0 == q
  {
    var acc := NoResolution;
    var cache: map<string, Meta> := map[];
    var i := 0;
    while i < |items|
      invariant 0 <= i <= |items|
      invariant ResolveAll(items, shadowed, reader, budget, NoResolution)
                == ResolveAll(items[i..], shadowed, reader, budget, acc)
      invariant forall t :: t in cache ==> reader(t) == Found(cache[t])
    {
      assert items[i..][0] == items[i] && items[i..][1..] == items[i + 1..];
      hide ResolveOne;
      var next;
      next, cache := ResolveBinding(items[i], shadowed, reader, budget, acc, cache);
      if next.None? { return None; }
      acc := next.value;
      i := i + 1;
    }
    return Some((acc, false));
  }

  method ResolveBinding(b: Binding, shadowed: set<string>, reader: string -> Lookup, budget: nat, acc: Resolution,
                        cache0: map<string, Meta>)
    returns (r: Option<Resolution>, cache: map<string, Meta>)
    requires forall t :: t in cache0 ==> reader(t) == Found(cache0[t])
    ensures r == ResolveOne(b, shadowed, reader, budget, acc)
    ensures forall t :: t in cache ==> reader(t) == Found(cache[t])
  {
    cache := cache0;
    if b.scope.Global? && b.target in shadowed {
      return Some(acc.(excluded := acc.excluded + [Resolved(b, Knowledge, None, Shadowed, false)])), cache;
    }
    var meta: Meta;
    if b.target in cache {
      meta := cache[b.target];
    } else {
      match reader(b.target) {
        case Found(m) =>
          meta := m;
          cache := cache[b.target := m];
        case NotFound =>
          return Some(acc.(excluded := acc.excluded + [Resolved(b, Knowledge, None, Missing, false)])), cache;
        case Broken => return None, cache;
      }
    }
    var item := Resolved(b, Knowledge, Some(meta), StateOf(meta), false);
    if item.state.Archived? || item.state.Superseded? {
      return Some(acc.(excluded := acc.excluded + [item])), cache;
    }
    var used := acc.used;
    if b.policy.Inline? {
      var cost := |meta.summary|;
      if cost > 0 && cost <= budget - used {
        item := item.(admitted := true);
        used := used + cost;
      }
    }
    return Some(acc.(selections := acc.selections + [item], used := used)), cache;
  }

  // ---- Legacy document guidance -----------------------------------------------------------------------------------

  const GlobalProject := "_global"

  datatype Entry =
    Entry(id: int, project: string, documentRef: string, required: bool, audience: seq<string>, sortOrder: int)

  function LegacyItem(e: Entry): (r: Resolved) {
    Resolved(Binding(e.id, e.documentRef, if e.project == GlobalProject then Global else Project, e.project,
                     e.audience, 0, e.sortOrder, if e.required then MustRead else OnDemand, false),
             Legacy, None, Active, false)
  }

  function LegacyItems(entries: seq<Entry>, audience: seq<string>): (r: seq<Resolved>)
    decreases |entries|
  {
    if entries == [] then [] else
      var last := |entries| - 1;
      var front := LegacyItems(entries[..last], audience);
      if AudienceMatches(entries[last].audience, audience) then front + [LegacyItem(entries[last])] else front
  }

  /** All candidates of a context, sorted: the knowledge selections and the matching legacy entries. */
  function Candidates(q: Resolution, entries: seq<Entry>, audience: seq<string>): (r: seq<Resolved>) {
    Sort(q.selections + LegacyItems(entries, audience), BindingOf)
  }

  /** `ResolveContext` after the knowledge bindings were resolved: add the legacy entries and cap what results. */
  method ResolveContext(q: Resolution, truncated0: bool, entries: seq<Entry>, audience: seq<string>)
    returns (selections: seq<Resolved>, truncated: bool)
    ensures var all := Candidates(q, entries, audience);
            && selections == (if |all| <= MaxResolved then all
                              else Sort(Arranged(all, MaxResolved, IsMustResolved), BindingOf))
            && |selections| == (if |all| > MaxResolved then MaxResolved else |all|)
            && multiset(selections) == multiset(Capped(all, MaxResolved, IsMustResolved, BindingOf))
            && Sorted(selections, BindingOf)
            && (truncated <==> truncated0 || |all| > MaxResolved)
  {
    hide Sort, Sorted, AudienceMatches, Kept, Arranged;
    var legacy := [];
    for i := 0 to |entries|
      invariant legacy == LegacyItems(entries[..i], audience)
    {
      assert entries[..i + 1][..i] == entries[..i] && entries[..i + 1][i] == entries[i];
      var matches := MatchAudience(entries[i].audience, audience);
      if matches { legacy := legacy + [LegacyItem(entries[i])]; }
    }
    assert entries[..|entries|] == entries;
    var all := Sort(q.selections + legacy, BindingOf);
    SortSorted(q.selections + legacy, BindingOf);
    CapSize(all, MaxResolved, IsMustResolved, BindingOf);
    selections, truncated := all, truncated0;
    if |all| > MaxResolved {
      selections := Cap(all, MaxResolved, IsMustResolved, BindingOf);
      SameLength(selections, Capped(all, MaxResolved, IsMustResolved, BindingOf));
      truncated := true;
    }
  }
}
