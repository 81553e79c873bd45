/**
  Delivery as objects: the table behind delivery/internal/store.go with its guarded updates, and the operations of
  delivery/internal/service.go as one client runs them when nobody interferes.
*/
module DeliveryService {
  import opened Core
  import opened Delivery

  /** Keys are unique, so a scan finds the row the insert answers with. */
  lemma OnlyHolder(s: Store, intent: Intent, id: int)
    requires Unique(s) && HoldsKey(s, intent.key, id)
    ensures Create(s, intent) == (s, id)
  {
    assert forall other :: HoldsKey(s, intent.key, other) ==> other == id;
  }

  class IntentStore {
    var nextId: int
    var intents: map<int, Intent>
    var logs: map<int, seq<Event>>
    ghost var claims: map<int, seq<string>>

    ghost function View(): (s: Store)
      reads this
    {
      Store(nextId, intents, logs, claims)
    }

    ghost predicate Valid()
      reads this
    {
      StoreOk(View())
    }

    constructor ()
      ensures Valid() && View() == Empty
    {
      nextId, intents, logs, claims := 1, map[], map[], map[];
    }

    /** A repeated key answers with the row already there. */
    method Insert(intent: Intent) returns (id: int)
      requires Valid() && intent.state.Pending? && RowOk(intent, [], [])
      modifies this
      ensures Valid() && (View(), id) == Create(old(View()), intent)
    {
      CreateStep(View(), intent);
      hide RowOk;
      var todo := intents.Keys;
      while todo != {}
        invariant todo <= intents.Keys && View() == old(View())
        invariant forall x :: HoldsKey(View(), intent.key, x) ==> x in todo
        decreases todo
      {
        var x := Pick(todo);
        if intents[x].key == intent.key {
          OnlyHolder(View(), intent, x);
          return x;
        }
        todo := todo - {x};
      }
      id := nextId;
      nextId := nextId + 1;
      intents, logs, claims := intents[id := intent], logs[id := []], claims[id := []];
    }

    method TokenInUse(token: string, id: int) returns (b: bool)
      ensures b == TokenTaken(View(), token, id)
    {
      var todo := intents.Keys;
      while todo != {}
        invariant todo <= intents.Keys
        invariant forall x :: x in intents && x != id && intents[x].token == Some(token) ==> x in todo
        decreases todo
      {
        var x := Pick(todo);
        if x != id && intents[x].token == Some(token) { return true; }
        todo := todo - {x};
      }
      return false;
    }

    method ClaimIfPending(id: int, token: string, who: Identity, at: int) returns (r: Result<Intent, Error>)
      modifies this
      ensures (View(), r) == ClaimPending(old(View()), id, token, who, at)
    {
      if id !in intents || !intents[id].state.Pending? { return Err(ClaimConflictNow(id)); }
      var taken := TokenInUse(token, id);
      if taken { return Err(Constraint); }
      var claimed := Delivery.Claim(intents[id], token, who, at);
      intents := intents[id := claimed];
      claims := claims[id := (if id in claims then claims[id] else []) + [token]];
      return Ok(claimed);
    }

    function ClaimConflictNow(id: int): (e: Error)
      reads this
      ensures e == ClaimConflict(View(), id)
    {
      if id !in intents then NotFound
      else match intents[id].state
           case Completed | Failed | Cancelled | DisplayOnly => AlreadyCompleted
           case Expired => ExpiredIntent
           case _ => AlreadyClaimed
    }

    method Expire(id: int, at: int)
      modifies this
      ensures View() == ExpireIfPending(old(View()), id, at)
    {
      if id in intents && intents[id].state.Pending? && intents[id].createdAt <= at {
        intents := intents[id := Delivery.Expire(intents[id], at)];
      }
    }

    /** A report is accepted from the holder of the claim while the row is claimed or running, in this order. */
    method Report(id: int, token: string, event: Event, at: int) returns (r: Result<Intent, Error>)
      requires Valid()
      modifies this
      ensures Valid() && StoreStep(old(View()), View())
      ensures (View(), r) == ReportEvent(old(View()), id, token, event, at)
      ensures r.Ok? <==>
                && id in old(intents) && old(intents)[id].token == Some(token)
                && (old(intents)[id].state.Claimed? || (old(intents)[id].state.Running? && !event.EvRunning?))
                && (event.EvRunning? || old(intents)[id].createdAt <= at)
      ensures r.Ok? ==>
                && id in intents && intents[id] == r.value && intents == old(intents)[id := r.value]
                && id in old(logs) && logs == old(logs)[id := old(logs)[id] + [event]]
                && (if event.EvRunning? then r.value.state.Running?
                    else r.value.state.IsTerminal() && r.value.completedAt == Some(at))
      ensures r.Err? ==> View() == old(View())
    {
      ReportStep(View(), id, token, event, at);
      ReportMeans(View(), id, token, event, at);
      hide StoreOk, StoreStep;
      hide CanReport, Reported;
      if id !in intents { return Err(NotFound); }
      var refusal := CanReport(intents[id], event, token);
      if refusal.Some? { return Err(refusal.value); }
      var next := Reported(intents[id], event, at);
      if !event.EvRunning? && at < next.createdAt { return Err(Constraint); }
      intents := intents[id := next];
      logs := logs[id := (if id in logs then logs[id] else []) + [event]];
      return Ok(next);
    }

    /** One statement over every overdue row; the count is the number of rows it changed. */
    method ExpireOverdue(before: int, at: int) returns (count: nat, ok: bool)
      modifies this
      ensures (View(), ok) == ExpirePendingBefore(old(View()), before, at)
      ensures count == if ok then |OverdueIds(old(intents), before)| else 0
    {
      var ids := OverdueIds(intents, before);
      var todo := ids;
      while todo != {}
        invariant todo <= ids && View() == old(View())
        invariant forall id :: id in ids - todo ==> intents[id].createdAt <= at
        decreases todo
      {
        var id := Pick(todo);
        if at < intents[id].createdAt {
          assert id in intents && Overdue(intents[id], before) && at < intents[id].createdAt;
          return 0, false;
        }
        todo := todo - {id};
      }
      assert forall id :: id in intents && Overdue(intents[id], before) ==> id in ids - todo;
      intents := map id | id in intents :: if Overdue(intents[id], before) then Delivery.Expire(intents[id], at)
                                           else intents[id];
      return |ids|, true;
    }

    /** Only a running row is failed, and a completion before the creation is refused; no other row is touched. */
    method FailIfRunning(id: int, at: int) returns (ok: bool)
      requires Valid()
      modifies this
      ensures Valid() && StoreStep(old(View()), View())
      ensures View() == FailRunning(old(View()), id, at)
      ensures ok <==> !(id in old(intents) && old(intents)[id].state.Running? && at < old(intents)[id].createdAt)
      ensures intents.Keys == old(intents).Keys && logs == old(logs)
      ensures forall x :: x in intents ==>
                if x == id && ok && old(intents)[x].state.Running?
                then intents[x].state.Failed? && intents[x].completedAt == Some(at)
                  && intents[x].token == old(intents)[x].token
                else intents[x] == old(intents)[x]
    {
      FailStep(View(), id, at);
      hide StoreOk, StoreStep;
      if id in intents && intents[id].state.Running? {
        if at < intents[id].createdAt { return false; }
        intents := intents[id := intents[id].(state := Status.Failed, completedAt := Some(at))];
      }
      return true;
    }

    /** Every stale running row once, in some order. */
    method ListRunning(before: int) returns (ids: seq<int>)
      ensures forall id :: id in ids <==> id in intents && Stale(intents[id], before)
      ensures forall i, j :: 0 <= i < j < |ids| ==> ids[i] != ids[j]
    {
      ids := [];
      var todo := intents.Keys;
      while todo != {}
        invariant todo <= intents.Keys
        invariant forall id :: id in ids <==> id in intents && id !in todo && Stale(intents[id], before)
        invariant forall i, j :: 0 <= i < j < |ids| ==> ids[i] != ids[j]
        decreases todo
      {
        var id := Pick(todo);
        assert id !in ids;
        if Stale(intents[id], before) { ids := ids + [id]; }
        todo := todo - {id};
      }
    }
  }

  function OverdueIds(intents: map<int, Intent>, before: int): (r: set<int>) {
    set id | id in intents && Overdue(intents[id], before)
  }

  // ---- The service ------------------------------------------------------------------------------------------------

  const TwoTo63 := 0x8000_0000_0000_0000
  const TwoTo64 := 0x1_0000_0000_0000_0000
  const Second := 1_000_000_000

  /** A product of 64-bit numbers wraps around. */
  function Wrap(n: int): (r: int)
    ensures -TwoTo63 <= r < TwoTo63
    ensures -TwoTo63 <= n < TwoTo63 ==> r == n
  {
    (n + TwoTo63) % TwoTo64 - TwoTo63
  }

  function Lifetime(ttlSeconds: Option<int>, defaultTTL: int): (t: int) {
    if ttlSeconds.Some? then Wrap(ttlSeconds.value * Second) else defaultTTL
  }

  /** More seconds than 64 bits of nanoseconds hold, and yet the wrapped lifetime passes both checks. */
  lemma OverlongAccepted(defaultTTL: int, maxTTL: int)
    ensures var seconds := 18446744074;
            && seconds * Second > TwoTo64 && Lifetime(Some(seconds), defaultTTL) == 290448384
            && (0 < Lifetime(Some(seconds), defaultTTL) <= maxTTL <==> maxTTL >= 290448384)
  {
  }

  /**
    Exactly when a lifetime is refused: when the nanoseconds, counted from the last multiple of 2^64, are none or more
    than the maximum.  Below 2^63 nanoseconds that is when they exceed the maximum; beyond, a longer one may pass.
  */
  lemma LifetimeRefusedExactly(seconds: int, maxTTL: int)
    requires 0 < seconds && 0 < maxTTL < TwoTo63
    ensures var t := Lifetime(Some(seconds), maxTTL);
            && (!(0 < t <= maxTTL) <==> seconds * Second % TwoTo64 == 0 || seconds * Second % TwoTo64 > maxTTL)
            && (seconds * Second < TwoTo63 ==> (!(0 < t <= maxTTL) <==> seconds * Second > maxTTL))
  {
    WrapIsRemainder(seconds * Second);
  }

  lemma WrapIsRemainder(n: int)
    ensures Wrap(n) == if n % TwoTo64 < TwoTo63 then n % TwoTo64 else n % TwoTo64 - TwoTo64
  {
  }

  /** The fate of a row in an undisturbed sweep of the reaper. */
  function Reaped(i: Intent, now: int, pendingBefore: int, runningBefore: int, alive: map<string, bool>): (r: Intent) {
    if Overdue(i, pendingBefore) then Delivery.Expire(i, now)
    else if Stale(i, runningBefore) then Killed(i, now, alive)
    else i
  }

  function Killed(i: Intent, now: int, alive: map<string, bool>): (r: Intent) {
    if Dead(i, alive) then i.(state := Status.Failed, completedAt := Some(now)) else i
  }

  predicate Dead(i: Intent, alive: map<string, bool>) {
    i.claimedBy.None? || (i.claimedBy.value.instance in alive && !alive[i.claimedBy.value.instance])
  }

  function ReapedAll(m: map<int, Intent>, now: int, pendingBefore: int, runningBefore: int, alive: map<string, bool>)
    : (r: map<int, Intent>)
  {
    map id | id in m :: Reaped(m[id], now, pendingBefore, runningBefore, alive)
  }

  ghost predicate RunningRows(m: map<int, Intent>, ids: seq<int>) {
    && (forall i, j :: 0 <= i < j < |ids| ==> ids[i] != ids[j])
    && (forall i :: 0 <= i < |ids| ==> ids[i] in m && m[ids[i]].state.Running?)
  }

  /** The listed rows handled one after the other. */
  function Swept(m: map<int, Intent>, ids: seq<int>, now: int, alive: map<string, bool>): (r: map<int, Intent>)
    requires forall i :: 0 <= i < |ids| ==> ids[i] in m
    decreases |ids|
  {
    if ids == [] then m else Swept(m[ids[0] := Killed(m[ids[0]], now, alive)], ids[1..], now, alive)
  }

  lemma RowsLeft(m: map<int, Intent>, ids: seq<int>, now: int, alive: map<string, bool>)
    requires RunningRows(m, ids) && ids != []
    ensures RunningRows(m, ids[1..]) && RunningRows(m[ids[0] := Killed(m[ids[0]], now, alive)], ids[1..])
  {
  }

  lemma {:induction false} SweptRow(m: map<int, Intent>, ids: seq<int>, now: int, alive: map<string, bool>, id: int)
    requires RunningRows(m, ids) && id in m
    ensures var r := Swept(m, ids, now, alive);
            r.Keys == m.Keys && r[id] == if id in ids then Killed(m[id], now, alive) else m[id]
    decreases |ids|
  {
    hide Killed;
    if ids != [] {
      RowsLeft(m, ids, now, alive);
      var n := m[ids[0] := Killed(m[ids[0]], now, alive)];
      SweptRow(n, ids[1..], now, alive, id);
      assert id in ids <==> id == ids[0] || id in ids[1..];
      assert id == ids[0] ==> id !in ids[1..];
    }
  }

  lemma ListedRunning(m: map<int, Intent>, ids: seq<int>, before: int)
    requires forall id :: id in ids <==> id in m && Stale(m[id], before)
    requires forall i, j :: 0 <= i < j < |ids| ==> ids[i] != ids[j]
    ensures RunningRows(m, ids)
  {
    assert forall i :: 0 <= i < |ids| ==> ids[i] in ids;
  }

  /** Expiring, listing and failing one by one amounts to the fate of each row. */
  lemma SweepIsReaped(m: map<int, Intent>, middle: map<int, Intent>, ids: seq<int>, now: int, pendingBefore: int,
                      runningBefore: int, alive: map<string, bool>)
    requires middle == map id | id in m :: if Overdue(m[id], pendingBefore) then Delivery.Expire(m[id], now) else m[id]
    requires forall id :: id in ids <==> id in middle && Stale(middle[id], runningBefore)
    requires RunningRows(middle, ids)
    ensures Swept(middle, ids, now, alive) == ReapedAll(m, now, pendingBefore, runningBefore, alive)
  {
    var r, s := Swept(middle, ids, now, alive), ReapedAll(m, now, pendingBefore, runningBefore, alive);
    hide Swept;
    forall id | id in m ensures id in r && r[id] == s[id] { SweptRow(middle, ids, now, alive, id); }
    forall id | id in r ensures id in m {
      if ids != [] { SweptRow(middle, ids, now, alive, ids[0]); } else { NothingSwept(middle, now, alive); }
    }
    assert r.Keys == s.Keys;
  }

  lemma NothingSwept(m: map<int, Intent>, now: int, alive: map<string, bool>)
    ensures Swept(m, [], now, alive) == m
  {
  }

  /** The steps of one claim with no other client's step between them. */
  ghost function Undisturbed(s: Store, id: int, token: string, who: Identity, now: int, alive: Option<bool>)
    : (t: Store)
  {
    var steps := [StartClaim(0, id, token, who, now), Read(0), Answer(0, alive), Take(0), GiveUp(0)];
    Delivery.Run(System(s, map[]), steps).store
  }

  lemma UndisturbedIs(s: Store, id: int, token: string, who: Identity, now: int, alive: Option<bool>)
    ensures Undisturbed(s, id, token, who, now, alive) ==
            if token == "" || id !in s.intents || s.intents[id].target != who then s
            else if s.intents[id].state.Pending? && !(now < s.intents[id].expiresAt) then ExpireIfPending(s, id, now)
            else if alive.None? then s
            else if alive.value then ClaimPending(s, id, token, who, now).0
            else ExpireIfPending(s, id, now)
  {
    hide ClaimPending, ExpireIfPending;
    var a, b, c, d, e := StartClaim(0, id, token, who, now), Read(0), Answer(0, alive), Take(0), GiveUp(0);
    var y := System(s, map[]);
    FiveSteps(y, a, b, c, d, e);
    var y1 := Act(y, a);
    var y2 := Act(y1, b);
    var y3 := Act(y2, c);
    var y4 := Act(y3, d);
    if token == "" || id !in s.intents || s.intents[id].target != who {
      assert At(y1, 0).Idle? || At(y2, 0).Idle?;
      assert At(y2, 0).Idle? && At(y3, 0).Idle? && At(y4, 0).Idle?;
    } else if s.intents[id].state.Pending? && !(now < s.intents[id].expiresAt) {
      assert At(y2, 0) == GivingUp(id, now) && At(y4, 0) == GivingUp(id, now) && y4.store == s;
    } else {
      assert At(y2, 0).Checking? && y2.store == s;
      assert alive.None? ==> At(y3, 0).Idle? && y3.store == s && At(y4, 0).Idle?;
      assert alive == Some(true) ==> At(y3, 0).Taking? && y3.store == s && At(y4, 0).Idle?;
      assert alive == Some(false) ==> At(y4, 0) == GivingUp(id, now) && y4.store == s;
    }
  }

  lemma FiveSteps(y: System, a: Action, b: Action, c: Action, d: Action, e: Action)
    ensures Delivery.Run(y, [a, b, c, d, e]) == Act(Act(Act(Act(Act(y, a), b), c), d), e)
  {
    hide Act;
    var z := Act(Act(y, a), b);
    assert [a, b, c, d, e][1..] == [b, c, d, e] && [b, c, d, e][1..] == [c, d, e] && [c, d, e][1..] == [d, e];
    assert [d, e][1..] == [e] && [e][1..] == [];
    assert Delivery.Run(y, [a, b, c, d, e]) == Delivery.Run(z, [c, d, e]);
    assert Delivery.Run(z, [c, d, e]) == Delivery.Run(Act(Act(z, c), d), [e]);
  }

  /** What the runtime answers for the holder of a row. */
  function AnswerFor(i: Intent, alive: map<string, bool>): (a: Option<bool>) {
    if i.claimedBy.Some? && i.claimedBy.value.instance in alive then Some(alive[i.claimedBy.value.instance]) else None
  }

  /** The steps of a reaper over the rows it listed. */
  function VisitSteps(todo: seq<(int, Intent)>, alive: map<string, bool>): (r: seq<Action>) {
    if todo == [] then []
    else [Visit(0, AnswerFor(todo[0].1, alive)), Delivery.Kill(0)] + VisitSteps(todo[1..], alive)
  }

  function IdsOf(todo: seq<(int, Intent)>): (ids: seq<int>)
    ensures |ids| == |todo| && forall i :: 0 <= i < |ids| ==> ids[i] == todo[i].0
  {
    if todo == [] then [] else [todo[0].0] + IdsOf(todo[1..])
  }

  /** The runtime of the holder is known, and a failure now would not precede the creation. */
  predicate Decidable(i: Intent, now: int, alive: map<string, bool>) {
    && (i.claimedBy.None? || i.claimedBy.value.instance in alive)
    && (Dead(i, alive) ==> i.createdAt <= now)
  }

  /** What the reaper listed is what the table still holds. */
  ghost predicate Fresh(s: Store, todo: seq<(int, Intent)>, now: int, alive: map<string, bool>) {
    && (forall i :: 0 <= i < |todo| ==>
          && todo[i].0 in s.intents && s.intents[todo[i].0] == todo[i].1 && todo[i].1.state.Running?
          && Decidable(todo[i].1, now, alive))
    && (forall i, j :: 0 <= i < j < |todo| ==> todo[i].0 != todo[j].0)
  }

  lemma VisitOne(y: System, now: int, todo: seq<(int, Intent)>, alive: map<string, bool>)
    requires At(y, 0) == Reaping(now, todo) && todo != [] && Fresh(y.store, todo, now, alive)
    ensures var z := Act(Act(y, Visit(0, AnswerFor(todo[0].1, alive))), Delivery.Kill(0));
            && At(z, 0) == Reaping(now, todo[1..])
            && z.store.intents == y.store.intents[todo[0].0 := Killed(todo[0].1, now, alive)]
            && Fresh(z.store, todo[1..], now, alive)
  {
    var row := todo[0].1;
    var y1 := Act(y, Visit(0, AnswerFor(row, alive)));
    if Dead(row, alive) {
      assert At(y1, 0) == Killing(now, todo[0].0, todo[1..]) && y1.store == y.store;
    } else {
      assert At(y1, 0) == Reaping(now, todo[1..]) && y1.store == y.store;
    }
  }

  lemma {:induction false} VisitAll(y: System, now: int, todo: seq<(int, Intent)>, alive: map<string, bool>)
    requires At(y, 0) == Reaping(now, todo) && Fresh(y.store, todo, now, alive)
    ensures Delivery.Run(y, VisitSteps(todo, alive)).store.intents == Swept(y.store.intents, IdsOf(todo), now, alive)
    decreases |todo|
  {
    hide Act, Killed, AnswerFor, Fresh;
    if todo != [] {
      var a, b, rest := Visit(0, AnswerFor(todo[0].1, alive)), Delivery.Kill(0), VisitSteps(todo[1..], alive);
      var z := Act(Act(y, a), b);
      VisitOne(y, now, todo, alive);
      FreshRow(y.store, todo, now, alive);
      TwoSteps(y, a, b, rest);
      VisitAll(z, now, todo[1..], alive);
      assert IdsOf(todo)[1..] == IdsOf(todo[1..]);
    }
  }

  lemma FreshRow(s: Store, todo: seq<(int, Intent)>, now: int, alive: map<string, bool>)
    requires Fresh(s, todo, now, alive) && todo != []
    ensures todo[0].0 in s.intents && s.intents[todo[0].0] == todo[0].1
    ensures forall i :: 0 <= i < |todo| ==> todo[i].0 in s.intents
  {
  }

  lemma TwoSteps(y: System, a: Action, b: Action, rest: seq<Action>)
    ensures Delivery.Run(y, [a, b] + rest) == Delivery.Run(Act(Act(y, a), b), rest)
  {
    hide Act;
    assert ([a, b] + rest)[1..] == [b] + rest && ([b] + rest)[1..] == rest;
  }

  lemma {:induction false} ListedAll(s: Store, before: int, order: seq<int>)
    requires forall i :: 0 <= i < |order| ==> order[i] in s.intents && Stale(s.intents[order[i]], before)
    ensures var todo := Listed(s, before, order);
            IdsOf(todo) == order && forall i :: 0 <= i < |todo| ==> todo[i].1 == s.intents[order[i]]
    decreases |order|
  {
    if order != [] { ListedAll(s, before, order[1..]); }
  }

  /** The rows a reaper lists after it expired the overdue ones, each once; what it learns decides each of them. */
  ghost predicate Lists(t: Store, order: seq<int>, now: int, before: int, alive: map<string, bool>) {
    && (forall id :: id in order <==> id in t.intents && Stale(t.intents[id], before))
    && (forall i, j :: 0 <= i < j < |order| ==> order[i] != order[j])
    && (forall id :: id in order ==> Decidable(t.intents[id], now, alive))
  }

  lemma ListsRows(t: Store, order: seq<int>, now: int, before: int, alive: map<string, bool>)
    requires Lists(t, order, now, before, alive)
    ensures RunningRows(t.intents, order)
    ensures forall i :: 0 <= i < |order| ==>
              && order[i] in t.intents && Stale(t.intents[order[i]], before)
              && Decidable(t.intents[order[i]], now, alive)
  {
    hide Decidable;
    assert forall i :: 0 <= i < |order| ==> order[i] in order;
    ListedRunning(t.intents, order, before);
  }

  lemma ListsFresh(t: Store, order: seq<int>, now: int, before: int, alive: map<string, bool>)
    requires Lists(t, order, now, before, alive)
    ensures var todo := Listed(t, before, order); Fresh(t, todo, now, alive) && IdsOf(todo) == order
    ensures RunningRows(t.intents, order)
  {
    ListsRows(t, order, now, before, alive);
    hide Decidable, Lists;
    ListedAll(t, before, order);
    hide Listed;
  }

  lemma ReaperListed(s: Store, order: seq<int>, now: int, pendingBefore: int, runningBefore: int)
    requires ExpirePendingBefore(s, pendingBefore, now).1
    ensures var t := ExpirePendingBefore(s, pendingBefore, now).0;
            var z := Act(Act(System(s, map[]), StartReap(0, pendingBefore, now)),
              Delivery.List(0, runningBefore, order));
            At(z, 0) == Reaping(now, Listed(t, runningBefore, order)) && z.store == t
  {
    var y1 := Act(System(s, map[]), StartReap(0, pendingBefore, now));
    assert At(y1, 0) == Listing(now);
    hide ExpirePendingBefore, Listed;
  }

  /** A sweep that no other client interrupts gives every row the fate of `Reaped`, whatever order the rows come in. */
  lemma UndisturbedSweep(s: Store, order: seq<int>, now: int, pendingBefore: int, runningBefore: int,
                         alive: map<string, bool>)
    requires var (t, ok) := ExpirePendingBefore(s, pendingBefore, now); ok && Lists(t, order, now, runningBefore, alive)
    ensures var todo := Listed(ExpirePendingBefore(s, pendingBefore, now).0, runningBefore, order);
            Delivery.Run(System(s, map[]), [StartReap(0, pendingBefore, now), Delivery.List(0, runningBefore, order)]
                                           + VisitSteps(todo, alive)).store.intents
            == ReapedAll(s.intents, now, pendingBefore, runningBefore, alive)
  {
    hide Act, Delivery.Run, Swept, ReapedAll, Listed, Fresh, Stale, Overdue, Decidable;
    var t := ExpirePendingBefore(s, pendingBefore, now).0;
    var todo := Listed(t, runningBefore, order);
    ListsFresh(t, order, now, runningBefore, alive);
    var a, b := StartReap(0, pendingBefore, now), Delivery.List(0, runningBefore, order);
    var y := System(s, map[]);
    TwoSteps(y, a, b, VisitSteps(todo, alive));
    ReaperListed(s, order, now, pendingBefore, runningBefore);
    VisitAll(Act(Act(y, a), b), now, todo, alive);
    SweepIsReaped(s.intents, t.intents, order, now, pendingBefore, runningBefore, alive);
  }

  class IntentService {
    const store: IntentStore
    const defaultTTL: int
    const maxTTL: int
    const pendingTTL: int
    const runningTTL: int

    constructor (store: IntentStore, defaultTTL: int, maxTTL: int, pendingTTL: int, runningTTL: int)
      requires 0 < defaultTTL <= maxTTL && 0 < pendingTTL && 0 < runningTTL
      ensures this.store == store && this.pendingTTL == pendingTTL && this.runningTTL == runningTTL
      ensures this.defaultTTL == defaultTTL && this.maxTTL == maxTTL
    {
      this.store := store;
      this.defaultTTL, this.maxTTL, this.pendingTTL, this.runningTTL := defaultTTL, maxTTL, pendingTTL, runningTTL;
    }

    /**
      The lifetime asked for in seconds wraps around as a 64-bit duration before it is checked; `valid` says whether the
      target and the form of the key passed the shared checks.
    */
    method CreateIntent(target: Identity, key: string, valid: bool, ttlSeconds: Option<int>, now: int)
      returns (r: Result<int, Error>)
      requires store.Valid() && defaultTTL <= maxTTL
      modifies store
      ensures store.Valid() && StoreStep(old(store.View()), store.View())
      ensures r.Ok? <==>
                && valid && key != "" && (ttlSeconds.Some? ==> ttlSeconds.value > 0)
                && 0 < Lifetime(ttlSeconds, defaultTTL) <= maxTTL
      ensures r.Err? ==> store.View() == old(store.View())
      ensures r.Ok? ==> HoldsKey(store.View(), key, r.value)
      ensures r.Ok? && KeyTaken(old(store.View()), key) ==> store.View() == old(store.View())
      ensures r.Ok? && r.value !in old(store.intents) ==>
                var i := store.intents[r.value];
                && i.createdAt == now && i.expiresAt == now + Lifetime(ttlSeconds, defaultTTL) && i.target == target
                && i.state.Pending?
    {
      SameStore(store.View());
      hide StoreOk, StoreStep;
      if !valid || (ttlSeconds.Some? && ttlSeconds.value <= 0) { return Err(InvalidIntent); }
      var ttl := defaultTTL;
      if ttlSeconds.Some? { ttl := Wrap(ttlSeconds.value * Second); }
      if ttl > maxTTL { return Err(InvalidIntent); }
      var made := NewIntent(target, key, ttl, now);
      if made.Err? { return Err(made.error); }
      CreateStep(store.View(), made.value);
      var id := store.Insert(made.value);
      return Ok(id);
    }

    /** Read, check the target, check the expiry, check the runtime, then claim if still pending. */
    method Claim(id: int, token: string, who: Identity, now: int, alive: Option<bool>)
      returns (r: Result<Intent, Error>)
      requires store.Valid()
      modifies store
      ensures store.Valid() && StoreStep(old(store.View()), store.View())
      ensures store.View() == Undisturbed(old(store.View()), id, token, who, now, alive)
      ensures r.Ok? <==>
                && token != "" && id in old(store.intents) && old(store.intents)[id].state.Pending?
                && old(store.intents)[id].target == who && now < old(store.intents)[id].expiresAt
                && alive == Some(true) && !TokenTaken(old(store.View()), token, id)
      ensures r.Ok? ==> id in store.intents && store.intents[id] == r.value && RightlyClaimed(r.value)
                        && r.value.token == Some(token) && r.value.claimedBy == Some(who) && r.value.state.Claimed?
      ensures r.Err? && r.error.ExpiredIntent? ==>
                id in store.intents && (store.intents[id].state.Pending? ==> now < store.intents[id].createdAt)
    {
      SameStore(store.View());
      UndisturbedIs(store.View(), id, token, who, now, alive);
      if token == "" { return Err(InvalidIntent); }
      if id !in store.intents { return Err(NotFound); }
      var seen := store.intents[id];
      if seen.target != who { return Err(TargetMismatch); }
      ExpireStep(store.View(), id, now);
      if seen.state.Pending? && !(now < seen.expiresAt) {
        store.Expire(id, now);
        return Err(ExpiredIntent);
      }
      if alive.None? { return Err(NotFound); }
      if !alive.value {
        store.Expire(id, now);
        return Err(RuntimeNotAlive);
      }
      ClaimStep(store.View(), id, token, who, now, seen);
      r := store.ClaimIfPending(id, token, who, now);
      hide StoreOk, StoreStep;
    }

    /** Fail the listed rows whose runtime is dead; an unknown runtime or a refused update stops the sweep. */
    method FailListed(ids: seq<int>, now: int, alive: map<string, bool>) returns (failed: nat, ok: bool)
      requires store.Valid()
      requires RunningRows(store.intents, ids)
      modifies store
      ensures store.Valid() && store.logs == old(store.logs)
      ensures ok ==> store.intents == Swept(old(store.intents), ids, now, alive)
    {
      failed, ok := 0, true;
      var i := 0;
      while i < |ids|
        invariant 0 <= i <= |ids| && ok && store.Valid() && store.logs == old(store.logs)
        invariant RunningRows(store.intents, ids[i..])
        invariant Swept(old(store.intents), ids, now, alive) == Swept(store.intents, ids[i..], now, alive)
      {
        hide StoreOk, Killed, Dead;
        assert ids[i..][0] == ids[i] && ids[i..][1..] == ids[i + 1..];
        RowsLeft(store.intents, ids[i..], now, alive);
        var killed;
        killed, ok := FailOne(ids[i], now, alive);
        if !ok { return; }
        if killed { failed := failed + 1; }
        i := i + 1;
      }
    }

    /** One listed row: skip it if its runtime is alive, otherwise fail it. */
    method FailOne(id: int, now: int, alive: map<string, bool>) returns (killed: bool, ok: bool)
      requires store.Valid() && id in store.intents && store.intents[id].state.Running?
      modifies store
      ensures store.Valid() && store.logs == old(store.logs)
      ensures !ok ==> store.intents == old(store.intents)
      ensures ok ==> store.intents == old(store.intents)[id := Killed(old(store.intents)[id], now, alive)]
      ensures ok ==> killed == Dead(old(store.intents)[id], alive)
    {
      var intent := store.intents[id];
      if intent.claimedBy.Some? {
        var instance := intent.claimedBy.value.instance;
        if instance !in alive { return false, false; }
        if alive[instance] { return false, true; }
      }
      FailStep(store.View(), id, now);
      hide StoreOk, StoreStep;
      ok := store.FailIfRunning(id, now);
      killed := ok;
    }

    /** One sweep with nobody interfering: every overdue row expires, every stale row of a dead runtime fails. */
    method Reap(now: int, alive: map<string, bool>) returns (expired: nat, failed: nat, ok: bool)
      requires store.Valid()
      modifies store
      ensures store.Valid() && store.logs == old(store.logs)
      ensures ok ==> store.intents == ReapedAll(old(store.intents), now, now - pendingTTL, now - runningTTL, alive)
      ensures ok ==> expired == |OverdueIds(old(store.intents), now - pendingTTL)|
    {
      hide StoreOk, StoreStep, Overdue, Stale, Reaped, Killed, RunningRows, Swept, ReapedAll;
      ExpireAllStep(store.View(), now - pendingTTL, now);
      expired, ok := store.ExpireOverdue(now - pendingTTL, now);
      failed := 0;
      if ok {
        ghost var middle := store.intents;
        var ids := store.ListRunning(now - runningTTL);
        ListedRunning(middle, ids, now - runningTTL);
        failed, ok := FailListed(ids, now, alive);
        if ok { SweepIsReaped(old(store.intents), middle, ids, now, now - pendingTTL, now - runningTTL, alive); }
      }
    }
  }
}
