/**
  The collector as an object: the loops of `Replay` (cmd/den-tool/ops.go) and of `deliverOpsWrites` and
  `collectOpsEvidence` (cmd/den-tool/ops_collect.go), proved against module Ops.
*/
module OpsCollector {
  import opened Core
  import opened Ops
  import opened Text

  /** File names start with the time of the collection, filled with zeros, and go on with the slug. */
  predicate Before(m: Name, n: Name) {
    m.at < n.at || (m.at == n.at && StringBefore(m.slug + ".json", n.slug + ".json"))
  }

  lemma BeforeTotal(m: Name, n: Name)
    ensures m == n || Before(m, n) || Before(n, m)
    ensures !(Before(m, n) && Before(n, m)) && !Before(m, m)
  {
    StringTotal(m.slug + ".json", n.slug + ".json");
    StringTotal(m.slug + ".json", m.slug + ".json");
    if m.slug + ".json" == n.slug + ".json" { assert m.slug == (m.slug + ".json")[..|m.slug|] == n.slug; }
  }

  lemma BeforeTransitive(a: Name, b: Name, c: Name)
    requires Before(a, b) && Before(b, c)
    ensures Before(a, c)
  {
    if a.at == b.at == c.at { StringTransitive(a.slug + ".json", b.slug + ".json", c.slug + ".json"); }
  }

  ghost predicate InOrder(order: seq<Name>) {
    forall i, j :: 0 <= i < j < |order| ==> Before(order[i], order[j])
  }

  /** `pending`: every file once, sorted by name. */
  method Pending(spool: map<Name, Entry>) returns (order: seq<Name>)
    ensures IsListing(spool, order) && InOrder(order)
  {
    order := [];
    var todo := spool.Keys;
    while todo != {}
      invariant todo <= spool.Keys
      invariant forall n :: n in order <==> n in spool && n !in todo
      invariant InOrder(order)
      decreases todo
    {
      hide InOrder, Before;
      var n := Pick(todo);
      todo := todo - {n};
      assert n !in order;
      var k := Place(order, n);
      Inserted(order, k, n);
      order := order[..k] + [n] + order[k..];
    }
    SortedListing(order);
  }

  /** Where a file belongs. */
  method Place(order: seq<Name>, n: Name) returns (k: nat)
    requires InOrder(order) && n !in order
    ensures k <= |order| && (forall j :: 0 <= j < k ==> Before(order[j], n))
    ensures forall j :: k <= j < |order| ==> Before(n, order[j])
  {
    k := 0;
    while k < |order| && Before(order[k], n)
      invariant 0 <= k <= |order|
      invariant forall j :: 0 <= j < k ==> Before(order[j], n)
    {
      k := k + 1;
    }
    forall j | k <= j < |order| ensures Before(n, order[j]) {
      BeforeTotal(order[k], n);
      if k < j { BeforeTransitive(n, order[k], order[j]); }
    }
  }

  lemma SortedListing(order: seq<Name>)
    requires InOrder(order)
    ensures forall i, j :: 0 <= i < j < |order| ==> order[i] != order[j] && order[i].at <= order[j].at
  {
    forall i, j | 0 <= i < j < |order| ensures order[i] != order[j] && order[i].at <= order[j].at {
      assert Before(order[i], order[j]);
      BeforeTotal(order[i], order[i]);
    }
  }

  lemma Inserted(order: seq<Name>, k: nat, n: Name)
    requires InOrder(order) && k <= |order| && forall j :: 0 <= j < k ==> Before(order[j], n)
    requires forall j :: k <= j < |order| ==> Before(n, order[j])
    ensures var next := order[..k] + [n] + order[k..];
            InOrder(next) && forall m :: m in next <==> m in order || m == n
  {
    hide Before;
    var next := order[..k] + [n] + order[k..];
    forall m ensures m in next <==> m in order || m == n {
      assert order == order[..k] + order[k..];
      assert next[k] == n;
    }
    forall i, j | 0 <= i < j < |next| ensures Before(next[i], next[j]) {
      assert next[i] == (if i < k then order[i] else if i == k then n else order[i - 1]);
      assert next[j] == (if j < k then order[j] else if j == k then n else order[j - 1]);
    }
  }

  method Waiting(spool: map<Name, Entry>, path: string) returns (b: bool)
    ensures b == HasEntry(spool, path)
  {
    var todo := spool.Keys;
    while todo != {}
      invariant todo <= spool.Keys
      invariant forall n :: n in spool && spool[n].path == path ==> n in todo
      decreases todo
    {
      var n := Pick(todo);
      if spool[n].path == path { return true; }
      todo := todo - {n};
    }
    return false;
  }

  lemma LeftToReplay(order: seq<Name>, k: nat)
    requires k < |order| && forall i, j :: 0 <= i < j < |order| ==> order[i] != order[j]
    ensures order[k..][0] == order[k] && order[k..][1..] == order[k + 1..]
    ensures forall i :: k + 1 <= i < |order| ==> order[i] != order[k]
  {
  }

  lemma ReplayUnfolds(w: World, order: seq<Name>, k: nat, replies: seq<Reply>)
    requires k < |order| && forall i, j :: 0 <= i < j < |order| ==> order[i] != order[j]
    requires forall i :: k <= i < |order| ==> order[i] in w.spool
    ensures var (v, stop) := ReplayOne(w, order[k], NextReply(replies));
            && (stop ==> Ops.Replay(w, order[k..], replies) == (v, Rest(replies), true))
            && (!stop ==> (forall i :: k + 1 <= i < |order| ==> order[i] in v.spool)
                          && Ops.Replay(w, order[k..], replies) == Ops.Replay(v, order[k + 1..], Rest(replies)))
  {
    LeftToReplay(order, k);
    hide ReplayOne;
  }

  lemma NothingLeft(w: World, order: seq<Name>, replies: seq<Reply>)
    ensures order[|order|..] == [] && Ops.Replay(w, [], replies) == (w, replies, false)
  {
  }

  lemma OneWrite(d: Delivery, write: Write, now: int)
    ensures var r := DeliverOne(d, write, now);
            && (d.offline ==> r.offline && r.w.server == d.w.server && r.replies == d.replies)
            && (forall p :: p != write.path ==>
                  (p in r.w.cache <==> p in d.w.cache) && (p in r.w.cache ==> r.w.cache[p] == d.w.cache[p]))
            && (r.sum.delivered + r.sum.spooled > d.sum.delivered + d.sum.spooled ==>
                  write.path in r.w.cache && r.w.cache[write.path] == Cached(Digest(write.body), now))
  {
  }

  class Collector {
    var w: World
    var replies: seq<Reply>

    constructor (w: World, replies: seq<Reply>)
      ensures this.w == w && this.replies == replies
    {
      this.w, this.replies := w, replies;
    }

    /** One PUT: the server may take the body even when the answer is lost. */
    method Do(path: string, body: Body) returns (reply: Reply)
      modifies this
      ensures w == old(w).(server := Put(old(w).server, path, body, NextReply(old(replies))))
      ensures replies == Rest(old(replies)) && reply == Answer(body, NextReply(old(replies)))
    {
      var next := NextReply(replies);
      w := w.(server := Put(w.server, path, body, next));
      replies := Rest(replies);
      reply := Answer(body, next);
    }

    /** Send the spooled files oldest first; stop at the first failure that is not a rejection. */
    method Replay(order: seq<Name>) returns (offline: bool)
      requires IsListing(w.spool, order)
      requires forall i :: 0 <= i < |order| ==> order[i] in w.spool
      modifies this
      ensures (w, replies, offline) == Ops.Replay(old(w), order, old(replies))
    {
      var k := 0;
      while k < |order|
        invariant 0 <= k <= |order|
        invariant forall i :: k <= i < |order| ==> order[i] in w.spool
        invariant Ops.Replay(old(w), order, old(replies)) == Ops.Replay(w, order[k..], replies)
      {
        hide ReplayOne, Rest, NextReply, IsListing, Ops.Replay;
        LeftToReplay(order, k);
        ReplayUnfolds(w, order, k, replies);
        var stop := SendFile(order[k]);
        if stop { return true; }
        k := k + 1;
      }
      NothingLeft(w, order, replies);
      return false;
    }

    method SendFile(name: Name) returns (stop: bool)
      requires name in w.spool
      modifies this
      ensures (w, stop) == ReplayOne(old(w), name, NextReply(old(replies))) && replies == Rest(old(replies))
    {
      hide HasEntry;
      var e := w.spool[name];
      var reply := Do(e.path, e.body);
      match reply {
        case Accepted =>
          w := w.(spool := w.spool - {name});
        case Rejected =>
          w := w.(spool := w.spool - {name});
          var waiting := Waiting(w.spool, e.path);
          if !waiting { w := w.(refused := w.refused + {e.path}); }
        case Unreachable(_) =>
      }
      stop := reply.Unreachable?;
    }

    /** Replay the spool, then send what changed; once Ops is unreachable the rest goes straight to the spool. */
    method DeliverOpsWrites(writes: seq<Write>, now: int) returns (sum: Summary, ghost order: seq<Name>)
      modifies this
      ensures IsListing(old(w).spool, order)
      ensures forall i :: 0 <= i < |order| ==> order[i] in old(w).spool
      ensures var (replayed, rest, offline) := Ops.Replay(old(w), order, old(replies));
              var d := DeliverAll(Delivery(replayed, rest, offline, Summary(|writes|, 0, 0, 0, 0, 0)), writes, now);
              w == d.w && replies == d.replies && sum == d.sum
      ensures Handled(sum) == sum.writes == |writes|
    {
      var listing := Pending(w.spool);
      order := listing;
      assert forall i :: 0 <= i < |listing| ==> listing[i] in listing;
      var offline := Replay(listing);
      sum := Summary(|writes|, 0, 0, 0, 0, 0);
      ghost var start := Delivery(w, replies, offline, sum);
      EveryWriteCounted(start, writes, now);
      hide Ops.Replay, IsListing;
      var i := 0;
      while i < |writes|
        invariant 0 <= i <= |writes|
        invariant DeliverAll(start, writes, now) == DeliverAll(Delivery(w, replies, offline, sum), writes[i..], now)
      {
        assert writes[i..][0] == writes[i] && writes[i..][1..] == writes[i + 1..];
        offline, sum := DeliverWrite(writes[i], now, offline, sum);
        i := i + 1;
      }
    }

    /**
      One write is counted once; it touches no other path's cached value, sends nothing once Ops is unreachable, and
      keeps cache, spool and server in agreement.
    */
    method DeliverWrite(write: Write, now: int, offline0: bool, sum0: Summary) returns (offline: bool, sum: Summary)
      modifies this
      ensures Delivery(w, replies, offline, sum)
              == DeliverOne(Delivery(old(w), old(replies), offline0, sum0), write, now)
      ensures Handled(sum) == Handled(sum0) + 1 && sum.writes == sum0.writes
      ensures offline0 ==> offline && w.server == old(w).server && replies == old(replies)
      ensures forall p :: p != write.path ==>
                (p in w.cache <==> p in old(w).cache) && (p in w.cache ==> w.cache[p] == old(w).cache[p])
      ensures sum.delivered + sum.spooled > sum0.delivered + sum0.spooled ==>
                write.path in w.cache && w.cache[write.path] == Cached(Digest(write.body), now)
      ensures forall paths ::
                (Ready(Delivery(old(w), old(replies), offline0, sum0), paths, now) && SlugDistinct(paths)
                 && write.path in paths) ==> Ready(Delivery(w, replies, offline, sum), paths, now)
    {
      ghost var d := Delivery(w, replies, offline0, sum0);
      OneCounted(d, write, now);
      OneWrite(d, write, now);
      forall paths | Ready(d, paths, now) && SlugDistinct(paths) && write.path in paths
        ensures Ready(DeliverOne(d, write, now), paths, now)
      {
        DeliverOneKeeps(d, paths, now, write);
      }
      hide Ready, SlugDistinct, Handled;
      offline, sum := offline0, sum0;
      if !write.always && write.path in w.cache && w.cache[write.path].hash == Digest(write.body) {
        sum := sum.(same := sum.same + 1);
        w := MarkDone(w, write.done, now);
        return;
      }
      if !offline {
        var reply := Do(write.path, write.body);
        match reply {
          case Accepted =>
            sum := sum.(delivered := sum.delivered + 1);
            w := Record(w, write, now);
            return;
          case Rejected =>
            sum := sum.(rejected := sum.rejected + 1);
            return;
          case Unreachable(_) => offline := true;
        }
      }
      var spool := Add(w.spool, write.path, write.body, now);
      if spool.None? {
        sum := sum.(failed := sum.failed + 1);
        return;
      }
      sum := sum.(spooled := sum.spooled + 1);
      w := Record(w.(spool := spool.value), write, now);
    }
  }

  // ---- Gathering the writes ---------------------------------------------------------------------------------------

  /** A registration replaces an earlier one of the same path where it stands, or goes to the end. */
  function Register(writes: seq<Write>, write: Write): (r: seq<Write>)
    decreases |writes|
  {
    if writes == [] then [write]
    else if writes[0].path == write.path then [write] + writes[1..]
    else [writes[0]] + Register(writes[1..], write)
  }

  /** `collected` is tagged: is the write a derived registration? */
  function Gather(writes: seq<Write>, evidence: seq<Write>, collected: seq<(Write, bool)>)
    : (r: (seq<Write>, seq<Write>))
    decreases |collected|
  {
    if collected == [] then (writes, evidence)
    else if collected[0].1 then Gather(Register(writes, collected[0].0.(always := true)), evidence, collected[1..])
    else Gather(writes, evidence + [collected[0].0], collected[1..])
  }

  ghost predicate DistinctPaths(writes: seq<Write>) {
    forall i, j :: 0 <= i < j < |writes| ==> writes[i].path != writes[j].path
  }

  /** Positions and the other registrations stay, and the path now carries the new body. */
  lemma {:induction false} RegisterKeeps(writes: seq<Write>, write: Write)
    requires DistinctPaths(writes)
    ensures var r := Register(writes, write);
            && DistinctPaths(r) && |writes| <= |r| <= |writes| + 1 && write in r
            && (forall i :: 0 <= i < |writes| ==> r[i].path == writes[i].path)
            && (forall i :: 0 <= i < |writes| && writes[i].path != write.path ==> r[i] == writes[i])
            && (|r| == |writes| + 1 ==>
                  r[|writes|] == write && forall i :: 0 <= i < |writes| ==> writes[i].path != write.path)
    decreases |writes|
  {
    if writes != [] && writes[0].path != write.path {
      var tail := writes[1..];
      assert forall i :: 0 <= i < |tail| ==> tail[i] == writes[i + 1];
      RegisterKeeps(tail, write);
      var r, s := Register(tail, write), Register(writes, write);
      assert s == [writes[0]] + r;
      hide Register;
      assert forall i :: 0 < i < |s| ==> s[i] == r[i - 1];
      forall j | 0 < j < |s| ensures s[0].path != s[j].path {
        if j < |writes| { assert r[j - 1].path == tail[j - 1].path == writes[j].path; }
      }
      assert write in s by { var k :| 0 <= k < |r| && r[k] == write; assert s[k + 1] == write; }
    }
  }

  ghost predicate AllAlways(writes: seq<Write>) {
    forall i :: 0 <= i < |writes| ==> writes[i].always
  }

  /** Each path is registered once, every registration is always sent, and the evidence keeps its order. */
  lemma {:induction false} GatherKeeps(writes: seq<Write>, evidence: seq<Write>, collected: seq<(Write, bool)>)
    requires DistinctPaths(writes) && AllAlways(writes)
    ensures var (ws, es) := Gather(writes, evidence, collected);
            && DistinctPaths(ws) && AllAlways(ws) && |writes| <= |ws| && evidence <= es
            && (forall i :: 0 <= i < |writes| ==> ws[i].path == writes[i].path)
    decreases |collected|
  {
    if collected != [] {
      if collected[0].1 {
        var write := collected[0].0.(always := true);
        RegisterKeeps(writes, write);
        RegisterAlways(writes, write);
        hide DistinctPaths, AllAlways;
        GatherKeeps(Register(writes, write), evidence, collected[1..]);
      } else {
        GatherKeeps(writes, evidence + [collected[0].0], collected[1..]);
      }
    }
  }

  lemma {:induction false} RegisterAlways(writes: seq<Write>, write: Write)
    requires AllAlways(writes) && write.always
    ensures AllAlways(Register(writes, write))
    decreases |writes|
  {
    if writes != [] && writes[0].path != write.path { RegisterAlways(writes[1..], write); }
  }

  /** The slice is edited in place: found by index, replaced or appended. */
  method CollectEvidence(configured: seq<Write>, collected: seq<(Write, bool)>) returns (all: seq<Write>)
    requires DistinctPaths(configured) && AllAlways(configured)
    ensures var (ws, es) := Gather(configured, [], collected);
            all == ws + es && DistinctPaths(ws) && AllAlways(ws)
  {
    GatherKeeps(configured, [], collected);
    var writes, evidence := configured, [];
    var i := 0;
    while i < |collected|
      invariant 0 <= i <= |collected|
      invariant Gather(configured, [], collected) == Gather(writes, evidence, collected[i..])
    {
      assert collected[i..][0] == collected[i] && collected[i..][1..] == collected[i + 1..];
      var (write, registration) := collected[i];
      if registration {
        write := write.(always := true);
        var index := IndexOfPath(writes, write.path);
        RegisterAt(writes, write, index);
        if index < |writes| {
          writes := writes[index := write];
        } else {
          writes := writes + [write];
        }
      } else {
        evidence := evidence + [write];
      }
      i := i + 1;
    }
    all := writes + evidence;
  }

  method IndexOfPath(writes: seq<Write>, path: string) returns (k: nat)
    ensures k <= |writes| && forall i :: 0 <= i < k ==> writes[i].path != path
    ensures k < |writes| ==> writes[k].path == path
  {
    k := 0;
    while k < |writes| && writes[k].path != path
      invariant 0 <= k <= |writes| && forall i :: 0 <= i < k ==> writes[i].path != path
    {
      k := k + 1;
    }
  }

  lemma {:induction false} RegisterAt(writes: seq<Write>, write: Write, k: nat)
    requires k <= |writes| && forall i :: 0 <= i < k ==> writes[i].path != write.path
    requires k < |writes| ==> writes[k].path == write.path
    ensures Register(writes, write) == if k < |writes| then writes[k := write] else writes + [write]
    decreases |writes|
  {
    if writes != [] {
      if k == 0 {
        assert writes[0 := write] == [write] + writes[1..];
      } else {
        RegisterAt(writes[1..], write, k - 1);
        assert writes == [writes[0]] + writes[1..];
      }
    }
  }
}
