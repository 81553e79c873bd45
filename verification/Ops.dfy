/**
  Delivery of operations reports: cmd/den-tool/ops_collect.go over the spool of cmd/den-tool/ops.go.

  Three stores: what the server holds, the spool directory, and the cache of what was already sent.  A file of the
  spool is named by the time of its collection and a slug of its path; a directory listing is sorted by that time.
  The answers of the server are an arbitrary script.  The hash of a body is modelled by the body itself under a
  constructor.
*/
module Ops {
  import opened Core

  // ---- Data -------------------------------------------------------------------------------------------------------

  datatype Body = Json(text: string) | NotJson(text: string)

  datatype Digest = Digest(of: Body)

  datatype Name = Name(at: int, slug: string)

  datatype Entry = Entry(path: string, body: Body)

  datatype Cached = Cached(hash: Digest, at: int)

  /** `refused` is history: paths whose newest spooled body was rejected on replay and not sent again since. */
  datatype World = World(server: map<string, Body>, spool: map<Name, Entry>, cache: map<string, Cached>,
                         done: map<string, int>, refused: set<string>)

  datatype Write = Write(path: string, body: Body, done: string, always: bool)

  /** What a request meets.  A lost answer hides whether the server took the body. */
  datatype Reply = Accepted | Rejected | Unreachable(applied: bool)

  datatype Summary = Summary(writes: nat, delivered: nat, spooled: nat, same: nat, rejected: nat, failed: nat)

  // ---- Slugs ------------------------------------------------------------------------------------------------------

  predicate SlugChar(c: char) {
    'a' <= c <= 'z' || 'A' <= c <= 'Z' || '0' <= c <= '9' || c == '-' || c == '.'
  }

  function SlugText(s: string): (r: string)
    ensures |r| == |s| && forall i :: 0 <= i < |r| ==> r[i] == if SlugChar(s[i]) then s[i] else '_'
  {
    if s == "" then "" else [if SlugChar(s[0]) then s[0] else '_'] + SlugText(s[1..])
  }

  function TrimPrefix(s: string, prefix: string): (r: string) {
    if prefix <= s then s[|prefix|..] else s
  }

  /** `spoolSlug`: lossy, and cut at 120 characters. */
  function Slug(path: string): (r: string)
    ensures |r| <= 120
  {
    var slug := SlugText(TrimPrefix(path, "/v1/ops/"));
    if |slug| > 120 then slug[..120] else slug
  }

  /** No two of these paths share a slug. */
  ghost predicate SlugDistinct(paths: set<string>) {
    forall p, q :: p in paths && q in paths && Slug(p) == Slug(q) ==> p == q
  }

  // ---- Calls ------------------------------------------------------------------------------------------------------

  /** The server takes only JSON. */
  function Put(server: map<string, Body>, path: string, body: Body, reply: Reply): (r: map<string, Body>) {
    if body.NotJson? || reply.Rejected? || reply == Unreachable(false) then server else server[path := body]
  }

  function NextReply(replies: seq<Reply>): (r: Reply) {
    if replies == [] then Unreachable(false) else replies[0]
  }

  function Rest(replies: seq<Reply>): (r: seq<Reply>) {
    if replies == [] then [] else replies[1..]
  }

  /** What the client makes of the reply. */
  function Answer(body: Body, reply: Reply): (r: Reply) {
    if reply.Accepted? && body.NotJson? then Rejected else reply
  }

  /** `Add`: a file of the same name is replaced; a body that is not JSON is refused. */
  function Add(spool: map<Name, Entry>, path: string, body: Body, now: int): (r: Option<map<Name, Entry>>) {
    if body.NotJson? then None else Some(spool[Name(now, Slug(path)) := Entry(path, body)])
  }

  /** A listing of the directory: every file once, older collections first. */
  ghost predicate IsListing(spool: map<Name, Entry>, order: seq<Name>) {
    && (forall n :: n in spool <==> n in order)
    && (forall i, j :: 0 <= i < j < |order| ==> order[i] != order[j] && order[i].at <= order[j].at)
  }

  ghost predicate HasEntry(spool: map<Name, Entry>, path: string) {
    exists n :: n in spool && spool[n].path == path
  }

  // ---- Replay -----------------------------------------------------------------------------------------------------

  /** Send one file: remove it, set it aside, or stop here. */
  ghost function ReplayOne(w: World, n: Name, reply: Reply): (r: (World, bool))
    requires n in w.spool
    ensures r.1 <==> Answer(w.spool[n].body, reply).Unreachable?
    ensures r.0.spool == if r.1 then w.spool else w.spool - {n}
  {
    var e := w.spool[n];
    var server := Put(w.server, e.path, e.body, reply);
    var spool := w.spool - {n};
    match Answer(e.body, reply)
    case Accepted => (w.(server := server, spool := spool), false)
    case Rejected =>
      var refused := if HasEntry(spool, e.path) then w.refused else w.refused + {e.path};
      (w.(spool := spool, refused := refused), false)
    case Unreachable(_) => (w.(server := server), true)
  }

  /** Send the listed files in order; stop at the first failure that is not a rejection. */
  ghost function Replay(w: World, order: seq<Name>, replies: seq<Reply>): (r: (World, seq<Reply>, bool))
    requires forall i :: 0 <= i < |order| ==> order[i] in w.spool
    requires forall i, j :: 0 <= i < j < |order| ==> order[i] != order[j]
    decreases |order|
  {
    if order == [] then (w, replies, false) else
      var (v, stop) := ReplayOne(w, order[0], NextReply(replies));
      if stop then (v, Rest(replies), true) else Replay(v, order[1..], Rest(replies))
  }

  // ---- Delivery of one collection -----------------------------------------------------------------------------------

  function Record(w: World, write: Write, now: int): (r: World) {
    MarkDone(w.(cache := w.cache[write.path := Cached(Digest(write.body), now)], refused := w.refused - {write.path}),
             write.done, now)
  }

  function MarkDone(w: World, marker: string, now: int): (r: World) {
    if marker == "" then w else w.(done := w.done[marker := now])
  }

  predicate Unchanged(w: World, write: Write) {
    !write.always && write.path in w.cache && w.cache[write.path].hash == Digest(write.body)
  }

  datatype Delivery = Delivery(w: World, replies: seq<Reply>, offline: bool, sum: Summary)

  function SpoolWrite(d: Delivery, write: Write, now: int): (r: Delivery) {
    match Add(d.w.spool, write.path, write.body, now)
    case None => d.(sum := d.sum.(failed := d.sum.failed + 1))
    case Some(spool) =>
      d.(w := Record(d.w.(spool := spool), write, now), sum := d.sum.(spooled := d.sum.spooled + 1))
  }

  function SendWrite(d: Delivery, write: Write, now: int): (r: Delivery) {
    var reply := NextReply(d.replies);
    var server := Put(d.w.server, write.path, write.body, reply);
    var e := d.(w := d.w.(server := server), replies := Rest(d.replies));
    match Answer(write.body, reply)
    case Accepted => e.(w := Record(e.w, write, now), sum := d.sum.(delivered := d.sum.delivered + 1))
    case Rejected => e.(sum := d.sum.(rejected := d.sum.rejected + 1))
    case Unreachable(_) => SpoolWrite(e.(offline := true), write, now)
  }

  function DeliverOne(d: Delivery, write: Write, now: int): (r: Delivery) {
    if Unchanged(d.w, write)
    then d.(w := MarkDone(d.w, write.done, now), sum := d.sum.(same := d.sum.same + 1))
    else if d.offline then SpoolWrite(d, write, now)
    else SendWrite(d, write, now)
  }

  function DeliverAll(d: Delivery, writes: seq<Write>, now: int): (r: Delivery)
    decreases |writes|
  {
    if writes == [] then d else DeliverAll(DeliverOne(d, writes[0], now), writes[1..], now)
  }

  const Retention := 60 * 24 * 3600

  /** `save`: entries not refreshed for sixty days are dropped. */
  function Save(w: World, now: int): (r: World) {
    w.(cache := map p | p in w.cache && now - w.cache[p].at <= Retention :: w.cache[p],
       done := map m | m in w.done && now - w.done[m] <= Retention :: w.done[m])
  }

  /** One run of the collector; `resend` empties the cache first. */
  datatype Collection = Collection(now: int, resend: bool, order: seq<Name>, writes: seq<Write>, replies: seq<Reply>)

  ghost function Collect(w: World, c: Collection): (r: (World, Summary))
    requires IsListing(w.spool, c.order)
  {
    assert forall i :: 0 <= i < |c.order| ==> c.order[i] in c.order;
    var base := if c.resend then w.(cache := map[], done := map[]) else w;
    var (replayed, replies, offline) := Replay(base, c.order, c.replies);
    var d := DeliverAll(Delivery(replayed, replies, offline, Summary(|c.writes|, 0, 0, 0, 0, 0)), c.writes, c.now);
    (Save(d.w, c.now), d.sum)
  }

  // ---- Agreement --------------------------------------------------------------------------------------------------

  /** The newest body on its way to the server, or else the body the server has, hashes to the given value. */
  ghost predicate Agrees(w: World, path: string, hash: Digest) {
    if HasEntry(w.spool, path)
    then exists n :: Newest(w.spool, path, n) && Digest(w.spool[n].body) == hash
    else path in w.server && Digest(w.server[path]) == hash
  }

  ghost predicate Newest(spool: map<Name, Entry>, path: string, n: Name) {
    n in spool && spool[n].path == path && forall m :: m in spool && spool[m].path == path ==> m.at <= n.at
  }

  /** Spooled files belong to known paths, carry their slug, and are older than `now`. */
  ghost predicate SpoolOk(spool: map<Name, Entry>, paths: set<string>, now: int) {
    forall n :: n in spool ==>
      n.at <= now && spool[n].path in paths && n.slug == Slug(spool[n].path) && spool[n].body.Json?
  }

  ghost predicate CacheOk(w: World) {
    forall p :: p in w.cache && p !in w.refused ==> Agrees(w, p, w.cache[p].hash)
  }

  /** Files of one path are told apart by their time. */
  lemma SameTime(spool: map<Name, Entry>, paths: set<string>, now: int, n: Name)
    requires SpoolOk(spool, paths, now) && n in spool
    ensures forall m :: m in spool && spool[m].path == spool[n].path && m.at == n.at ==> m == n
  {
  }

  /** Removing a file that is not the newest of its path, or that has gone to the server, keeps every agreement. */
  lemma FileGone(w: World, v: World, paths: set<string>, now: int, n: Name, p: string, hash: Digest)
    requires SpoolOk(w.spool, paths, now) && n in w.spool && v.spool == w.spool - {n}
    requires forall m :: m in w.spool ==> n.at <= m.at
    requires Agrees(w, p, hash)
    requires forall q :: q != w.spool[n].path && q in w.server ==> q in v.server && v.server[q] == w.server[q]
    requires HasEntry(v.spool, w.spool[n].path) || p != w.spool[n].path
             || (p in v.server && v.server[p] == w.spool[n].body)
    ensures Agrees(v, p, hash)
  {
    SameTime(w.spool, paths, now, n);
    assert forall k :: k in w.spool && k != n && w.spool[k].path == p ==> k in v.spool && v.spool[k].path == p;
    if HasEntry(v.spool, p) {
      var m :| m in v.spool && v.spool[m].path == p;
      assert m in w.spool && HasEntry(w.spool, p);
      var k :| Newest(w.spool, p, k) && Digest(w.spool[k].body) == hash;
      assert Newest(v.spool, p, k);
    } else if p == w.spool[n].path {
      assert HasEntry(w.spool, p);
      var k :| Newest(w.spool, p, k) && Digest(w.spool[k].body) == hash;
      assert k == n;
    }
  }

  lemma ListingTail(spool: map<Name, Entry>, order: seq<Name>)
    requires IsListing(spool, order) && order != []
    ensures order[0] in spool && IsListing(spool - {order[0]}, order[1..])
    ensures forall m :: m in spool ==> order[0].at <= m.at
  {
    assert order[0] in order;
    assert forall i :: 0 < i < |order| ==> order[1..][i - 1] == order[i];
    forall m | m in spool ensures order[0].at <= m.at {
      var i :| 0 <= i < |order| && order[i] == m;
    }
    forall n ensures n in spool - {order[0]} <==> n in order[1..] {
      if n in order[1..] {
        var i :| 0 <= i < |order[1..]| && order[1..][i] == n;
        assert order[i + 1] == n;
      } else if n in spool {
        var i :| 0 <= i < |order| && order[i] == n;
      }
    }
  }

  ghost predicate Good(w: World, paths: set<string>, now: int) {
    SpoolOk(w.spool, paths, now) && CacheOk(w) && w.cache.Keys <= paths
  }

  lemma AcceptedKeeps(w: World, paths: set<string>, now: int, n: Name)
    requires Good(w, paths, now) && n in w.spool && forall m :: m in w.spool ==> n.at <= m.at
    ensures var e := w.spool[n];
            Good(w.(server := w.server[e.path := e.body], spool := w.spool - {n}), paths, now)
  {
    var e := w.spool[n];
    var v := w.(server := w.server[e.path := e.body], spool := w.spool - {n});
    forall p | p in v.cache && p !in v.refused ensures Agrees(v, p, v.cache[p].hash) {
      FileGone(w, v, paths, now, n, p, w.cache[p].hash);
    }
  }

  lemma RejectedKeeps(w: World, paths: set<string>, now: int, n: Name)
    requires Good(w, paths, now) && n in w.spool && forall m :: m in w.spool ==> n.at <= m.at
    ensures var e := w.spool[n];
            var spool := w.spool - {n};
            var refused := if HasEntry(spool, e.path) then w.refused else w.refused + {e.path};
            Good(w.(spool := spool, refused := refused), paths, now)
  {
    var e := w.spool[n];
    var spool := w.spool - {n};
    var refused := if HasEntry(spool, e.path) then w.refused else w.refused + {e.path};
    var v := w.(spool := spool, refused := refused);
    forall p | p in v.cache && p !in v.refused ensures Agrees(v, p, v.cache[p].hash) {
      FileGone(w, v, paths, now, n, p, w.cache[p].hash);
    }
  }

  /** While a file for the path is on its way, the server's copy does not matter. */
  lemma ServerUnderFile(w: World, paths: set<string>, now: int, n: Name, server: map<string, Body>)
    requires Good(w, paths, now) && n in w.spool
    requires server == w.server || server == w.server[w.spool[n].path := w.spool[n].body]
    ensures Good(w.(server := server), paths, now)
  {
    var v := w.(server := server);
    forall p | p in v.cache && p !in v.refused ensures Agrees(v, p, v.cache[p].hash) {
      assert Agrees(w, p, w.cache[p].hash);
      if p == w.spool[n].path { assert HasEntry(w.spool, p); }
    }
  }

  /** Replay keeps the agreement, wherever it stops; if it does not stop early the spool is empty. */
  lemma {:induction false} ReplayKeeps(w: World, paths: set<string>, now: int, order: seq<Name>, replies: seq<Reply>)
    requires Good(w, paths, now) && IsListing(w.spool, order)
    requires forall i :: 0 <= i < |order| ==> order[i] in w.spool
    ensures var (v, rest, offline) := Replay(w, order, replies);
            Good(v, paths, now) && v.cache == w.cache && (!offline ==> v.spool == map[])
    decreases |order|
  {
    hide Good, HasEntry, IsListing;
    if order == [] {
      NothingListed(w.spool);
    } else {
      ListingTail(w.spool, order);
      assert forall i :: 0 <= i < |order[1..]| ==> order[1..][i] in order[1..];
      ReplayOneKeeps(w, paths, now, order[0], NextReply(replies));
      var (v, stop) := ReplayOne(w, order[0], NextReply(replies));
      hide ReplayOne;
      if !stop { ReplayKeeps(v, paths, now, order[1..], Rest(replies)); }
    }
  }

  lemma ReplayOneKeeps(w: World, paths: set<string>, now: int, n: Name, reply: Reply)
    requires Good(w, paths, now) && n in w.spool && forall m :: m in w.spool ==> n.at <= m.at
    ensures var v := ReplayOne(w, n, reply).0; Good(v, paths, now) && v.cache == w.cache
  {
    EntryIsJson(w, paths, now, n);
    hide Good, HasEntry;
    var e := w.spool[n];
    match Answer(e.body, reply)
    case Accepted => AcceptedKeeps(w, paths, now, n);
    case Rejected => RejectedKeeps(w, paths, now, n);
    case Unreachable(_) => ServerUnderFile(w, paths, now, n, Put(w.server, e.path, e.body, reply));
  }

  lemma NothingListed(spool: map<Name, Entry>)
    requires IsListing(spool, [])
    ensures spool == map[]
  {
  }

  lemma EntryIsJson(w: World, paths: set<string>, now: int, n: Name)
    requires Good(w, paths, now) && n in w.spool
    ensures w.spool[n].body.Json?
  {
  }

  // ---- Writes -----------------------------------------------------------------------------------------------------

  /** Between two writes: while online nothing is waiting in the spool. */
  ghost predicate Ready(d: Delivery, paths: set<string>, now: int) {
    Good(d.w, paths, now) && (!d.offline ==> d.w.spool == map[])
  }

  /** A file added now is the newest of its path and replaces no other path's file. */
  lemma AddKeeps(w: World, paths: set<string>, now: int, write: Write)
    requires Good(w, paths, now) && SlugDistinct(paths) && write.path in paths && write.body.Json?
    ensures Good(Record(w.(spool := Add(w.spool, write.path, write.body, now).value), write, now), paths, now)
  {
    hide Slug, HasEntry, Newest;
    var n := Name(now, Slug(write.path));
    var spool := Add(w.spool, write.path, write.body, now).value;
    var v := Record(w.(spool := spool), write, now);
    assert n in w.spool ==> w.spool[n].path == write.path;
    hide SlugDistinct;
    AddedIsNewest(w, v, paths, now, write);
    hide SpoolOk;
    forall p | p in v.cache && p !in v.refused && p != write.path ensures Agrees(v, p, v.cache[p].hash) {
      assert Agrees(w, p, w.cache[p].hash);
      hide Agrees;
      OtherPath(w, v, n, p, w.cache[p].hash);
    }
  }

  lemma AddedIsNewest(w: World, v: World, paths: set<string>, now: int, write: Write)
    requires SpoolOk(w.spool, paths, now) && write.path in paths && write.body.Json?
    requires v.spool == w.spool[Name(now, Slug(write.path)) := Entry(write.path, write.body)]
    ensures SpoolOk(v.spool, paths, now) && Agrees(v, write.path, Digest(write.body))
  {
    hide Slug;
    var n := Name(now, Slug(write.path));
    assert Newest(v.spool, write.path, n);
    assert HasEntry(v.spool, write.path);
  }

  lemma OtherPath(w: World, v: World, n: Name, p: string, hash: Digest)
    requires Agrees(w, p, hash) && v.server == w.server
    requires n in v.spool && v.spool == w.spool[n := v.spool[n]] && v.spool[n].path != p
    requires n in w.spool ==> w.spool[n].path != p
    ensures Agrees(v, p, hash)
  {
    if HasEntry(w.spool, p) {
      var k :| Newest(w.spool, p, k) && Digest(w.spool[k].body) == hash;
      assert Newest(v.spool, p, k);
      assert k in v.spool && v.spool[k].path == p;
    }
  }

  lemma SentKeeps(w: World, paths: set<string>, now: int, write: Write)
    requires Good(w, paths, now) && w.spool == map[] && write.path in paths
    ensures Good(Record(w.(server := w.server[write.path := write.body]), write, now), paths, now)
  {
    var v := Record(w.(server := w.server[write.path := write.body]), write, now);
    forall p | p in v.cache && p !in v.refused ensures Agrees(v, p, v.cache[p].hash) {
      if p != write.path { assert Agrees(w, p, w.cache[p].hash); }
    }
  }

  /** The request may have reached the server although it failed; the file in the spool then says the same. */
  lemma LostKeeps(w: World, paths: set<string>, now: int, write: Write)
    requires Good(w, paths, now) && w.spool == map[] && SlugDistinct(paths) && write.path in paths && write.body.Json?
    ensures var u := w.(server := w.server[write.path := write.body]);
            Good(Record(u.(spool := Add(w.spool, write.path, write.body, now).value), write, now), paths, now)
  {
    var u := w.(server := w.server[write.path := write.body]);
    var sent := Record(u, write, now);
    SentKeeps(w, paths, now, write);
    AddKeeps(sent, paths, now, write);
    hide Good, SlugDistinct;
    RecordTwice(u, write, now, Add(w.spool, write.path, write.body, now).value);
  }

  lemma RecordTwice(w: World, write: Write, now: int, spool: map<Name, Entry>)
    ensures Record(Record(w, write, now).(spool := spool), write, now) == Record(w.(spool := spool), write, now)
    ensures Record(w, write, now).spool == w.spool
  {
  }

  lemma MarkKeeps(w: World, paths: set<string>, now: int, marker: string)
    requires Good(w, paths, now)
    ensures Good(MarkDone(w, marker, now), paths, now) && MarkDone(w, marker, now).spool == w.spool
  {
    var v := MarkDone(w, marker, now);
    forall p | p in v.cache && p !in v.refused ensures Agrees(v, p, v.cache[p].hash) {
      assert Agrees(w, p, w.cache[p].hash);
    }
  }

  lemma SpoolWriteKeeps(d: Delivery, paths: set<string>, now: int, write: Write)
    requires Good(d.w, paths, now) && d.offline && SlugDistinct(paths) && write.path in paths
    ensures Ready(SpoolWrite(d, write, now), paths, now)
  {
    if write.body.Json? { AddKeeps(d.w, paths, now, write); }
    hide Good, Record;
  }

  lemma SendKeeps(d: Delivery, paths: set<string>, now: int, write: Write)
    requires Ready(d, paths, now) && !d.offline && SlugDistinct(paths) && write.path in paths
    ensures Ready(SendWrite(d, write, now), paths, now)
  {
    hide Good, Record, SlugDistinct, NextReply;
    assert d.w == d.w.(server := d.w.server);
    RecordSpool(d.w.(server := d.w.server[write.path := write.body]), write, now);
    if write.body.Json? {
      SentKeeps(d.w, paths, now, write);
      LostKeeps(d.w, paths, now, write);
      AddKeeps(d.w, paths, now, write);
    }
  }

  lemma RecordSpool(w: World, write: Write, now: int)
    ensures Record(w, write, now).spool == w.spool
  {
  }

  lemma DeliverOneKeeps(d: Delivery, paths: set<string>, now: int, write: Write)
    requires Ready(d, paths, now) && SlugDistinct(paths) && write.path in paths
    ensures Ready(DeliverOne(d, write, now), paths, now)
  {
    MarkKeeps(d.w, paths, now, write.done);
    hide Good, SlugDistinct, SendWrite, SpoolWrite;
    if !Unchanged(d.w, write) {
      if d.offline { SpoolWriteKeeps(d, paths, now, write); } else { SendKeeps(d, paths, now, write); }
    }
  }

  ghost predicate Within(writes: seq<Write>, paths: set<string>) {
    forall i :: 0 <= i < |writes| ==> writes[i].path in paths
  }

  lemma {:induction false} DeliverAllKeeps(d: Delivery, paths: set<string>, now: int, writes: seq<Write>)
    requires Ready(d, paths, now) && SlugDistinct(paths) && Within(writes, paths)
    ensures Ready(DeliverAll(d, writes, now), paths, now)
    decreases |writes|
  {
    hide Ready, SlugDistinct, DeliverOne;
    if writes != [] {
      DeliverOneKeeps(d, paths, now, writes[0]);
      DeliverAllKeeps(DeliverOne(d, writes[0], now), paths, now, writes[1..]);
    }
  }

  lemma SaveKeeps(w: World, paths: set<string>, now: int)
    requires Good(w, paths, now)
    ensures Good(Save(w, now), paths, now)
  {
    var v := Save(w, now);
    forall p | p in v.cache && p !in v.refused ensures Agrees(v, p, v.cache[p].hash) {
      assert Agrees(w, p, w.cache[p].hash);
    }
  }

  lemma LaterClock(w: World, paths: set<string>, now: int, later: int)
    requires Good(w, paths, now) && now <= later
    ensures Good(w, paths, later) && Good(w.(cache := map[], done := map[]), paths, later)
  {
    hide HasEntry;
  }

  lemma CollectKeeps(w: World, paths: set<string>, now: int, c: Collection)
    requires Good(w, paths, now) && now <= c.now && SlugDistinct(paths) && Within(c.writes, paths)
    requires IsListing(w.spool, c.order)
    ensures Good(Collect(w, c).0, paths, c.now)
  {
    LaterClock(w, paths, now, c.now);
    assert forall i :: 0 <= i < |c.order| ==> c.order[i] in c.order;
    var base := if c.resend then w.(cache := map[], done := map[]) else w;
    ReplayKeeps(base, paths, c.now, c.order, c.replies);
    hide Good, SlugDistinct, Within, Replay, Save, DeliverAll;
    var (replayed, replies, offline) := Replay(base, c.order, c.replies);
    var d := Delivery(replayed, replies, offline, Summary(|c.writes|, 0, 0, 0, 0, 0));
    DeliverAllKeeps(d, paths, c.now, c.writes);
    SaveKeeps(DeliverAll(d, c.writes, c.now).w, paths, c.now);
  }

  // ---- Runs -------------------------------------------------------------------------------------------------------

  /** The collections can follow each other: the clock advances and each listing shows the spool of its time. */
  ghost predicate Possible(w: World, now: int, cs: seq<Collection>)
    decreases |cs|
  {
    cs == [] || (now < cs[0].now && IsListing(w.spool, cs[0].order)
      && Possible(Collect(w, cs[0]).0, cs[0].now, cs[1..]))
  }

  ghost function Run(w: World, now: int, cs: seq<Collection>): (r: World)
    requires Possible(w, now, cs)
    decreases |cs|
  {
    if cs == [] then w else Run(Collect(w, cs[0]).0, cs[0].now, cs[1..])
  }

  ghost predicate RunWithin(cs: seq<Collection>, paths: set<string>) {
    forall i :: 0 <= i < |cs| ==> Within(cs[i].writes, paths)
  }

  lemma {:induction false} RunKeeps(w: World, now: int, cs: seq<Collection>, paths: set<string>)
    returns (last: int)
    requires Good(w, paths, now) && Possible(w, now, cs) && SlugDistinct(paths) && RunWithin(cs, paths)
    ensures Good(Run(w, now, cs), paths, last)
    decreases |cs|
  {
    hide Good, SlugDistinct, Collect, IsListing;
    last := now;
    if cs != [] {
      CollectKeeps(w, paths, now, cs[0]);
      last := RunKeeps(Collect(w, cs[0]).0, cs[0].now, cs[1..], paths);
    }
  }

  /** What the server holds once every file of a listing was taken, in order. */
  function Drain(server: map<string, Body>, spool: map<Name, Entry>, order: seq<Name>): (r: map<string, Body>)
    requires forall i :: 0 <= i < |order| ==> order[i] in spool
    decreases |order|
  {
    if order == [] then server else Drain(server[spool[order[0]].path := spool[order[0]].body], spool, order[1..])
  }

  lemma {:induction false} DrainUntouched(server: map<string, Body>, spool: map<Name, Entry>, order: seq<Name>,
      p: string)
    requires forall i :: 0 <= i < |order| ==> order[i] in spool && spool[order[i]].path != p
    ensures var r := Drain(server, spool, order); (p in r <==> p in server) && (p in r ==> r[p] == server[p])
    decreases |order|
  {
    if order != [] { DrainUntouched(server[spool[order[0]].path := spool[order[0]].body], spool, order[1..], p); }
  }

  /** The newest file of a path comes last among the files of the path, so it decides. */
  lemma {:induction false} DrainNewest(server: map<string, Body>, spool: map<Name, Entry>, order: seq<Name>, p: string,
      k: int)
    requires 0 <= k < |order| && forall i :: 0 <= i < |order| ==> order[i] in spool
    requires spool[order[k]].path == p && forall i :: k < i < |order| ==> spool[order[i]].path != p
    ensures var r := Drain(server, spool, order); p in r && r[p] == spool[order[k]].body
    decreases |order|
  {
    var next := server[spool[order[0]].path := spool[order[0]].body];
    if k == 0 { DrainUntouched(next, spool, order[1..], p); } else { DrainNewest(next, spool, order[1..], p, k - 1); }
  }

  lemma DrainAgrees(w: World, paths: set<string>, now: int, order: seq<Name>, p: string, hash: Digest)
    requires Agrees(w, p, hash) && IsListing(w.spool, order) && SpoolOk(w.spool, paths, now)
    requires forall i :: 0 <= i < |order| ==> order[i] in w.spool
    ensures var r := Drain(w.server, w.spool, order); p in r && Digest(r[p]) == hash
  {
    if HasEntry(w.spool, p) {
      var n :| Newest(w.spool, p, n) && Digest(w.spool[n].body) == hash;
      var k :| 0 <= k < |order| && order[k] == n;
      SameTime(w.spool, paths, now, n);
      forall i | k < i < |order| ensures w.spool[order[i]].path != p {
        assert order[k].at <= order[i].at && order[i] != n;
      }
      DrainNewest(w.server, w.spool, order, p, k);
    } else {
      DrainUntouched(w.server, w.spool, order, p);
    }
  }

  /**
    Cache, spool and server agree.  After any run of collections with an advancing clock over paths with distinct slugs,
    whatever the server answered, draining the spool in any listing order gives the server, for every cached path whose
    newest file was not rejected, a body that hashes to the cached value.
  */
  lemma CacheAgrees(server: map<string, Body>, start: int, cs: seq<Collection>, paths: set<string>, order: seq<Name>,
      p: string)
    requires SlugDistinct(paths) && RunWithin(cs, paths)
    requires Possible(World(server, map[], map[], map[], {}), start, cs)
    requires var w := Run(World(server, map[], map[], map[], {}), start, cs);
             IsListing(w.spool, order) && p in w.cache && p !in w.refused
    ensures var w := Run(World(server, map[], map[], map[], {}), start, cs);
            && (forall i :: 0 <= i < |order| ==> order[i] in w.spool)
            && p in Drain(w.server, w.spool, order)
            && Digest(Drain(w.server, w.spool, order)[p]) == w.cache[p].hash
  {
    var w0 := World(server, map[], map[], map[], {});
    var last := RunKeeps(w0, start, cs, paths);
    var w := Run(w0, start, cs);
    hide Run, Possible, SlugDistinct, RunWithin;
    assert forall i :: 0 <= i < |order| ==> order[i] in order;
    assert Agrees(w, p, w.cache[p].hash);
    DrainAgrees(w, paths, last, order, p, w.cache[p].hash);
  }

  /** So a write skipped as unchanged loses nothing: the server will hold exactly the body that was not sent. */
  lemma SkipIsSafe(w: World, paths: set<string>, now: int, write: Write, order: seq<Name>)
    requires Good(w, paths, now) && Unchanged(w, write) && write.path !in w.refused && IsListing(w.spool, order)
    ensures forall i :: 0 <= i < |order| ==> order[i] in w.spool
    ensures var r := Drain(w.server, w.spool, order); write.path in r && r[write.path] == write.body
  {
    assert forall i :: 0 <= i < |order| ==> order[i] in order;
    DrainAgrees(w, paths, now, order, write.path, Digest(write.body));
  }

  // ---- Counting ---------------------------------------------------------------------------------------------------

  function Handled(s: Summary): (n: nat) {
    s.delivered + s.spooled + s.same + s.rejected + s.failed
  }

  lemma {:induction false} EveryWriteCounted(d: Delivery, writes: seq<Write>, now: int)
    ensures var r := DeliverAll(d, writes, now);
            Handled(r.sum) == Handled(d.sum) + |writes| && r.sum.writes == d.sum.writes
    decreases |writes|
  {
    if writes != [] {
      OneCounted(d, writes[0], now);
      hide DeliverOne;
      EveryWriteCounted(DeliverOne(d, writes[0], now), writes[1..], now);
    }
  }

  lemma OneCounted(d: Delivery, write: Write, now: int)
    ensures var r := DeliverOne(d, write, now); Handled(r.sum) == Handled(d.sum) + 1 && r.sum.writes == d.sum.writes
  {
    hide Put, Record, MarkDone, Add;
  }

  /** Every write of a collection is delivered, spooled, unchanged, rejected or failed, and only one of them. */
  lemma CollectionAddsUp(w: World, c: Collection)
    requires IsListing(w.spool, c.order)
    ensures var s := Collect(w, c).1; Handled(s) == s.writes == |c.writes|
  {
    assert forall i :: 0 <= i < |c.order| ==> c.order[i] in c.order;
    var base := if c.resend then w.(cache := map[], done := map[]) else w;
    hide Replay, DeliverAll;
    var (replayed, replies, offline) := Replay(base, c.order, c.replies);
    EveryWriteCounted(Delivery(replayed, replies, offline, Summary(|c.writes|, 0, 0, 0, 0, 0)), c.writes, c.now);
  }

  // ---- Why the slugs must differ ----------------------------------------------------------------------------------

  lemma DeliverTwo(d: Delivery, a: Write, b: Write, now: int)
    ensures DeliverAll(d, [a, b], now) == DeliverOne(DeliverOne(d, a, now), b, now)
  {
    hide DeliverOne;
    assert [a, b][1..] == [b] && [b][1..] == [];
    var d1 := DeliverOne(d, a, now);
    assert DeliverAll(DeliverOne(d1, b, now), [], now) == DeliverOne(d1, b, now);
    assert DeliverAll(d1, [b], now) == DeliverAll(DeliverOne(d1, b, now), [b][1..], now);
  }

  /** The first send fails, so both reports of a collection go to the spool. */
  lemma FirstLost(d: Delivery, a: Write, b: Write, now: int)
    requires !d.offline && d.replies == [] && d.w.cache == map[] && a.body.Json? && b.body.Json? && a.path != b.path
    ensures DeliverAll(d, [a, b], now) == SpoolWrite(SpoolWrite(d.(offline := true), a, now), b, now)
  {
    assert d.w.(server := d.w.server) == d.w;
    var d1 := SpoolWrite(d.(offline := true), a, now);
    assert DeliverOne(d, a, now) == d1;
    assert d1.offline && b.path !in d1.w.cache;
    assert DeliverOne(d1, b, now) == SpoolWrite(d1, b, now);
    DeliverTwo(d, a, b, now);
  }

  /**
    The converse of the assumption: when two paths share a slug, one collection while Ops is down loses the first
    report for good.  The cache calls it sent, yet no file of the spool carries it and it was never rejected.
  */
  lemma CollisionLosesAReport(p: string, q: string, b: string, c: string, now: int)
    requires p != q && Slug(p) == Slug(q)
    ensures var w0 := World(map[], map[], map[], map[], {});
            var run := Collection(now, false, [], [Write(p, Json(b), "", false), Write(q, Json(c), "", false)], []);
            var name := Name(now, Slug(q));
            && IsListing(w0.spool, run.order)
            && var w := Collect(w0, run).0;
               && p in w.cache && p !in w.refused
               && w.spool == map[name := Entry(q, Json(c))] && IsListing(w.spool, [name])
               && p !in Drain(w.server, w.spool, [name])
  {
    hide Slug;
    var w0 := World(map[], map[], map[], map[], {});
    var a, e := Write(p, Json(b), "", false), Write(q, Json(c), "", false);
    FirstLost(Delivery(w0, [], false, Summary(2, 0, 0, 0, 0, 0)), a, e, now);
    var name := Name(now, Slug(q));
    assert map[name := Entry(p, Json(b))][name := Entry(q, Json(c))] == map[name := Entry(q, Json(c))];
  }

  lemma TrimmedPath(prefix: string, s: string)
    ensures TrimPrefix(prefix + s, prefix) == s
  {
    assert prefix <= prefix + s && (prefix + s)[|prefix|..] == s;
  }

  /** Such paths exist: a slash and an underscore have one slug. */
  lemma SlugsCollide(x: string, y: string)
    ensures Slug("/v1/ops/" + (x + "/" + y)) == Slug("/v1/ops/" + (x + "_" + y))
  {
    var p, q := x + "/" + y, x + "_" + y;
    TrimmedPath("/v1/ops/", p);
    TrimmedPath("/v1/ops/", q);
    assert |SlugText(p)| == |SlugText(q)|;
    assert forall i :: 0 <= i < |p| ==> SlugText(p)[i] == SlugText(q)[i];
    assert SlugText(p) == SlugText(q);
  }
}
