/**
  Delivery intents: the guarded updates of delivery/internal/store.go, and the service operations of
  delivery/internal/service.go as clients whose steps interleave in any order.

  A client remembers what it read; every guarded update is one atomic statement of the database, which also enforces
  the table's constraints.  Clocks are arbitrary.
*/
module Delivery {
  import opened Core

  // ---- Rows -------------------------------------------------------------------------------------------------------

  datatype Identity = Identity(profile: string, instance: string, session: Option<string>)

  datatype Status = Pending | Claimed | Running | Completed | Failed | Expired | Cancelled | DisplayOnly {
    predicate IsTerminal() {
      Completed? || Failed? || Expired? || Cancelled? || DisplayOnly?
    }
  }

  datatype Intent = Intent(target: Identity, state: Status, key: string, createdAt: int, expiresAt: int,
                           claimedAt: Option<int>, token: Option<string>, claimedBy: Option<Identity>,
                           completedAt: Option<int>)

  datatype Event = EvRunning | EvCompleted | EvFailed

  /** `logs` holds the events of each intent; `claims` is history: the tokens of the claims that succeeded. */
  datatype Store =
    Store(nextId: int, intents: map<int, Intent>, logs: map<int, seq<Event>>, claims: map<int, seq<string>>)

  const Empty := Store(1, map[], map[], map[])

  datatype Error =
    | NotFound | InvalidIntent | AlreadyClaimed | AlreadyCompleted | ExpiredIntent | InvalidClaimToken
    | InvalidLifecycleEvent | TargetMismatch | RuntimeNotAlive | Constraint

  // ---- Guarded updates --------------------------------------------------------------------------------------------

  function NewIntent(target: Identity, key: string, ttl: int, now: int): (r: Result<Intent, Error>) {
    if key == "" || ttl <= 0 then Err(InvalidIntent)
    else Ok(Intent(target, Pending, key, now, now + ttl, None, None, None, None))
  }

  ghost predicate HoldsKey(s: Store, key: string, id: int) {
    id in s.intents && s.intents[id].key == key
  }

  ghost predicate KeyTaken(s: Store, key: string) {
    exists id :: HoldsKey(s, key, id)
  }

  /** The insert that on a repeated key answers with the row already there. */
  ghost function Create(s: Store, intent: Intent): (r: (Store, int)) {
    if KeyTaken(s, intent.key) then
      var id :| HoldsKey(s, intent.key, id);
      (s, id)
    else
      (s.(nextId := s.nextId + 1, intents := s.intents[s.nextId := intent], logs := s.logs[s.nextId := []],
          claims := s.claims[s.nextId := []]), s.nextId)
  }

  /** Claim tokens are unique over the whole table. */
  ghost predicate TokenTaken(s: Store, token: string, id: int) {
    exists other :: other in s.intents && other != id && s.intents[other].token == Some(token)
  }

  function Claim(i: Intent, token: string, who: Identity, at: int): (r: Intent) {
    i.(state := Status.Claimed, token := Some(token), claimedBy := Some(who), claimedAt := Some(at))
  }

  /** Why a claim that changed no row was refused, from a second read. */
  function ClaimConflict(s: Store, id: int): (e: Error) {
    if id !in s.intents then NotFound
    else match s.intents[id].state
         case Completed | Failed | Cancelled | DisplayOnly => AlreadyCompleted
         case Expired => ExpiredIntent
         case _ => AlreadyClaimed
  }

  ghost function ClaimPending(s: Store, id: int, token: string, who: Identity, at: int)
    : (r: (Store, Result<Intent, Error>))
  {
    if id !in s.intents || !s.intents[id].state.Pending? then (s, Err(ClaimConflict(s, id)))
    else if TokenTaken(s, token, id) then (s, Err(Constraint))
    else
      var claimed := Claim(s.intents[id], token, who, at);
      (s.(intents := s.intents[id := claimed],
          claims := s.claims[id := (if id in s.claims then s.claims[id] else []) + [token]]), Ok(claimed))
  }

  function Expire(i: Intent, at: int): (r: Intent) {
    i.(state := Status.Expired, completedAt := Some(at))
  }

  /** A completion earlier than the creation violates a check of the table, and the statement fails. */
  function ExpireIfPending(s: Store, id: int, at: int): (r: Store) {
    if id in s.intents && s.intents[id].state.Pending? && s.intents[id].createdAt <= at
    then s.(intents := s.intents[id := Expire(s.intents[id], at)])
    else s
  }

  predicate Overdue(i: Intent, before: int) {
    i.state.Pending? && i.createdAt <= before
  }

  /** One statement over all overdue rows: if the check fails for one of them, none changes. */
  function ExpirePendingBefore(s: Store, before: int, at: int): (r: (Store, bool)) {
    if exists id :: id in s.intents && Overdue(s.intents[id], before) && at < s.intents[id].createdAt then (s, false)
    else (s.(intents := map id | id in s.intents ::
                          if Overdue(s.intents[id], before) then Expire(s.intents[id], at) else s.intents[id]), true)
  }

  /** `canReport`. */
  function CanReport(i: Intent, event: Event, token: string): (r: Option<Error>) {
    if i.token != Some(token) then Some(InvalidClaimToken)
    else if i.state.IsTerminal() then Some(AlreadyCompleted)
    else match event
         case EvRunning => if i.state.Claimed? then None else Some(InvalidLifecycleEvent)
         case _ => if i.state.Running? || i.state.Claimed? then None else Some(InvalidLifecycleEvent)
  }

  function Reported(i: Intent, event: Event, at: int): (r: Intent) {
    match event
    case EvRunning => i.(state := Status.Running, completedAt := None)
    case EvCompleted => i.(state := Status.Completed, completedAt := Some(at))
    case EvFailed => i.(state := Status.Failed, completedAt := Some(at))
  }

  /** One transaction: lock the row, check, update it, append the event. */
  function ReportEvent(s: Store, id: int, token: string, event: Event, at: int): (r: (Store, Result<Intent, Error>)) {
    if id !in s.intents then (s, Err(NotFound))
    else match CanReport(s.intents[id], event, token)
         case Some(e) => (s, Err(e))
         case None =>
           var next := Reported(s.intents[id], event, at);
           if !event.EvRunning? && at < next.createdAt then (s, Err(Constraint))
           else (s.(intents := s.intents[id := next],
                    logs := s.logs[id := (if id in s.logs then s.logs[id] else []) + [event]]), Ok(next))
  }

  function FailRunning(s: Store, id: int, at: int): (r: Store) {
    if id in s.intents && s.intents[id].state.Running? && s.intents[id].createdAt <= at
    then s.(intents := s.intents[id := s.intents[id].(state := Status.Failed, completedAt := Some(at))])
    else s
  }

  predicate Stale(i: Intent, before: int) {
    i.state.Running? && i.claimedAt.Some? && i.claimedAt.value <= before
  }

  // ---- Clients ----------------------------------------------------------------------------------------------------

  /** Where an operation is, with all it has read. */
  datatype Client =
    | Idle
    | Claiming(id: int, token: string, who: Identity, now: int)
    | Checking(id: int, token: string, who: Identity, now: int, seen: Intent)
    | Taking(id: int, token: string, who: Identity, now: int, seen: Intent)
    | GivingUp(id: int, now: int)
    | Listing(now: int)
    | Reaping(now: int, todo: seq<(int, Intent)>)
    | Killing(now: int, id: int, rest: seq<(int, Intent)>)

  datatype System = System(store: Store, clients: map<int, Client>)

  datatype Action =
    | DoCreate(target: Identity, key: string, ttl: int, at: int)
    | StartClaim(c: int, id: int, token: string, who: Identity, at: int)
    | Read(c: int)
    | Answer(c: int, alive: Option<bool>)
    | Take(c: int)
    | GiveUp(c: int)
    | DoReport(id: int, token: string, event: Event, at: int)
    | StartReap(c: int, pendingBefore: int, at: int)
    | List(c: int, runningBefore: int, order: seq<int>)
    | Visit(c: int, alive: Option<bool>)
    | Kill(c: int)
    | Crash(c: int)

  function At(y: System, c: int): (k: Client) {
    if c in y.clients then y.clients[c] else Idle
  }

  function With(y: System, c: int, k: Client): (r: System) {
    y.(clients := y.clients[c := k])
  }

  /** The checks of `Claim` on the row it read. */
  function Decide(k: Client, seen: Intent): (r: Client)
    requires k.Claiming?
  {
    if seen.target != k.who then Idle
    else if seen.state.Pending? && !(k.now < seen.expiresAt) then GivingUp(k.id, k.now)
    else Checking(k.id, k.token, k.who, k.now, seen)
  }

  /** The rows `ListRunningBefore` returns, in an order the database chooses. */
  function Listed(s: Store, before: int, order: seq<int>): (r: seq<(int, Intent)>)
    decreases |order|
  {
    if order == [] then []
    else if order[0] in s.intents && Stale(s.intents[order[0]], before)
    then [(order[0], s.intents[order[0]])] + Listed(s, before, order[1..])
    else Listed(s, before, order[1..])
  }

  ghost function Act(y: System, a: Action): (r: System) {
    match a
    case DoCreate(target, key, ttl, at) =>
      (match NewIntent(target, key, ttl, at)
       case Ok(intent) => y.(store := Create(y.store, intent).0)
       case Err(_) => y)
    case StartClaim(c, id, token, who, at) =>
      if At(y, c).Idle? && token != "" then With(y, c, Claiming(id, token, who, at)) else y
    case Read(c) =>
      if !At(y, c).Claiming? then y
      else if At(y, c).id !in y.store.intents then With(y, c, Idle)
      else With(y, c, Decide(At(y, c), y.store.intents[At(y, c).id]))
    case Answer(c, alive) =>
      var k := At(y, c);
      if !k.Checking? then y
      else if alive.None? then With(y, c, Idle)
      else if alive.value then With(y, c, Taking(k.id, k.token, k.who, k.now, k.seen))
      else With(y, c, GivingUp(k.id, k.now))
    case Take(c) =>
      var k := At(y, c);
      if !k.Taking? then y
      else With(y.(store := ClaimPending(y.store, k.id, k.token, k.who, k.now).0), c, Idle)
    case GiveUp(c) =>
      var k := At(y, c);
      if !k.GivingUp? then y else With(y.(store := ExpireIfPending(y.store, k.id, k.now)), c, Idle)
    case DoReport(id, token, event, at) => y.(store := ReportEvent(y.store, id, token, event, at).0)
    case StartReap(c, pendingBefore, at) =>
      if !At(y, c).Idle? then y
      else
        var (s, ok) := ExpirePendingBefore(y.store, pendingBefore, at);
        With(y.(store := s), c, if ok then Listing(at) else Idle)
    case List(c, runningBefore, order) =>
      if !At(y, c).Listing? then y
      else With(y, c, Reaping(At(y, c).now, Listed(y.store, runningBefore, order)))
    case Visit(c, alive) =>
      var k := At(y, c);
      if !k.Reaping? then y
      else if k.todo == [] then With(y, c, Idle)
      else if k.todo[0].1.claimedBy.None? then With(y, c, Killing(k.now, k.todo[0].0, k.todo[1..]))
      else if alive.None? then With(y, c, Idle)
      else if alive.value then With(y, c, Reaping(k.now, k.todo[1..]))
      else With(y, c, Killing(k.now, k.todo[0].0, k.todo[1..]))
    case Kill(c) =>
      var k := At(y, c);
      if !k.Killing? then y
      else With(y.(store := FailRunning(y.store, k.id, k.now)), c, Reaping(k.now, k.rest))
    case Crash(c) => With(y, c, Idle)
  }

  ghost function Run(y: System, actions: seq<Action>): (r: System)
    decreases |actions|
  {
    if actions == [] then y else Run(Act(y, actions[0]), actions[1..])
  }

  const Start := System(Empty, map[])

  // ---- What every reachable state satisfies -----------------------------------------------------------------------

  predicate Unclaimed(i: Intent) {
    i.token.None? && i.claimedBy.None? && i.claimedAt.None?
  }

  /** Claimed by its target, in time. */
  predicate RightlyClaimed(i: Intent) {
    i.token.Some? && i.claimedBy == Some(i.target) && i.claimedAt.Some? && i.claimedAt.value < i.expiresAt
  }

  /** The log that goes with each state. */
  predicate LogFits(state: Status, log: seq<Event>) {
    match state
    case Pending | Claimed | Expired => log == []
    case Running => log == [EvRunning]
    case Completed => log == [EvCompleted] || log == [EvRunning, EvCompleted]
    case Failed => log == [EvFailed] || log == [EvRunning, EvFailed] || log == [EvRunning]
    case _ => false
  }

  predicate RowOk(i: Intent, log: seq<Event>, claims: seq<string>) {
    && i.createdAt < i.expiresAt
    && LogFits(i.state, log)
    && (i.completedAt.Some? <==> i.state.IsTerminal())
    && (if i.state.Pending? || i.state.Expired? then Unclaimed(i) && claims == []
        else RightlyClaimed(i) && claims == [i.token.value])
  }

  ghost predicate Unique(s: Store) {
    && (forall a, b :: a in s.intents && b in s.intents && a != b ==> s.intents[a].key != s.intents[b].key)
    && (forall a, b :: a in s.intents && b in s.intents && a != b && s.intents[a].token.Some? ==>
          s.intents[a].token != s.intents[b].token)
  }

  ghost predicate StoreOk(s: Store) {
    && s.logs.Keys == s.intents.Keys && s.claims.Keys == s.intents.Keys
    && (forall id :: id in s.intents ==> id < s.nextId && RowOk(s.intents[id], s.logs[id], s.claims[id]))
    && Unique(s)
  }

  /** What a client read about a row still says enough about the row. */
  predicate SeenOk(s: Store, id: int, who: Identity, now: int, seen: Intent) {
    && id in s.intents
    && s.intents[id].target == who && s.intents[id].expiresAt == seen.expiresAt
    && (seen.state.Pending? ==> now < seen.expiresAt)
    && (!seen.state.Pending? ==> !s.intents[id].state.Pending?)
  }

  predicate ClientOk(s: Store, k: Client) {
    match k
    case Checking(id, _, who, now, seen) => SeenOk(s, id, who, now, seen)
    case Taking(id, _, who, now, seen) => SeenOk(s, id, who, now, seen)
    case _ => true
  }

  ghost predicate SystemOk(y: System) {
    StoreOk(y.store) && forall c :: c in y.clients ==> ClientOk(y.store, y.clients[c])
  }

  // ---- How a row may move -----------------------------------------------------------------------------------------

  predicate Moves(a: Status, b: Status) {
    match a
    case Pending => b.Claimed? || b.Expired?
    case Claimed => b.Running? || b.Completed? || b.Failed?
    case Running => b.Completed? || b.Failed?
    case _ => false
  }

  /** One statement's effect on one row: nothing, or one allowed move that keeps what was fixed before. */
  predicate RowStep(a: Intent, b: Intent) {
    b == a ||
    (&& Moves(a.state, b.state)
     && b.target == a.target && b.key == a.key && b.createdAt == a.createdAt && b.expiresAt == a.expiresAt
     && (!a.state.Pending? ==> b.token == a.token && b.claimedBy == a.claimedBy && b.claimedAt == a.claimedAt))
  }

  ghost predicate StoreStep(s: Store, t: Store) {
    && s.nextId <= t.nextId
    && (forall id :: id in s.intents ==> id in t.intents && RowStep(s.intents[id], t.intents[id]))
    && (forall id :: id in t.intents && id !in s.intents ==> t.intents[id].state.Pending?)
    && (forall id :: id in s.logs ==> id in t.logs && s.logs[id] <= t.logs[id])
    && (forall id :: id in s.claims ==> id in t.claims && s.claims[id] <= t.claims[id])
  }

  lemma UniqueStays(s: Store, t: Store, id: int)
    requires Unique(s) && id in s.intents && t.intents.Keys == s.intents.Keys
    requires forall x :: x in s.intents ==> t.intents[x].key == s.intents[x].key
    requires forall x :: x in s.intents && x != id ==> t.intents[x].token == s.intents[x].token
    requires t.intents[id].token.Some? && t.intents[id].token != s.intents[id].token ==>
               !TokenTaken(s, t.intents[id].token.value, id)
    ensures Unique(t)
  {
    forall a, b | a in t.intents && b in t.intents && a != b && t.intents[a].token.Some?
      ensures t.intents[a].token != t.intents[b].token
    {
      assert a in s.intents && b in s.intents;
    }
  }

  /** Two tables that differ in one row, and in that row by an allowed step. */
  ghost predicate Replaces(s: Store, t: Store, id: int) {
    && id in s.intents && t.nextId == s.nextId
    && t.intents.Keys == s.intents.Keys && t.logs.Keys == s.logs.Keys && t.claims.Keys == s.claims.Keys
    && id in s.logs && id in s.claims
    && (forall x :: x in s.intents && x != id ==> t.intents[x] == s.intents[x])
    && (forall x :: x in s.logs && x != id ==> t.logs[x] == s.logs[x])
    && (forall x :: x in s.claims && x != id ==> t.claims[x] == s.claims[x])
    && RowStep(s.intents[id], t.intents[id]) && RowOk(t.intents[id], t.logs[id], t.claims[id])
    && s.logs[id] <= t.logs[id] && s.claims[id] <= t.claims[id]
    && (t.intents[id].token.Some? && t.intents[id].token != s.intents[id].token ==>
          !TokenTaken(s, t.intents[id].token.value, id))
  }

  lemma ReplacedRows(s: Store, t: Store, id: int)
    requires StoreOk(s) && Replaces(s, t, id)
    ensures forall x :: x in t.intents ==> x < t.nextId && RowOk(t.intents[x], t.logs[x], t.claims[x])
    ensures t.logs.Keys == t.intents.Keys && t.claims.Keys == t.intents.Keys
  {
    hide RowOk, RowStep, Unique, TokenTaken;
    forall x | x in t.intents ensures x < t.nextId && RowOk(t.intents[x], t.logs[x], t.claims[x]) {
      assert x in s.intents;
    }
  }

  lemma ReplacedUnique(s: Store, t: Store, id: int)
    requires Unique(s) && Replaces(s, t, id)
    ensures Unique(t)
  {
    forall x | x in s.intents ensures t.intents[x].key == s.intents[x].key {}
    hide RowOk, RowStep, Unique, TokenTaken;
    UniqueStays(s, t, id);
  }

  lemma ReplacedStep(s: Store, t: Store, id: int)
    requires s.logs.Keys == s.intents.Keys && s.claims.Keys == s.intents.Keys && Replaces(s, t, id)
    ensures StoreStep(s, t)
  {
    hide RowOk, RowStep, TokenTaken;
    forall x | x in s.intents ensures RowStep(s.intents[x], t.intents[x]) {
      if x != id { SameRow(s.intents[x]); }
    }
  }

  /** Replacing one row by a later version of it. */
  lemma RowReplaced(s: Store, t: Store, id: int)
    requires StoreOk(s) && Replaces(s, t, id)
    ensures StoreOk(t) && StoreStep(s, t)
  {
    hide Replaces, RowOk, Unique;
    ReplacedRows(s, t, id);
    ReplacedUnique(s, t, id);
    ReplacedStep(s, t, id);
    hide StoreStep;
  }

  /** A row, its log and its claims are put in the place of the old ones. */
  lemma RowPut(s: Store, t: Store, id: int, i: Intent, log: seq<Event>, claims: seq<string>)
    requires StoreOk(s) && id in s.intents && t.nextId == s.nextId
    requires t.intents == s.intents[id := i] && t.logs == s.logs[id := log] && t.claims == s.claims[id := claims]
    requires RowStep(s.intents[id], i) && RowOk(i, log, claims) && s.logs[id] <= log && s.claims[id] <= claims
    requires i.token.Some? && i.token != s.intents[id].token ==> !TokenTaken(s, i.token.value, id)
    ensures StoreOk(t) && StoreStep(s, t)
  {
    hide RowOk, RowStep, Unique, TokenTaken;
    assert Replaces(s, t, id);
    RowReplaced(s, t, id);
  }

  lemma SameLog(s: Store, id: int)
    requires StoreOk(s) && id in s.intents
    ensures id in s.logs && id in s.claims
    ensures s.logs == s.logs[id := s.logs[id]] && s.claims == s.claims[id := s.claims[id]]
    ensures RowOk(s.intents[id], s.logs[id], s.claims[id])
  {
    hide RowOk, Unique;
  }

  lemma SameRow(i: Intent)
    ensures RowStep(i, i)
  {
  }

  /** The table after an insert under a key that nobody holds. */
  function Inserted(s: Store, intent: Intent): (t: Store) {
    s.(nextId := s.nextId + 1, intents := s.intents[s.nextId := intent], logs := s.logs[s.nextId := []],
       claims := s.claims[s.nextId := []])
  }

  lemma InsertedUnique(s: Store, intent: Intent)
    requires Unique(s) && intent.token.None? && !KeyTaken(s, intent.key) && s.nextId !in s.intents
    ensures Unique(Inserted(s, intent))
  {
    forall id | id in s.intents ensures s.intents[id].key != intent.key { assert !HoldsKey(s, intent.key, id); }
    hide KeyTaken;
  }

  lemma InsertedRows(s: Store, intent: Intent)
    requires StoreOk(s) && RowOk(intent, [], [])
    ensures var t := Inserted(s, intent);
            && t.logs.Keys == t.intents.Keys && t.claims.Keys == t.intents.Keys && s.nextId !in s.intents
            && forall id :: id in t.intents ==> id < t.nextId && RowOk(t.intents[id], t.logs[id], t.claims[id])
  {
    hide RowOk, Unique;
  }

  lemma InsertedOk(s: Store, intent: Intent)
    requires StoreOk(s) && intent.state.Pending? && RowOk(intent, [], []) && !KeyTaken(s, intent.key)
    ensures StoreOk(Inserted(s, intent)) && HoldsKey(Inserted(s, intent), intent.key, s.nextId)
  {
    PendingHasNoToken(intent);
    hide RowOk, Unique, KeyTaken;
    InsertedRows(s, intent);
    InsertedUnique(s, intent);
  }

  lemma PendingHasNoToken(i: Intent)
    requires i.state.Pending? && RowOk(i, [], [])
    ensures i.token.None?
  {
  }

  lemma InsertedStep(s: Store, intent: Intent)
    requires StoreOk(s) && intent.state.Pending?
    ensures StoreStep(s, Inserted(s, intent))
  {
    var t := Inserted(s, intent);
    forall id | id in s.intents
      ensures id in t.intents && RowStep(s.intents[id], t.intents[id]) { SameRow(s.intents[id]); }
    hide RowOk, RowStep, Unique;
  }

  lemma CreateStep(s: Store, intent: Intent)
    requires StoreOk(s) && intent.state.Pending? && RowOk(intent, [], [])
    ensures StoreOk(Create(s, intent).0) && StoreStep(s, Create(s, intent).0)
    ensures var (t, id) := Create(s, intent); HoldsKey(t, intent.key, id)
  {
    SameStore(s);
    hide StoreOk, StoreStep, RowOk, HoldsKey;
    if !KeyTaken(s, intent.key) {
      InsertedOk(s, intent);
      InsertedStep(s, intent);
      assert Create(s, intent) == (Inserted(s, intent), s.nextId);
    }
  }

  lemma ClaimedRow(i: Intent, log: seq<Event>, claims: seq<string>, token: string, who: Identity, now: int)
    requires RowOk(i, log, claims) && i.state.Pending? && i.target == who && now < i.expiresAt
    ensures var j := Claim(i, token, who, now);
            RowStep(i, j) && RowOk(j, log, claims + [token]) && j.token == Some(token)
  {
  }

  /** The claim is right although the row was judged on an earlier read. */
  lemma ClaimStep(s: Store, id: int, token: string, who: Identity, now: int, seen: Intent)
    requires StoreOk(s) && SeenOk(s, id, who, now, seen)
    ensures var t := ClaimPending(s, id, token, who, now).0; StoreOk(t) && StoreStep(s, t)
  {
    SameStore(s);
    SameLog(s, id);
    hide StoreOk, StoreStep, RowOk, RowStep, TokenTaken, Claim;
    if s.intents[id].state.Pending? && !TokenTaken(s, token, id) {
      var i, claims := Claim(s.intents[id], token, who, now), s.claims[id] + [token];
      ClaimedRow(s.intents[id], s.logs[id], s.claims[id], token, who, now);
      RowPut(s, ClaimPending(s, id, token, who, now).0, id, i, s.logs[id], claims);
    }
  }

  lemma ExpiredRow(i: Intent, log: seq<Event>, claims: seq<string>, at: int)
    requires RowOk(i, log, claims) && i.state.Pending?
    ensures RowStep(i, Expire(i, at)) && RowOk(Expire(i, at), log, claims) && Expire(i, at).token == i.token
  {
  }

  lemma ExpireStep(s: Store, id: int, at: int)
    requires StoreOk(s)
    ensures StoreOk(ExpireIfPending(s, id, at)) && StoreStep(s, ExpireIfPending(s, id, at))
  {
    SameStore(s);
    hide StoreOk, StoreStep, RowOk, RowStep, TokenTaken, Expire;
    if id in s.intents && s.intents[id].state.Pending? && s.intents[id].createdAt <= at {
      SameLog(s, id);
      ExpiredRow(s.intents[id], s.logs[id], s.claims[id], at);
      RowPut(s, ExpireIfPending(s, id, at), id, Expire(s.intents[id], at), s.logs[id], s.claims[id]);
    }
  }

  lemma ExpireAllStep(s: Store, before: int, at: int)
    requires StoreOk(s)
    ensures var t := ExpirePendingBefore(s, before, at).0; StoreOk(t) && StoreStep(s, t)
  {
    var (t, ok) := ExpirePendingBefore(s, before, at);
    if ok {
      assert t.intents.Keys == s.intents.Keys;
      forall id | id in s.intents
        ensures RowStep(s.intents[id], t.intents[id]) && RowOk(t.intents[id], t.logs[id], t.claims[id])
        ensures t.intents[id].key == s.intents[id].key && t.intents[id].token == s.intents[id].token
      {
        OverdueRow(s.intents[id], s.logs[id], s.claims[id], before, at);
      }
      hide RowOk, RowStep;
      assert Unique(t) by { forall a, b | a in t.intents && b in t.intents ensures a in s.intents && b in s.intents {} }
    } else {
      SameStore(s);
    }
  }

  lemma OverdueRow(i: Intent, log: seq<Event>, claims: seq<string>, before: int, at: int)
    requires RowOk(i, log, claims)
    ensures var j := if Overdue(i, before) then Expire(i, at) else i;
            RowStep(i, j) && RowOk(j, log, claims) && j.key == i.key && j.token == i.token
  {
  }

  /** A report that was accepted moves the row as allowed, and the event fits its new state. */
  lemma ReportedRow(i: Intent, log: seq<Event>, claims: seq<string>, event: Event, token: string, at: int)
    requires RowOk(i, log, claims) && CanReport(i, event, token).None?
    ensures var j := Reported(i, event, at); RowStep(i, j) && RowOk(j, log + [event], claims) && j.token == i.token
  {
    match i.state
    case Claimed => assert log + [event] == [event];
    case Running => assert log + [event] == [EvRunning, event];
    case _ =>
  }

  lemma ReportStep(s: Store, id: int, token: string, event: Event, at: int)
    requires StoreOk(s)
    ensures var t := ReportEvent(s, id, token, event, at).0; StoreOk(t) && StoreStep(s, t)
  {
    SameStore(s);
    hide StoreOk, StoreStep, RowOk, RowStep, CanReport, Reported, TokenTaken;
    var (t, r) := ReportEvent(s, id, token, event, at);
    if r.Ok? {
      SameLog(s, id);
      ReportedRow(s.intents[id], s.logs[id], s.claims[id], event, token, at);
      RowPut(s, t, id, Reported(s.intents[id], event, at), s.logs[id] + [event], s.claims[id]);
    }
  }

  /** When a report is accepted, and what it then leaves. */
  lemma ReportMeans(s: Store, id: int, token: string, event: Event, at: int)
    requires StoreOk(s)
    ensures var (t, r) := ReportEvent(s, id, token, event, at);
            && (r.Ok? <==>
                  && id in s.intents && s.intents[id].token == Some(token)
                  && (s.intents[id].state.Claimed? || (s.intents[id].state.Running? && !event.EvRunning?))
                  && (event.EvRunning? || s.intents[id].createdAt <= at))
            && (r.Ok? ==>
                  && t.intents == s.intents[id := r.value] && id in s.logs
                  && t.logs == s.logs[id := s.logs[id] + [event]]
                  && (if event.EvRunning? then r.value.state.Running?
                      else r.value.state.IsTerminal() && r.value.completedAt == Some(at)))
            && (r.Err? ==> t == s)
  {
    if id in s.intents { SameLog(s, id); }
    hide StoreOk;
  }

  lemma FailedRow(i: Intent, log: seq<Event>, claims: seq<string>, at: int)
    requires RowOk(i, log, claims) && i.state.Running?
    ensures var j := i.(state := Status.Failed, completedAt := Some(at)); RowStep(i, j) && RowOk(j, log, claims)
  {
  }

  lemma FailStep(s: Store, id: int, at: int)
    requires StoreOk(s)
    ensures StoreOk(FailRunning(s, id, at)) && StoreStep(s, FailRunning(s, id, at))
  {
    SameStore(s);
    hide StoreOk, StoreStep, RowOk, RowStep, TokenTaken;
    if id in s.intents && s.intents[id].state.Running? && s.intents[id].createdAt <= at {
      SameLog(s, id);
      FailedRow(s.intents[id], s.logs[id], s.claims[id], at);
      RowPut(s, FailRunning(s, id, at), id, s.intents[id].(state := Status.Failed, completedAt := Some(at)), s.logs[id],
             s.claims[id]);
    }
  }

  /** A client's knowledge survives whatever others do to the store. */
  lemma SeenStays(s: Store, t: Store, k: Client)
    requires ClientOk(s, k) && StoreStep(s, t)
    ensures ClientOk(t, k)
  {
  }

  lemma ClientsStay(s: Store, t: Store, clients: map<int, Client>)
    requires StoreStep(s, t) && forall c :: c in clients ==> ClientOk(s, clients[c])
    ensures forall c :: c in clients ==> ClientOk(t, clients[c])
  {
    forall c | c in clients ensures ClientOk(t, clients[c]) { SeenStays(s, t, clients[c]); }
  }

  lemma StoreOf(y: System, a: Action)
    requires SystemOk(y)
    ensures StoreOk(Act(y, a).store) && StoreStep(y.store, Act(y, a).store)
  {
    hide StoreOk, StoreStep, Create, ClaimPending, ReportEvent, ExpirePendingBefore, ExpireIfPending, FailRunning,
      Listed;
    SameStore(y.store);
    match a
    case DoCreate(target, key, ttl, at) =>
      if key != "" && ttl > 0 { CreateStep(y.store, NewIntent(target, key, ttl, at).value); }
    case Take(c) =>
      var k := At(y, c);
      if k.Taking? { ClaimStep(y.store, k.id, k.token, k.who, k.now, k.seen); }
    case GiveUp(c) => if At(y, c).GivingUp? { ExpireStep(y.store, At(y, c).id, At(y, c).now); }
    case DoReport(id, token, event, at) => ReportStep(y.store, id, token, event, at);
    case StartReap(c, pendingBefore, at) => ExpireAllStep(y.store, pendingBefore, at);
    case Kill(c) => if At(y, c).Killing? { FailStep(y.store, At(y, c).id, At(y, c).now); }
    case _ =>
  }

  lemma SameStore(s: Store)
    ensures StoreStep(s, s)
  {
  }

  /** Every step of every client keeps the invariant and moves rows only as allowed. */
  lemma ActKeeps(y: System, a: Action)
    requires SystemOk(y)
    ensures SystemOk(Act(y, a)) && StoreStep(y.store, Act(y, a).store)
  {
    hide StoreStep, StoreOk, Act, ClientOk;
    StoreOf(y, a);
    ClientsMove(y, a);
    ClientsStay(y.store, Act(y, a).store, Act(y, a).clients);
  }

  /** A client only takes with it what it read, and decides on it as `Claim` does. */
  lemma ClientsMove(y: System, a: Action)
    requires forall c :: c in y.clients ==> ClientOk(y.store, y.clients[c])
    ensures forall c :: c in Act(y, a).clients ==> ClientOk(y.store, Act(y, a).clients[c])
  {
    hide Create, ClaimPending, ReportEvent, ExpirePendingBefore, ExpireIfPending, FailRunning, Listed, NewIntent;
    match a
    case Read(c) =>
    case Answer(c, alive) =>
    case Visit(c, alive) =>
    case _ =>
  }

  // ---- Whole runs -------------------------------------------------------------------------------------------------

  predicate Follows(a: Status, b: Status) {
    a == b || Moves(a, b) || (a.Pending? && (b.Running? || b.Completed? || b.Failed?))
  }

  /** What a run of any length does to a row that existed at its start. */
  predicate RowLater(a: Intent, b: Intent) {
    && Follows(a.state, b.state)
    && b.target == a.target && b.key == a.key && b.createdAt == a.createdAt && b.expiresAt == a.expiresAt
    && (a.token.Some? ==> b.token == a.token && b.claimedBy == a.claimedBy && b.claimedAt == a.claimedAt)
    && (a.state.IsTerminal() ==> b == a)
  }

  ghost predicate StoreLater(s: Store, t: Store) {
    && (forall id :: id in s.intents ==> id in t.intents && RowLater(s.intents[id], t.intents[id]))
    && (forall id :: id in s.logs ==> id in t.logs && s.logs[id] <= t.logs[id])
    && (forall id :: id in s.claims ==> id in t.claims && s.claims[id] <= t.claims[id])
  }

  lemma StepLater(s: Store, t: Store, u: Store)
    requires StoreOk(s) && StoreStep(s, t) && StoreLater(t, u)
    ensures StoreLater(s, u)
  {
    forall id | id in s.intents ensures id in u.intents && RowLater(s.intents[id], u.intents[id]) {
      assert RowStep(s.intents[id], t.intents[id]) && RowLater(t.intents[id], u.intents[id]);
      assert RowOk(s.intents[id], s.logs[id], s.claims[id]);
    }
  }

  lemma LaterReflexive(s: Store)
    ensures StoreLater(s, s)
  {
  }

  lemma {:induction false} RunKeeps(y: System, actions: seq<Action>)
    requires SystemOk(y)
    ensures SystemOk(Run(y, actions)) && StoreLater(y.store, Run(y, actions).store)
    decreases |actions|
  {
    hide SystemOk, StoreLater, StoreStep, Act;
    LaterReflexive(y.store);
    if actions != [] {
      var z := Act(y, actions[0]);
      ActKeeps(y, actions[0]);
      RunKeeps(z, actions[1..]);
      StoreIsOk(y);
      StepLater(y.store, z.store, Run(z, actions[1..]).store);
    }
  }

  lemma StoreIsOk(y: System)
    requires SystemOk(y)
    ensures StoreOk(y.store)
  {
  }

  lemma {:induction false} RunSplits(y: System, before: seq<Action>, after: seq<Action>)
    ensures Run(y, before + after) == Run(Run(y, before), after)
    decreases |before|
  {
    hide Act;
    if before == [] {
      assert before + after == after;
    } else {
      assert (before + after)[1..] == before[1..] + after;
      RunSplits(Act(y, before[0]), before[1..], after);
    }
  }

  /**
    Safety over every interleaving of creates, claims, reports and reapers from an empty table.  Between any two points
    of a run a row only moves forward, a terminal row never changes again, and whoever holds the claim keeps it.
  */
  lemma Lifecycle(before: seq<Action>, after: seq<Action>)
    ensures StoreLater(Run(Start, before).store, Run(Start, before + after).store)
  {
    RunKeeps(Start, before);
    RunKeeps(Run(Start, before), after);
    RunSplits(Start, before, after);
  }

  /** At most one claim of an intent ever succeeded, and it was made by the target before the intent expired. */
  lemma ClaimedOnceByTarget(actions: seq<Action>, id: int)
    requires id in Run(Start, actions).store.intents
    ensures var s := Run(Start, actions).store;
            var i := s.intents[id];
            && id in s.claims && |s.claims[id]| <= 1
            && (|s.claims[id]| == 1 <==> !i.state.Pending? && !i.state.Expired?)
            && (|s.claims[id]| == 1 ==>
                  && i.token == Some(s.claims[id][0]) && i.claimedBy == Some(i.target)
                  && i.claimedAt.Some? && i.claimedAt.value < i.expiresAt)
  {
    RunKeeps(Start, actions);
    var s := Run(Start, actions).store;
    hide Run;
    assert RowOk(s.intents[id], s.logs[id], s.claims[id]);
  }

  /** What the log of a sound row tells. */
  ghost predicate LogTells(i: Intent, log: seq<Event>) {
    && LogFits(i.state, log)
    && (log == [] <==> i.state.Pending? || i.state.Claimed? || i.state.Expired?)
    && (log == [EvRunning] ==> i.state.Running? || i.state.Failed?)
    && (|log| == 2 ==> log[0] == EvRunning)
    && |log| <= 2
    && (log != [] && log[|log| - 1] == EvCompleted <==> i.state.Completed?)
    && (log != [] && log[|log| - 1] == EvFailed ==> i.state.Failed?)
    && (i.completedAt.Some? <==> i.state.IsTerminal())
  }

  lemma RowTells(i: Intent, log: seq<Event>, claims: seq<string>)
    requires RowOk(i, log, claims)
    ensures LogTells(i, log)
  {
  }

  /** The events of an intent tell its state up to claiming, expiry and reaping. */
  lemma LogTellsState(actions: seq<Action>, id: int)
    requires id in Run(Start, actions).store.intents
    ensures var s := Run(Start, actions).store; id in s.logs && LogTells(s.intents[id], s.logs[id])
  {
    RunKeeps(Start, actions);
    StoreIsOk(Run(Start, actions));
    var s := Run(Start, actions).store;
    hide Run, StoreOk, SystemOk, StoreLater, RowOk, LogTells;
    SameLog(s, id);
    RowTells(s.intents[id], s.logs[id], s.claims[id]);
  }

  /** A repeated create answers with the first row for the key, whatever happened in between. */
  lemma CreateIsIdempotent(before: seq<Action>, after: seq<Action>, a: Intent, b: Intent)
    requires a.state.Pending? && RowOk(a, [], []) && a.key == b.key
    ensures var y := Run(Start, before);
            var (s, id) := Create(y.store, a);
            var t := Run(y.(store := s), after).store;
            Create(t, b) == (t, id)
  {
    RunKeeps(Start, before);
    var y := Run(Start, before);
    var (s, id) := Create(y.store, a);
    CreateStep(y.store, a);
    ClientsStay(y.store, s, y.clients);
    RunKeeps(y.(store := s), after);
    var t := Run(y.(store := s), after).store;
    hide Run;
    assert RowLater(s.intents[id], t.intents[id]);
    assert HoldsKey(t, b.key, id);
  }
}
