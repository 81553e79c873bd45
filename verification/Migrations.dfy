/**
  The migration runner: migration/runner.go over the migrations that migration/migrations.go discovers.

  A schema's table of applied versions is a sequence of rows.  An attempt meets a script of call outcomes and stops at
  the first failure; a commit may take effect and still report an error.  `log` is history: what was ever committed.
*/
module Migrations {
  import opened Core
  import opened Text

  datatype Migration = Migration(schema: string, version: nat, name: string)

  datatype Database = Database(rows: map<string, seq<nat>>, log: seq<Migration>)

  datatype Outcome = Done | Failed | Lost

  datatype State = State(db: Database, script: seq<Outcome>, halted: bool)

  // ---- Order and grouping -----------------------------------------------------------------------------------------

  predicate Less(a: Migration, b: Migration) {
    if a.schema == b.schema then a.version < b.version else StringBefore(a.schema, b.schema)
  }

  ghost predicate Sorted(ms: seq<Migration>) {
    forall i, j :: 0 <= i < j < |ms| ==> Less(ms[i], ms[j])
  }

  /** No two migrations share schema and version. */
  ghost predicate Unique(ms: seq<Migration>) {
    forall i, j :: 0 <= i < j < |ms| ==> ms[i].schema != ms[j].schema || ms[i].version != ms[j].version
  }

  function Group(ms: seq<Migration>, schema: string): (r: seq<Migration>)
    decreases |ms|
  {
    if ms == [] then []
    else (if ms[0].schema == schema then [ms[0]] else []) + Group(ms[1..], schema)
  }

  /** The groups one after the other. */
  function Flat(ms: seq<Migration>, names: seq<string>): (r: seq<Migration>)
    decreases |names|
  {
    if names == [] then [] else Group(ms, names[0]) + Flat(ms, names[1..])
  }

  /** The schema names of the migrations, sorted, each once. */
  ghost predicate IsNames(names: seq<string>, ms: seq<Migration>) {
    && (forall i, j :: 0 <= i < j < |names| ==> StringBefore(names[i], names[j]))
    && (forall n :: n in names <==> HasSchema(ms, n))
  }

  ghost predicate HasSchema(ms: seq<Migration>, n: string) {
    exists i :: 0 <= i < |ms| && ms[i].schema == n
  }

  // ---- The database -----------------------------------------------------------------------------------------------

  function Rows(db: Database, schema: string): (r: seq<nat>) {
    if schema in db.rows then db.rows[schema] else []
  }

  /** `coalesce(max(version), 0)`. */
  function Max(rows: seq<nat>): (n: nat)
    ensures forall i :: 0 <= i < |rows| ==> rows[i] <= n
    ensures n == 0 || n in rows
    decreases |rows|
  {
    if rows == [] then 0 else
      var rest := Max(rows[..|rows| - 1]);
      if rows[|rows| - 1] > rest then rows[|rows| - 1] else rest
  }

  function Current(db: Database, schema: string): (n: nat) {
    Max(Rows(db, schema))
  }

  function Commit(db: Database, m: Migration): (r: Database) {
    Database(db.rows[m.schema := Rows(db, m.schema) + [m.version]], db.log + [m])
  }

  // ---- An attempt -------------------------------------------------------------------------------------------------

  function Call(s: State): (r: (State, Outcome)) {
    if s.halted || s.script == [] then (s.(halted := true), Failed)
    else (s.(script := s.script[1..], halted := !s.script[0].Done?), s.script[0])
  }

  /** One transaction: run the migration and record its version; the primary key refuses a version twice. */
  function Apply(s: State, m: Migration): (r: State) {
    var (t, o) := Call(s);
    if o.Failed? then t
    else if m.version in Rows(t.db, m.schema) then t.(halted := true)
    else t.(db := Commit(t.db, m))
  }

  function ApplyGroup(s: State, group: seq<Migration>, current: nat): (r: State)
    decreases |group|
  {
    if s.halted || group == [] then s
    else ApplyGroup(if group[0].version <= current then s else Apply(s, group[0]), group[1..], current)
  }

  /** Create the schema and its table, read the current version, apply what is newer. */
  function UpSchema(s: State, ms: seq<Migration>, schema: string): (r: State) {
    var s1 := Call(s).0;
    if s1.halted then s1 else
      var s2 := Call(s1).0;
      if s2.halted then s2 else
        var s3 := Call(s2).0;
        if s3.halted then s3 else ApplyGroup(s3, Group(ms, schema), Current(s3.db, schema))
  }

  function UpSchemas(s: State, ms: seq<Migration>, names: seq<string>): (r: State)
    decreases |names|
  {
    if s.halted || names == [] then s else UpSchemas(UpSchema(s, ms, names[0]), ms, names[1..])
  }

  function Up(db: Database, script: seq<Outcome>, ms: seq<Migration>, names: seq<string>): (r: State) {
    UpSchemas(State(db, script, false), ms, names)
  }

  /** The migrations still to be applied, in order. */
  function Pending(ms: seq<Migration>, db: Database): (r: seq<Migration>)
    ensures |r| <= |ms|
    decreases |ms|
  {
    if ms == [] then []
    else (if ms[0].version > Current(db, ms[0].schema) then [ms[0]] else []) + Pending(ms[1..], db)
  }

  // ---- The groups of a sorted list are the list -------------------------------------------------------------------

  lemma {:induction false} GroupMembers(ms: seq<Migration>, schema: string)
    ensures forall i :: 0 <= i < |Group(ms, schema)| ==>
              Group(ms, schema)[i].schema == schema && Group(ms, schema)[i] in ms
    decreases |ms|
  {
    if ms != [] { GroupMembers(ms[1..], schema); }
  }

  lemma {:induction false} GroupAscends(ms: seq<Migration>, schema: string)
    requires Sorted(ms)
    ensures Ascending(Group(ms, schema))
    decreases |ms|
  {
    if ms != [] {
      GroupAscends(ms[1..], schema);
      GroupMembers(ms[1..], schema);
      var rest := Group(ms[1..], schema);
      forall j | 0 <= j < |rest| ensures ms[0].schema == schema ==> ms[0].version < rest[j].version {
        var k :| 0 <= k < |ms[1..]| && ms[1..][k] == rest[j];
        assert Less(ms[0], ms[k + 1]);
      }
    }
  }

  ghost predicate Ascending(g: seq<Migration>) {
    forall i, j :: 0 <= i < j < |g| ==> g[i].version < g[j].version
  }

  lemma {:induction false} GroupSkips(ms: seq<Migration>, schema: string)
    requires forall i :: 0 <= i < |ms| ==> ms[i].schema != schema
    ensures Group(ms, schema) == []
    decreases |ms|
  {
    if ms != [] { GroupSkips(ms[1..], schema); }
  }

  lemma {:induction false} FlatSkips(m: Migration, ms: seq<Migration>, names: seq<string>)
    requires m.schema !in names
    ensures Flat([m] + ms, names) == Flat(ms, names)
    decreases |names|
  {
    if names != [] {
      assert names[0] in names;
      PrependOther(m, ms, names[0]);
      hide Group;
      FlatSkips(m, ms, names[1..]);
    }
  }

  lemma PrependOther(m: Migration, ms: seq<Migration>, schema: string)
    requires m.schema != schema
    ensures Group([m] + ms, schema) == Group(ms, schema)
  {
    assert ([m] + ms)[1..] == ms;
  }

  lemma TailSchema(ms: seq<Migration>, n: string)
    requires ms != []
    ensures HasSchema(ms, n) <==> HasSchema(ms[1..], n) || n == ms[0].schema
  {
    var tail := ms[1..];
    if j :| 0 <= j < |tail| && tail[j].schema == n { assert ms[j + 1].schema == n; }
    if j :| 1 <= j < |ms| && ms[j].schema == n { assert tail[j - 1].schema == n; }
    if ms[0].schema == n { assert HasSchema(ms, n); }
  }

  /** A name that no migration has adds nothing. */
  lemma NamesOfTail(ms: seq<Migration>, names: seq<string>)
    requires ms != [] && Sorted(ms) && IsNames(names, ms)
    ensures names != [] && names[0] == ms[0].schema
    ensures (|ms| > 1 && ms[1].schema == ms[0].schema) ==> IsNames(names, ms[1..])
    ensures !(|ms| > 1 && ms[1].schema == ms[0].schema) ==> IsNames(names[1..], ms[1..])
  {
    assert HasSchema(ms, ms[0].schema) && ms[0].schema in names;
    var k :| 0 <= k < |names| && names[k] == ms[0].schema;
    assert names[0] in names && HasSchema(ms, names[0]);
    var i :| 0 <= i < |ms| && ms[i].schema == names[0];
    StringTotal(names[0], ms[0].schema);
    assert i > 0 ==> Less(ms[0], ms[i]);
    assert k > 0 ==> StringBefore(names[0], names[k]);
    var tail := ms[1..];
    forall n ensures HasSchema(ms, n) <==> HasSchema(tail, n) || n == ms[0].schema {
      TailSchema(ms, n);
    }
    if |ms| > 1 && ms[1].schema == ms[0].schema {
      assert tail[0].schema == ms[0].schema;
    } else {
      LaterSchemas(ms);
      assert forall j :: 0 <= j < |tail| ==> tail[j] == ms[j + 1];
      NamesBeyond(names);
    }
  }

  lemma LaterSchemas(ms: seq<Migration>)
    requires ms != [] && Sorted(ms) && !(|ms| > 1 && ms[1].schema == ms[0].schema)
    ensures forall j :: 1 <= j < |ms| ==> ms[j].schema != ms[0].schema
  {
    forall j | 1 <= j < |ms| ensures ms[j].schema != ms[0].schema {
      assert Less(ms[0], ms[1]) && (j > 1 ==> Less(ms[1], ms[j]));
      StringTotal(ms[0].schema, ms[1].schema);
    }
  }

  lemma NamesBeyond(names: seq<string>)
    requires names != [] && forall i, j :: 0 <= i < j < |names| ==> StringBefore(names[i], names[j])
    ensures forall n :: n in names[1..] <==> n in names && n != names[0]
  {
    StringTotal(names[0], names[0]);
    forall n ensures n in names[1..] <==> n in names && n != names[0] {
      if n in names[1..] { var i :| 0 <= i < |names[1..]| && names[1..][i] == n; assert names[i + 1] == n; }
      if n in names && n != names[0] { var i :| 0 <= i < |names| && names[i] == n; assert names[1..][i - 1] == n; }
    }
  }

  lemma {:induction false} FlatIsAll(ms: seq<Migration>, names: seq<string>)
    requires Sorted(ms) && IsNames(names, ms)
    ensures Flat(ms, names) == ms
    decreases |ms|
  {
    if ms == [] {
      assert forall i :: 0 <= i < |names| ==> names[i] in names;
    } else {
      NamesOfTail(ms, names);
      var m, tail := ms[0], ms[1..];
      assert ms == [m] + tail;
      NamesBeyond(names);
      FlatSkips(m, tail, names[1..]);
      if |ms| > 1 && ms[1].schema == m.schema {
        FlatIsAll(tail, names);
      } else {
        FlatIsAll(tail, names[1..]);
        LaterSchemas(ms);
        GroupSkips(tail, m.schema);
      }
    }
  }

  // ---- What a stretch of an attempt does --------------------------------------------------------------------------

  /** From s to r, k more of the listed migrations were committed, in order, and nothing else. */
  ghost predicate Advanced(s: Database, r: Database, ms: seq<Migration>, k: nat) {
    && k <= |Pending(ms, s)|
    && r.log == s.log + Pending(ms, s)[..k]
    && Pending(ms, r) == Pending(ms, s)[k..]
  }

  ghost predicate OnlyIn(s: Database, r: Database, names: seq<string>) {
    forall n :: n !in names ==> Rows(r, n) == Rows(s, n)
  }

  ghost predicate Grows(s: Database, r: Database) {
    forall n :: Rows(s, n) <= Rows(r, n)
  }

  lemma {:induction false} MaxGrows(a: seq<nat>, b: seq<nat>)
    requires a <= b
    ensures Max(a) <= Max(b)
    decreases |a|
  {
    if a != [] {
      MaxGrows(a[..|a| - 1], b);
      assert a[|a| - 1] == b[|a| - 1];
    }
  }

  lemma CurrentGrows(s: Database, r: Database, n: string)
    requires Grows(s, r)
    ensures Current(s, n) <= Current(r, n)
  {
    MaxGrows(Rows(s, n), Rows(r, n));
  }

  lemma {:induction false} PendingConcat(a: seq<Migration>, b: seq<Migration>, db: Database)
    ensures Pending(a + b, db) == Pending(a, db) + Pending(b, db)
    decreases |a|
  {
    hide Current;
    if a == [] {
      assert a + b == b;
    } else {
      PendingConcat(a[1..], b, db);
      assert (a + b)[1..] == a[1..] + b;
    }
  }

  lemma {:induction false} PendingSame(ms: seq<Migration>, s: Database, r: Database)
    requires forall i :: 0 <= i < |ms| ==> Rows(r, ms[i].schema) == Rows(s, ms[i].schema)
    ensures Pending(ms, r) == Pending(ms, s)
    decreases |ms|
  {
    if ms != [] { PendingSame(ms[1..], s, r); }
  }

  /** Versions above the current one rise with the group, so the version read once stays good enough. */
  ghost predicate ReadIsGood(db: Database, group: seq<Migration>, schema: string, current: nat) {
    forall i :: 0 <= i < |group| ==>
      group[i].schema == schema && (group[i].version > current <==> group[i].version > Current(db, schema))
  }

  lemma CurrentAfter(db: Database, m: Migration)
    requires m.version > Current(db, m.schema)
    ensures Current(Commit(db, m), m.schema) == m.version && m.version !in Rows(db, m.schema)
  {
    var rows := Rows(db, m.schema);
    assert (rows + [m.version])[..|rows|] == rows;
  }

  lemma CommitEffect(db: Database, m: Migration)
    requires m.version > Current(db, m.schema)
    ensures var t := Commit(db, m);
            Grows(db, t) && OnlyIn(db, t, [m.schema]) && Current(t, m.schema) == m.version
              && m.version !in Rows(db, m.schema)
  {
    hide Current, Rows, Commit;
    CurrentAfter(db, m);
    var t := Commit(db, m);
    forall n
      ensures Rows(t, n) == if n == m.schema then Rows(db, n) + [m.version] else Rows(db, n) { RowsAfter(db, m, n); }
    assert m.schema in [m.schema];
  }

  lemma RowsAfter(db: Database, m: Migration, n: string)
    ensures Rows(Commit(db, m), n) == if n == m.schema then Rows(db, n) + [m.version] else Rows(db, n)
  {
  }

  lemma ApplyEffect(s: State, m: Migration)
    requires m.version > Current(s.db, m.schema)
    ensures var t := Apply(s, m);
            && (t.db == Commit(s.db, m) || (t.db == s.db && t.halted))
            && Grows(s.db, Commit(s.db, m)) && OnlyIn(s.db, Commit(s.db, m), [m.schema])
            && Current(Commit(s.db, m), m.schema) == m.version
  {
    CommitEffect(s.db, m);
    hide Current, Commit, Rows, Grows, OnlyIn;
  }

  lemma NoAdvance(db: Database, ms: seq<Migration>, schema: string)
    ensures Advanced(db, db, ms, 0) && OnlyIn(db, db, [schema]) && Grows(db, db)
  {
    assert Pending(ms, db)[..0] == [] && Pending(ms, db)[0..] == Pending(ms, db);
  }

  /** A migration that is not newer than the current version is not pending. */
  lemma NotPending(db: Database, group: seq<Migration>)
    requires group != [] && group[0].version <= Current(db, group[0].schema)
    ensures Pending(group, db) == Pending(group[1..], db)
  {
    hide Current;
  }

  lemma ReadOfTail(db: Database, group: seq<Migration>, schema: string, current: nat)
    requires group != [] && Ascending(group) && ReadIsGood(db, group, schema, current)
    ensures Ascending(group[1..]) && ReadIsGood(db, group[1..], schema, current)
    ensures group[0].schema == schema && (group[0].version > current <==> group[0].version > Current(db, schema))
  {
    hide Current;
    assert forall i :: 0 <= i < |group[1..]| ==> group[1..][i] == group[i + 1];
  }

  lemma {:induction false} GroupAdvances(s: State, group: seq<Migration>, schema: string, current: nat) returns (k: nat)
    requires Ascending(group) && ReadIsGood(s.db, group, schema, current)
    ensures var r := ApplyGroup(s, group, current);
            && Advanced(s.db, r.db, group, k) && OnlyIn(s.db, r.db, [schema]) && Grows(s.db, r.db)
            && (!r.halted ==> k == |Pending(group, s.db)|)
    decreases |group|
  {
    hide Current, Apply, Pending, ReadIsGood, Ascending, OnlyIn, Grows, Rows, Commit;
    NoAdvance(s.db, group, schema);
    k := 0;
    if group == [] {
      NothingPending(s.db);
    } else if !s.halted {
      var m, tail := group[0], group[1..];
      var r := ApplyGroup(s, group, current);
      ReadOfTail(s.db, group, schema, current);
      if m.version <= current {
        k := GroupAdvances(s, tail, schema, current);
        CurrentGrows(s.db, r.db, schema);
        NotPending(s.db, group);
        NotPending(r.db, group);
      } else {
        ApplyEffect(s, m);
        var t := Apply(s, m);
        if t.db != s.db {
          AfterCommit(s.db, group, schema, current);
          k := GroupAdvances(t, tail, schema, current);
          CurrentGrows(t.db, r.db, schema);
          NotPending(r.db, group);
          CommitAdvances(s.db, r.db, group, k);
          GrowsOn(s.db, t.db, r.db, schema);
          k := k + 1;
        }
      }
    }
  }

  lemma NothingPending(db: Database)
    ensures Pending([], db) == []
  {
  }

  lemma GrowsOn(u: Database, v: Database, w: Database, schema: string)
    requires Grows(u, v) && Grows(v, w) && OnlyIn(u, v, [schema]) && OnlyIn(v, w, [schema])
    ensures Grows(u, w) && OnlyIn(u, w, [schema])
  {
    forall n ensures Rows(u, n) <= Rows(w, n) { assert Rows(u, n) <= Rows(v, n) && Rows(v, n) <= Rows(w, n); }
  }

  lemma {:induction false} AllPending(db: Database, ms: seq<Migration>)
    requires forall i :: 0 <= i < |ms| ==> ms[i].version > Current(db, ms[i].schema)
    ensures Pending(ms, db) == ms
    decreases |ms|
  {
    hide Current;
    if ms != [] { AllPending(db, ms[1..]); }
  }

  lemma TailNewer(group: seq<Migration>)
    requires group != [] && Ascending(group)
    ensures Ascending(group[1..]) && forall i :: 0 <= i < |group[1..]| ==> group[1..][i].version > group[0].version
  {
    assert forall i :: 0 <= i < |group[1..]| ==> group[1..][i] == group[i + 1];
  }

  /** All of a group that was read right is newer than the first, so all of it is pending. */
  lemma GroupPending(db: Database, group: seq<Migration>, schema: string, current: nat)
    requires group != [] && Ascending(group) && ReadIsGood(db, group, schema, current) && group[0].version > current
    ensures Pending(group, db) == group && group[0].version > Current(db, schema) && group[0].schema == schema
  {
    TailNewer(group);
    hide Current, Pending;
    forall i | 0 <= i < |group| ensures group[i].version > Current(db, group[i].schema) {
      if i > 0 { assert group[1..][i - 1] == group[i]; }
    }
    AllPending(db, group);
  }

  lemma ReadStays(db: Database, t: Database, group: seq<Migration>, schema: string, current: nat)
    requires group != [] && Ascending(group) && ReadIsGood(db, group, schema, current) && group[0].version > current
    requires Current(t, schema) == group[0].version
    ensures ReadIsGood(t, group[1..], schema, current) && Ascending(group[1..])
    ensures forall i :: 0 <= i < |group[1..]| ==> group[1..][i].version > Current(t, group[1..][i].schema)
  {
    TailNewer(group);
    hide Current;
    assert forall i :: 0 <= i < |group[1..]| ==> group[1..][i] == group[i + 1];
  }

  lemma AfterCommit(db: Database, group: seq<Migration>, schema: string, current: nat)
    requires group != [] && Ascending(group) && ReadIsGood(db, group, schema, current) && group[0].version > current
    ensures var t := Commit(db, group[0]);
            && ReadIsGood(t, group[1..], schema, current) && Ascending(group[1..])
            && Pending(group[1..], t) == group[1..] && Pending(group, db) == group
  {
    hide Current, Pending, Commit, Ascending, ReadIsGood;
    GroupPending(db, group, schema, current);
    CurrentAfter(db, group[0]);
    ReadStays(db, Commit(db, group[0]), group, schema, current);
    AllPending(Commit(db, group[0]), group[1..]);
  }

  lemma CommitAdvances(db: Database, r: Database, group: seq<Migration>, more: nat)
    requires group != [] && Pending(group, db) == group
    requires var t := Commit(db, group[0]); Pending(group[1..], t) == group[1..] && Advanced(t, r, group[1..], more)
    requires Pending(group, r) == Pending(group[1..], r)
    ensures Advanced(db, r, group, more + 1)
  {
    hide Current, Pending;
    assert group[1..][more..] == group[more + 1..];
    assert group[..more + 1] == [group[0]] + group[1..][..more];
  }

  // ---- A whole attempt --------------------------------------------------------------------------------------------

  lemma SchemaAdvances(s: State, ms: seq<Migration>, schema: string) returns (k: nat)
    requires Sorted(ms)
    ensures var r := UpSchema(s, ms, schema);
            && Advanced(s.db, r.db, Group(ms, schema), k) && OnlyIn(s.db, r.db, [schema]) && Grows(s.db, r.db)
            && (!r.halted ==> k == |Pending(Group(ms, schema), s.db)|)
  {
    k := 0;
    var s1 := Call(s).0;
    var s2 := Call(s1).0;
    var s3 := Call(s2).0;
    hide Current;
    if !s1.halted && !s2.halted && !s3.halted {
      var group := Group(ms, schema);
      GroupAscends(ms, schema);
      GroupMembers(ms, schema);
      k := GroupAdvances(s3, group, schema, Current(s3.db, schema));
    }
  }

  ghost predicate NamesOk(names: seq<string>) {
    forall i, j :: 0 <= i < j < |names| ==> StringBefore(names[i], names[j])
  }

  /** Work on the first schema leaves what is pending in the others. */
  lemma {:induction false} OthersSame(s: Database, r: Database, ms: seq<Migration>, names: seq<string>, schema: string)
    requires OnlyIn(s, r, [schema]) && schema !in names
    ensures Pending(Flat(ms, names), r) == Pending(Flat(ms, names), s)
    decreases |names|
  {
    hide Current;
    if names != [] {
      assert names[0] in names;
      OthersSame(s, r, ms, names[1..], schema);
      GroupMembers(ms, names[0]);
      PendingSame(Group(ms, names[0]), s, r);
      PendingConcat(Group(ms, names[0]), Flat(ms, names[1..]), s);
      PendingConcat(Group(ms, names[0]), Flat(ms, names[1..]), r);
    }
  }

  lemma AdvancedFirst(s: Database, t: Database, a: seq<Migration>, b: seq<Migration>, k: nat)
    requires Advanced(s, t, a, k) && Pending(b, t) == Pending(b, s)
    ensures Advanced(s, t, a + b, k)
  {
    PendingConcat(a, b, s);
    PendingConcat(a, b, t);
    hide Pending;
    var x, y := Pending(a, s), Pending(b, s);
    assert (x + y)[..k] == x[..k] && (x + y)[k..] == x[k..] + y;
  }

  lemma AdvancedBoth(s: Database, t: Database, r: Database, a: seq<Migration>, b: seq<Migration>, j: nat)
    requires Advanced(s, t, a, |Pending(a, s)|) && Pending(b, t) == Pending(b, s) && Advanced(t, r, b, j)
    requires Pending(a, r) == Pending(a, t)
    ensures Advanced(s, r, a + b, |Pending(a, s)| + j)
    ensures |Pending(a + b, s)| == |Pending(a, s)| + |Pending(b, s)|
  {
    PendingConcat(a, b, s);
    PendingConcat(a, b, r);
    hide Pending;
    var x, y := Pending(a, s), Pending(b, s);
    assert (x + y)[..|x| + j] == x + y[..j] && (x + y)[|x| + j..] == y[j..];
    assert x[..|x|] == x && x[|x|..] == [];
  }

  lemma {:induction false} SchemasAdvance(s: State, ms: seq<Migration>, names: seq<string>) returns (k: nat)
    requires Sorted(ms) && NamesOk(names)
    ensures var r := UpSchemas(s, ms, names);
            && Advanced(s.db, r.db, Flat(ms, names), k) && OnlyIn(s.db, r.db, names) && Grows(s.db, r.db)
            && (!r.halted ==> k == |Pending(Flat(ms, names), s.db)|)
    decreases |names|
  {
    hide Current, UpSchema, Sorted, Pending, Group, Rows, OnlyIn, Grows, NamesOk;
    NoAdvanceAt(s.db, ms, names);
    k := 0;
    if !s.halted && names != [] {
      var group, rest := Group(ms, names[0]), names[1..];
      var t := UpSchema(s, ms, names[0]);
      k := SchemaAdvances(s, ms, names[0]);
      NamesAfter(names);
      OthersSame(s.db, t.db, ms, rest, names[0]);
      if t.halted {
        AdvancedFirst(s.db, t.db, group, Flat(ms, rest), k);
        OnlyFirst(s.db, t.db, names);
        assert UpSchemas(t, ms, rest) == t;
      } else {
        var j := SchemasAdvance(t, ms, rest);
        var r := UpSchemas(t, ms, rest);
        GroupUntouched(t.db, r.db, ms, names);
        AdvancedBoth(s.db, t.db, r.db, group, Flat(ms, rest), j);
        GrowsAgain(s.db, t.db, r.db, names);
        k := k + j;
      }
    }
  }

  lemma NoAdvanceAt(db: Database, ms: seq<Migration>, names: seq<string>)
    ensures Advanced(db, db, Flat(ms, names), 0) && OnlyIn(db, db, names) && Grows(db, db)
    ensures names == [] ==> Pending(Flat(ms, names), db) == []
  {
    NoAdvance(db, Flat(ms, names), "");
  }

  lemma NamesAfter(names: seq<string>)
    requires names != [] && NamesOk(names)
    ensures NamesOk(names[1..]) && names[0] !in names[1..]
  {
    NamesBeyond(names);
  }

  lemma OnlyFirst(s: Database, r: Database, names: seq<string>)
    requires names != [] && OnlyIn(s, r, [names[0]])
    ensures OnlyIn(s, r, names)
  {
    assert names == [names[0]] + names[1..];
    assert forall n :: n !in names ==> n !in [names[0]];
  }

  lemma GroupUntouched(s: Database, r: Database, ms: seq<Migration>, names: seq<string>)
    requires names != [] && NamesOk(names) && OnlyIn(s, r, names[1..])
    ensures Pending(Group(ms, names[0]), r) == Pending(Group(ms, names[0]), s)
  {
    NamesAfter(names);
    GroupMembers(ms, names[0]);
    PendingSame(Group(ms, names[0]), s, r);
  }

  lemma GrowsAgain(u: Database, v: Database, w: Database, names: seq<string>)
    requires names != [] && Grows(u, v) && Grows(v, w) && OnlyIn(u, v, [names[0]]) && OnlyIn(v, w, names[1..])
    ensures Grows(u, w) && OnlyIn(u, w, names)
  {
    forall n ensures Rows(u, n) <= Rows(w, n) { assert Rows(u, n) <= Rows(v, n) && Rows(v, n) <= Rows(w, n); }
    forall n | n !in names ensures Rows(w, n) == Rows(u, n) {
      assert names == [names[0]] + names[1..];
      assert n !in [names[0]] && n !in names[1..];
    }
  }

  /** One attempt commits a prefix of what is pending, in order; if it reports success, all of it. */
  lemma UpAdvances(db: Database, script: seq<Outcome>, ms: seq<Migration>, names: seq<string>) returns (k: nat)
    requires Sorted(ms) && IsNames(names, ms)
    ensures var r := Up(db, script, ms, names);
            Advanced(db, r.db, ms, k) && (!r.halted ==> k == |Pending(ms, db)|)
  {
    hide Pending, Sorted, Flat;
    FlatIsAll(ms, names);
    k := SchemasAdvance(State(db, script, false), ms, names);
  }

  // ---- Any number of attempts -------------------------------------------------------------------------------------

  function Attempts(db: Database, scripts: seq<seq<Outcome>>, ms: seq<Migration>, names: seq<string>): (r: Database)
    decreases |scripts|
  {
    if scripts == [] then db else Attempts(Up(db, scripts[0], ms, names).db, scripts[1..], ms, names)
  }

  lemma {:induction false} AttemptsAdvance(db: Database, scripts: seq<seq<Outcome>>, ms: seq<Migration>,
      names: seq<string>)
    returns (k: nat)
    requires Sorted(ms) && IsNames(names, ms)
    ensures Advanced(db, Attempts(db, scripts, ms, names), ms, k)
    decreases |scripts|
  {
    hide Pending, Sorted, IsNames, Up;
    k := 0;
    if scripts != [] {
      var t := Up(db, scripts[0], ms, names).db;
      k := UpAdvances(db, scripts[0], ms, names);
      var j := AttemptsAdvance(t, scripts[1..], ms, names);
      var p := Pending(ms, db);
      assert p[k..][..j] == p[k..k + j] && p[..k] + p[k..k + j] == p[..k + j] && p[k..][j..] == p[k + j..];
      k := k + j;
    }
  }

  lemma SplitTwice(p: seq<Migration>, k: nat, j: nat)
    requires k <= |p| && j <= |p| - k
    ensures p[..k] + p[k..][..j] == p[..k + j] && p[k..][j..] == p[k + j..]
  {
  }

  lemma AdvancedTwice(db: Database, d: Database, r: Database, ms: seq<Migration>, k: nat, j: nat)
    requires Advanced(db, d, ms, k) && Advanced(d, r, ms, j)
    ensures Advanced(db, r, ms, k + j)
  {
    hide Pending;
    var p := Pending(ms, db);
    SplitTwice(p, k, j);
    Regroup(db.log, p[..k], p[k..][..j]);
  }

  lemma Regroup(a: seq<Migration>, b: seq<Migration>, c: seq<Migration>)
    ensures (a + b) + c == a + (b + c)
  {
  }

  lemma AdvancedMeans(db: Database, r: Database, ms: seq<Migration>, k: nat)
    requires Advanced(db, r, ms, k)
    ensures db.log <= r.log <= db.log + Pending(ms, db)
    ensures Pending(ms, r) == [] ==> r.log == db.log + Pending(ms, db)
  {
    hide Pending;
    var p := Pending(ms, db);
    assert p == p[..k] + p[k..];
  }

  lemma AllAdvanced(d: Database, r: Database, ms: seq<Migration>, j: nat)
    requires Advanced(d, r, ms, j) && j == |Pending(ms, d)|
    ensures Pending(ms, r) == []
  {
    hide Pending;
  }

  /**
    Any number of attempts, each failing at any call, with or without the effect of a commit: what was committed is a
    prefix of what was pending at the start, in (schema, version) order.  An attempt that then reports success has
    committed all of it, once each; nothing is pending any more, and a further attempt commits nothing.
  */
  lemma CommittedInOrder(db: Database, scripts: seq<seq<Outcome>>, last: seq<Outcome>, more: seq<Outcome>,
                         ms: seq<Migration>, names: seq<string>)
    requires Sorted(ms) && IsNames(names, ms)
    ensures var d := Attempts(db, scripts, ms, names);
            var r := Up(d, last, ms, names);
            && db.log <= d.log && d.log <= db.log + Pending(ms, db)
            && db.log <= r.db.log && r.db.log <= db.log + Pending(ms, db)
            && (!r.halted ==>
                  && r.db.log == db.log + Pending(ms, db)
                  && Pending(ms, r.db) == []
                  && Up(r.db, more, ms, names).db.log == r.db.log)
  {
    hide Pending, Sorted, IsNames, Up, Attempts, Advanced;
    var d := Attempts(db, scripts, ms, names);
    var r := Up(d, last, ms, names);
    var k := AttemptsAdvance(db, scripts, ms, names);
    var j := UpAdvances(d, last, ms, names);
    AdvancedTwice(db, d, r.db, ms, k, j);
    AdvancedMeans(db, d, ms, k);
    AdvancedMeans(db, r.db, ms, k + j);
    if !r.halted {
      AllAdvanced(d, r.db, ms, j);
      var i := UpAdvances(r.db, more, ms, names);
      AdvancedMeans(r.db, Up(r.db, more, ms, names).db, ms, i);
    }
  }

  const NoRows := Database(map[], [])

  lemma {:induction false} PendingOnEmpty(ms: seq<Migration>)
    ensures Pending(ms, NoRows) == ms <==> forall i :: 0 <= i < |ms| ==> ms[i].version > 0
    decreases |ms|
  {
    if ms != [] {
      PendingOnEmpty(ms[1..]);
      var rest := Pending(ms[1..], NoRows);
      assert Current(NoRows, ms[0].schema) == 0;
      if ms[0].version > 0 {
        assert Pending(ms, NoRows) == [ms[0]] + rest && ms == [ms[0]] + ms[1..];
        assert ([ms[0]] + rest)[1..] == rest;
        assert forall i :: 1 <= i < |ms| ==> ms[i] == ms[1..][i - 1];
      } else {
        assert Pending(ms, NoRows) == rest;
      }
    }
  }

  /**
    A file numbered 0 is never applied: from an empty database an attempt that reports success has applied every
    migration exactly when all of them have positive versions.
  */
  lemma AllAppliedExactly(script: seq<Outcome>, ms: seq<Migration>, names: seq<string>)
    requires Sorted(ms) && IsNames(names, ms) && !Up(NoRows, script, ms, names).halted
    ensures Up(NoRows, script, ms, names).db.log == ms <==> forall i :: 0 <= i < |ms| ==> ms[i].version > 0
  {
    hide Pending, Sorted, IsNames, Up;
    CommittedInOrder(NoRows, [], script, [], ms, names);
    PendingOnEmpty(ms);
    assert Attempts(NoRows, [], ms, names) == NoRows;
    assert [] + Pending(ms, NoRows) == Pending(ms, NoRows);
  }

  // ---- Status -----------------------------------------------------------------------------------------------------

  /** `Status` of one schema: what is pending in its group. */
  function PendingCount(db: Database, ms: seq<Migration>, schema: string): (n: nat) {
    |Pending(Group(ms, schema), db)|
  }

  lemma {:induction false} GroupOfPending(ms: seq<Migration>, schema: string, db: Database)
    ensures Group(Pending(ms, db), schema) == Pending(Group(ms, schema), db)
    decreases |ms|
  {
    hide Current;
    if ms != [] {
      GroupOfPending(ms[1..], schema, db);
      var rest := Pending(ms[1..], db);
      assert ([ms[0]] + rest)[1..] == rest;
      var g := Group(ms[1..], schema);
      assert ([ms[0]] + g)[1..] == g;
      assert [] + rest == rest && [] + g == g;
    }
  }

  /** After an attempt that reported success every schema's status shows nothing pending. */
  lemma StatusIsClear(db: Database, script: seq<Outcome>, ms: seq<Migration>, names: seq<string>, schema: string)
    requires Sorted(ms) && IsNames(names, ms) && !Up(db, script, ms, names).halted
    ensures PendingCount(Up(db, script, ms, names).db, ms, schema) == 0
  {
    var k := UpAdvances(db, script, ms, names);
    hide Up, Sorted, IsNames;
    GroupOfPending(ms, schema, Up(db, script, ms, names).db);
  }

  // ---- Why the sort matters ---------------------------------------------------------------------------------------

  lemma TwoVersions(one: Migration, two: Migration, schema: string)
    requires one.schema == two.schema == schema
    ensures Group([two, one], schema) == [two, one] && [two, one][1..] == [one] && [one][1..] == []
  {
    var ms := [two, one];
    assert ms[1..] == [one] && [one][1..] == [];
    assert Group([one], schema) == [one] + Group([], schema) == [one];
    assert Group(ms, schema) == [two] + Group([one], schema) == ms;
  }

  /** An attempt whose fourth call commits and whose fifth finds the process gone. */
  lemma FirstAttempt(one: Migration, two: Migration, schema: string)
    requires one == Migration(schema, 1, one.name) && two == Migration(schema, 2, two.name)
    ensures var empty := Database(map[], []);
            var first := Up(empty, [Done, Done, Done, Done], [two, one], [schema]);
            first.db == Database(map[schema := [2]], [two]) && first.halted
  {
    TwoVersions(one, two, schema);
    var ms, empty := [two, one], Database(map[], []);
    assert [schema][1..] == [];
    var c0 := State(empty, [Done, Done, Done, Done], false);
    assert c0.script[1..] == [Done, Done, Done] && [Done, Done, Done][1..] == [Done, Done]
      && [Done, Done][1..] == [Done];
    var c3 := Call(Call(Call(c0).0).0).0;
    assert c3 == State(empty, [Done], false) && !Call(c0).0.halted && !Call(Call(c0).0).0.halted && [Done][1..] == [];
    var t := Apply(c3, two);
    var none: seq<nat> := [];
    assert Rows(empty, schema) == none && none + [2] == [2] && empty.rows[schema := [2]] == map[schema := [2]];
    assert t.db == Commit(empty, two) == Database(map[schema := [2]], [two]) && !t.halted && t.script == [];
    assert Current(empty, schema) == 0;
    assert Apply(t, one).halted && Apply(t, one).db == t.db;
    hide Group, Call, Commit;
    assert ApplyGroup(t, [one], 0) == ApplyGroup(Apply(t, one), [one][1..], 0) == Apply(t, one);
    assert ApplyGroup(c3, ms, 0) == ApplyGroup(t, ms[1..], 0);
    assert UpSchemas(UpSchema(c0, ms, schema), ms, []) == UpSchema(c0, ms, schema);
  }

  /** The next attempt finds version 2 and skips both. */
  lemma SecondAttempt(one: Migration, two: Migration, schema: string)
    requires one == Migration(schema, 1, one.name) && two == Migration(schema, 2, two.name)
    ensures var db := Database(map[schema := [2]], [two]);
            var second := Up(db, [Done, Done, Done], [two, one], [schema]);
            second.db == db && !second.halted && PendingCount(db, [two, one], schema) == 0
  {
    TwoVersions(one, two, schema);
    var ms, db := [two, one], Database(map[schema := [2]], [two]);
    assert [schema][1..] == [] && [2][..0] == [];
    assert Current(db, schema) == 2;
    var d0 := State(db, [Done, Done, Done], false);
    assert [Done, Done, Done][1..] == [Done, Done] && [Done, Done][1..] == [Done] && [Done][1..] == [];
    var d3 := Call(Call(Call(d0).0).0).0;
    assert d3 == State(db, [], false) && !Call(d0).0.halted && !Call(Call(d0).0).0.halted;
    hide Group, Call, Current;
    assert ApplyGroup(d3, [one], 2) == ApplyGroup(d3, [one][1..], 2) == d3;
    assert ApplyGroup(d3, ms, 2) == ApplyGroup(d3, ms[1..], 2);
    assert UpSchemas(UpSchema(d0, ms, schema), ms, []) == d3;
    NothingPending(db);
    NotPending(db, [one]);
    NotPending(db, ms);
  }

  /**
    Without the sort the result is false: given version 2 before version 1, an attempt that fails after its first commit
    leaves version 1 behind for good, and the next attempt reports success.
  */
  lemma UnsortedLosesAMigration(a: string, b: string, schema: string)
    ensures var one, two := Migration(schema, 1, a), Migration(schema, 2, b);
            var first := Up(Database(map[], []), [Done, Done, Done, Done], [two, one], [schema]);
            var second := Up(first.db, [Done, Done, Done], [two, one], [schema]);
            && first.db.log == [two] && first.halted
            && !second.halted && second.db.log == [two] && PendingCount(second.db, [two, one], schema) == 0
  {
    hide Up, PendingCount;
    FirstAttempt(Migration(schema, 1, a), Migration(schema, 2, b), schema);
    SecondAttempt(Migration(schema, 1, a), Migration(schema, 2, b), schema);
  }
}
