/** The loops of migration/migrations.go and migration/runner.go, proved against module Migrations. */
module MigrationRunner {
  import opened Core
  import opened Text
  import opened Migrations

  // ---- Discovery --------------------------------------------------------------------------------------------------

  /** `validateMigrations`: a schema and version may be seen once. */
  method Validate(ms: seq<Migration>) returns (ok: bool)
    ensures ok <==> Unique(ms)
  {
    var seen: set<(string, nat)> := {};
    for i := 0 to |ms|
      invariant Unique(ms[..i])
      invariant forall k :: k in seen <==> exists j :: 0 <= j < i && (ms[j].schema, ms[j].version) == k
    {
      if (ms[i].schema, ms[i].version) in seen {
        var j :| 0 <= j < i && (ms[j].schema, ms[j].version) == (ms[i].schema, ms[i].version);
        return false;
      }
      seen := seen + {(ms[i].schema, ms[i].version)};
    }
    assert ms[..|ms|] == ms;
    return true;
  }

  lemma LessTotal(a: Migration, b: Migration)
    ensures a.schema != b.schema || a.version != b.version ==> Less(a, b) || Less(b, a)
    ensures !(Less(a, b) && Less(b, a))
  {
    StringTotal(a.schema, b.schema);
  }

  lemma LessTransitive(a: Migration, b: Migration, c: Migration)
    requires Less(a, b) && Less(b, c)
    ensures Less(a, c)
  {
    StringTotal(a.schema, b.schema);
    StringTotal(b.schema, c.schema);
    if a.schema != b.schema && b.schema != c.schema { StringTransitive(a.schema, b.schema, c.schema); }
    StringTotal(a.schema, c.schema);
  }

  /** Where a migration goes in a sorted list that does not hold its schema and version. */
  lemma InsertedAt(ms: seq<Migration>, k: nat, m: Migration, i: nat)
    requires k <= |ms| && i <= |ms|
    ensures (ms[..k] + [m] + ms[k..])[i] == if i < k then ms[i] else if i == k then m else ms[i - 1]
  {
  }

  lemma InsertedBag(ms: seq<Migration>, k: nat, m: Migration)
    requires k <= |ms|
    ensures multiset(ms[..k] + [m] + ms[k..]) == multiset(ms) + multiset{m}
  {
    assert ms == ms[..k] + ms[k..];
  }

  lemma Inserted(ms: seq<Migration>, k: nat, m: Migration)
    requires Sorted(ms) && k <= |ms|
    requires forall i :: 0 <= i < k ==> Less(ms[i], m)
    requires k < |ms| ==> Less(m, ms[k])
    ensures Sorted(ms[..k] + [m] + ms[k..])
    ensures multiset(ms[..k] + [m] + ms[k..]) == multiset(ms) + multiset{m}
  {
    InsertedBag(ms, k, m);
    hide Less;
    var r := ms[..k] + [m] + ms[k..];
    forall i, j | 0 <= i < j < |r| ensures Less(r[i], r[j]) {
      InsertedAt(ms, k, m, i);
      InsertedAt(ms, k, m, j);
      if i == k && j > k + 1 { LessTransitive(m, ms[k], ms[j - 1]); }
      if i < k && j > k { assert Less(ms[i], ms[j - 1]); }
    }
  }

  lemma NotAmong(ms: seq<Migration>, i: nat, sorted: seq<Migration>)
    requires Unique(ms) && i < |ms| && multiset(sorted) == multiset(ms[..i])
    ensures forall j :: 0 <= j < |sorted| ==> Less(sorted[j], ms[i]) || Less(ms[i], sorted[j])
  {
    forall j | 0 <= j < |sorted| ensures Less(sorted[j], ms[i]) || Less(ms[i], sorted[j]) {
      assert sorted[j] in multiset(ms[..i]);
      var k :| 0 <= k < |ms[..i]| && ms[..i][k] == sorted[j];
      LessTotal(ms[k], ms[i]);
    }
  }

  method SortMigrations(ms: seq<Migration>) returns (sorted: seq<Migration>)
    requires Unique(ms)
    ensures Sorted(sorted) && multiset(sorted) == multiset(ms)
  {
    hide Less, Sorted, Unique;
    sorted := [];
    NothingSorted();
    for i := 0 to |ms|
      invariant Sorted(sorted) && multiset(sorted) == multiset(ms[..i])
    {
      NotAmong(ms, i, sorted);
      sorted := Insert(sorted, ms[i]);
      assert ms[..i + 1] == ms[..i] + [ms[i]];
    }
    assert ms[..|ms|] == ms;
  }

  lemma NothingSorted()
    ensures Sorted([])
  {
  }

  method Insert(sorted: seq<Migration>, m: Migration) returns (r: seq<Migration>)
    requires Sorted(sorted) && forall j :: 0 <= j < |sorted| ==> Less(sorted[j], m) || Less(m, sorted[j])
    ensures Sorted(r) && multiset(r) == multiset(sorted) + multiset{m}
  {
    hide Less, Sorted;
    var k := 0;
    while k < |sorted| && Less(sorted[k], m)
      invariant 0 <= k <= |sorted| && forall j :: 0 <= j < k ==> Less(sorted[j], m)
    {
      k := k + 1;
    }
    Inserted(sorted, k, m);
    r := sorted[..k] + [m] + sorted[k..];
  }

  /** `Discover`: whatever order the files were walked in, the result is sorted; duplicates are refused. */
  method Discover(found: seq<Migration>) returns (r: Option<seq<Migration>>)
    ensures r.Some? <==> Unique(found)
    ensures r.Some? ==> Sorted(r.value) && multiset(r.value) == multiset(found)
  {
    var ok := Validate(found);
    if !ok { return None; }
    var sorted := SortMigrations(found);
    return Some(sorted);
  }

  // ---- Grouping ---------------------------------------------------------------------------------------------------

  lemma {:induction false} GroupGrows(ms: seq<Migration>, i: nat, schema: string)
    requires i < |ms|
    ensures Group(ms[..i + 1], schema) == Group(ms[..i], schema) + if ms[i].schema == schema then [ms[i]] else []
    decreases i
  {
    if i == 0 {
      assert ms[..1] == [ms[0]] && ms[..0] == [] && [ms[0]][1..] == [];
    } else {
      GroupGrows(ms[1..], i - 1, schema);
      assert ms[..i + 1][1..] == ms[1..][..i] && ms[..i][1..] == ms[1..][..i - 1];
    }
  }

  ghost predicate Grouped(grouped: map<string, seq<Migration>>, ms: seq<Migration>) {
    forall n :: (n in grouped <==> HasSchema(ms, n)) && (n in grouped ==> grouped[n] == Group(ms, n))
  }

  lemma NoGroup(ms: seq<Migration>, schema: string)
    requires !HasSchema(ms, schema)
    ensures Group(ms, schema) == []
  {
    GroupSkips(ms, schema);
  }

  lemma SchemaGrows(ms: seq<Migration>, i: nat, n: string)
    requires i < |ms|
    ensures HasSchema(ms[..i + 1], n) <==> HasSchema(ms[..i], n) || ms[i].schema == n
  {
    var a, b := ms[..i], ms[..i + 1];
    assert b[i] == ms[i] && forall j :: 0 <= j < |a| ==> b[j] == a[j];
    if HasSchema(a, n) { var j :| 0 <= j < |a| && a[j].schema == n; assert b[j].schema == n; }
    if HasSchema(b, n) { var j :| 0 <= j < |b| && b[j].schema == n; assert j < i ==> a[j].schema == n; }
  }

  lemma GroupedGrows(grouped: map<string, seq<Migration>>, ms: seq<Migration>, i: nat)
    requires i < |ms| && Grouped(grouped, ms[..i])
    ensures var m := ms[i];
            Grouped(grouped[m.schema := (if m.schema in grouped then grouped[m.schema] else []) + [m]], ms[..i + 1])
  {
    hide Group, HasSchema;
    var m := ms[i];
    var next := grouped[m.schema := (if m.schema in grouped then grouped[m.schema] else []) + [m]];
    forall n ensures (n in next <==> HasSchema(ms[..i + 1], n)) && (n in next ==> next[n] == Group(ms[..i + 1], n)) {
      GroupGrows(ms, i, n);
      SchemaGrows(ms, i, n);
      if !HasSchema(ms[..i], n) { NoGroup(ms[..i], n); }
    }
  }

  method GroupBySchema(ms: seq<Migration>) returns (grouped: map<string, seq<Migration>>)
    ensures Grouped(grouped, ms)
  {
    grouped := map[];
    for i := 0 to |ms|
      invariant Grouped(grouped, ms[..i])
    {
      GroupedGrows(grouped, ms, i);
      hide Grouped;
      var schema := ms[i].schema;
      grouped := grouped[schema := (if schema in grouped then grouped[schema] else []) + [ms[i]]];
    }
    assert ms[..|ms|] == ms;
  }

  method SortedNames(keys: set<string>) returns (names: seq<string>)
    ensures forall n :: n in names <==> n in keys
    ensures NamesOk(names)
  {
    names := [];
    var todo := keys;
    while todo != {}
      invariant todo <= keys && NamesOk(names)
      invariant forall n :: n in names <==> n in keys && n !in todo
      decreases todo
    {
      var n := Pick(todo);
      todo := todo - {n};
      var k := 0;
      while k < |names| && StringBefore(names[k], n)
        invariant 0 <= k <= |names| && forall j :: 0 <= j < k ==> StringBefore(names[j], n)
      {
        k := k + 1;
      }
      assert n !in names;
      NameInserted(names, k, n);
      names := names[..k] + [n] + names[k..];
    }
  }

  lemma NameInserted(names: seq<string>, k: nat, n: string)
    requires NamesOk(names) && k <= |names| && n !in names
    requires forall j :: 0 <= j < k ==> StringBefore(names[j], n)
    requires k < |names| ==> !StringBefore(names[k], n)
    ensures NamesOk(names[..k] + [n] + names[k..])
    ensures forall m :: m in names[..k] + [n] + names[k..] <==> m in names || m == n
  {
    var r := names[..k] + [n] + names[k..];
    if k < |names| {
      assert names[k] in names;
      StringTotal(names[k], n);
    }
    hide StringBefore;
    forall i, j | 0 <= i < j < |r| ensures StringBefore(r[i], r[j]) {
      assert r[i] == (if i < k then names[i] else if i == k then n else names[i - 1]);
      assert r[j] == (if j < k then names[j] else if j == k then n else names[j - 1]);
      if i == k && j > k + 1 { StringTransitive(n, names[k], names[j - 1]); }
      if i < k && j > k { assert StringBefore(names[i], names[j - 1]); }
    }
    forall m ensures m in r <==> m in names || m == n {
      assert names == names[..k] + names[k..] && r[k] == n;
    }
  }

  // ---- The runner -------------------------------------------------------------------------------------------------

  class Runner {
    const migrations: seq<Migration>
    var db: Database
    var script: seq<Outcome>
    var halted: bool

    constructor (migrations: seq<Migration>, db: Database, script: seq<Outcome>)
      ensures this.migrations == migrations && Now() == State(db, script, false)
    {
      this.migrations := migrations;
      this.db, this.script, this.halted := db, script, false;
    }

    ghost function Now(): (s: State)
      reads this
    {
      State(db, script, halted)
    }

    method Call() returns (o: Outcome)
      modifies this
      ensures (Now(), o) == Migrations.Call(old(Now()))
    {
      if halted || script == [] {
        halted := true;
        return Failed;
      }
      o := script[0];
      script := script[1..];
      halted := !o.Done?;
    }

    /** One transaction. */
    method Apply(m: Migration)
      modifies this
      ensures Now() == Migrations.Apply(old(Now()), m)
    {
      hide Migrations.Call;
      var o := Call();
      if o.Failed? { return; }
      if m.version in Rows(db, m.schema) {
        halted := true;
      } else {
        db := Commit(db, m);
      }
    }

    method UpSchema(schema: string, group: seq<Migration>)
      requires group == Group(migrations, schema)
      modifies this
      ensures Now() == Migrations.UpSchema(old(Now()), migrations, schema)
    {
      hide Migrations.Call, Group, Migrations.Apply, Current;
      CallHalts(Now());
      var ensured := Call();
      if halted { return; }
      CallHalts(Now());
      var created := Call();
      if halted { return; }
      CallHalts(Now());
      var answered := Call();
      if halted { return; }
      var current := Current(db, schema);
      label Read:
      var i := 0;
      while i < |group|
        invariant 0 <= i <= |group| && !halted
        invariant ApplyGroup(old@Read(Now()), group, current) == ApplyGroup(Now(), group[i..], current)
      {
        assert group[i..][0] == group[i] && group[i..][1..] == group[i + 1..];
        i := i + 1;
        if group[i - 1].version <= current { continue; }
        Apply(group[i - 1]);
        if halted { return; }
      }
    }

    lemma CallHalts(s: State)
      ensures Migrations.Call(s).0.db == s.db
    {
    }

    /** Schema by schema in sorted order, each schema's migrations in listed order. */
    method Up() returns (ghost names: seq<string>)
      requires !halted
      modifies this
      ensures IsNames(names, migrations) && Now() == Migrations.Up(old(db), old(script), migrations, names)
    {
      hide Group, Migrations.UpSchema;
      var grouped := GroupBySchema(migrations);
      var schemas := SortedNames(grouped.Keys);
      names := schemas;
      assert forall i :: 0 <= i < |schemas| ==> schemas[i] in schemas;
      var i := 0;
      while i < |schemas|
        invariant 0 <= i <= |schemas| && !halted
        invariant UpSchemas(old(Now()), migrations, schemas) == UpSchemas(Now(), migrations, schemas[i..])
      {
        assert schemas[i..][0] == schemas[i] && schemas[i..][1..] == schemas[i + 1..];
        UpSchema(schemas[i], grouped[schemas[i]]);
        i := i + 1;
        if halted { return; }
      }
    }
  }

  /** `Status` of one schema, counted in a loop. */
  method CountPending(db: Database, ms: seq<Migration>, schema: string) returns (current: nat, pending: nat)
    ensures current == Current(db, schema) && pending == PendingCount(db, ms, schema)
  {
    hide Current, Group;
    current := Current(db, schema);
    pending := 0;
    var group := Group(ms, schema);
    GroupMembers(ms, schema);
    var i := 0;
    while i < |group|
      invariant 0 <= i <= |group|
      invariant pending + |Pending(group[i..], db)| == |Pending(group, db)|
    {
      assert group[i..][0] == group[i] && group[i..][1..] == group[i + 1..];
      if group[i].version > current { pending := pending + 1; }
      i := i + 1;
    }
  }

  /** Whatever order the files were found in, an attempt commits in (schema, version) order. */
  method DiscoverAndUp(found: seq<Migration>, db: Database, script: seq<Outcome>)
      returns (r: Option<Database>, ok: bool)
    requires Unique(found)
    ensures r.Some? && exists ms :: Sorted(ms) && multiset(ms) == multiset(found)
                                    && db.log <= r.value.log && r.value.log <= db.log + Pending(ms, db)
                                    && (ok ==> r.value.log == db.log + Pending(ms, db))
  {
    hide Unique, Sorted, Pending;
    var discovered := Discover(found);
    var runner := new Runner(discovered.value, db, script);
    ghost var names := runner.Up();
    CommittedInOrder(db, [], script, [], discovered.value, names);
    return Some(runner.db), !runner.halted;
  }
}
