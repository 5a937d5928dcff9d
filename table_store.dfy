/**
 * The versioned table store: a fixed migration ledger, a connection that
 * upgrades the stored schema once per process and then caches its handle,
 * and four table operations keyed by each table's key field.
 *
 * The browser's storage engine is abstracted as a `Database` value: the
 * stored schema version and, per table, its key configuration, its records
 * by key and its key generator.
 */
module TableStore {
  import opened Values
  import opened KeyOrder

  datatype Error =
    | StorageUnavailable     // the engine refused to open or upgrade the database
    | TableNotFound(table: string)
    | DataError              // a key the engine cannot use

  datatype Result<+T> = Ok(value: T) | Err(error: Error)

  /** How a table finds a record's key: the key field, and whether missing keys are generated. */
  datatype StoreConfig = StoreConfig(keyPath: string, autoIncrement: bool)

  /** One schema step; its `up` action is the list of tables it creates, in order. */
  datatype Migration = Migration(version: nat, description: string, creates: seq<(string, StoreConfig)>)

  const DbName: string := "fpis_postgres"
  const TargetVersion: nat := 4

  const Ledger: seq<Migration> := [
    Migration(1, "Create initial system tables",
      [("migration_history", StoreConfig("id", true)),
       ("users", StoreConfig("email", false)),
       ("sessions", StoreConfig("token", false))]),
    Migration(2, "Create revenue and inspection tables",
      [("transactions", StoreConfig("id", false)),
       ("inspections", StoreConfig("id", false))]),
    Migration(3, "Create agent receipts table",
      [("receipts", StoreConfig("id", false))]),
    Migration(4, "Seed initial production data", [])
  ]

  /** A table: its configuration, its records by key, and the next generated key. */
  datatype Store = Store(config: StoreConfig, records: map<Value, Record>, nextKey: int)

  /** What the engine keeps on disk for the named database. A database never opened is at version 0. */
  datatype Database = Database(version: nat, stores: map<string, Store>)

  datatype Handle = Handle(name: string, version: nat)

  function EmptyStore(c: StoreConfig): Store {
    Store(c, map[], 1)
  }

  // ---------------------------------------------------------------------
  // Migrations
  // ---------------------------------------------------------------------

  function Versions(ms: seq<Migration>): (vs: seq<nat>)
    ensures |vs| == |ms| && forall i :: 0 <= i < |ms| ==> vs[i] == ms[i].version
  {
    if ms == [] then [] else [ms[0].version] + Versions(ms[1..])
  }

  /** The migrations to run for a database stored at `oldVersion`: those above it, in ledger order. */
  function Pending(ledger: seq<Migration>, oldVersion: nat): seq<Migration> {
    Filter(ledger, (m: Migration) => m.version > oldVersion)
  }

  /** One `up` action: create each table in turn; creating a table that exists fails the upgrade. */
  function CreateStores(stores: map<string, Store>, creates: seq<(string, StoreConfig)>): Option<map<string, Store>>
    decreases |creates|
  {
    if creates == [] then Some(stores)
    else if creates[0].0 in stores then None
    else CreateStores(stores[creates[0].0 := EmptyStore(creates[0].1)], creates[1..])
  }

  /** The schema after running `ms` in order, or None when one of them fails. */
  function RunMigrations(stores: map<string, Store>, ms: seq<Migration>): Option<map<string, Store>>
    decreases |ms|
  {
    if ms == [] then Some(stores)
    else match RunMigrations(stores, ms[..|ms| - 1])
      case None => None
      case Some(s) => CreateStores(s, ms[|ms| - 1].creates)
  }

  /**
   * Opening the database at the target version: a stored version above it is
   * refused; a lower one runs every pending migration inside one upgrade
   * transaction, which either commits the new schema at the target version or
   * aborts and leaves the disk as it was.
   */
  function Open(d: Database): (r: (Database, Result<Handle>))
    ensures r.1.Ok? ==> r.0.version == TargetVersion && r.1.value == Handle(DbName, TargetVersion)
    ensures r.1.Err? ==> r.0 == d && r.1.error == StorageUnavailable
    ensures r.1.Err? <==> (d.version > TargetVersion ||
      (d.version < TargetVersion && RunMigrations(d.stores, Pending(Ledger, d.version)).None?))
    ensures d.version == TargetVersion ==> r.0 == d
  {
    if d.version > TargetVersion then (d, Err(StorageUnavailable))
    else if d.version == TargetVersion then (d, Ok(Handle(DbName, TargetVersion)))
    else match RunMigrations(d.stores, Pending(Ledger, d.version))
      case None => (d, Err(StorageUnavailable))
      case Some(s) => (Database(TargetVersion, s), Ok(Handle(DbName, TargetVersion)))
  }

  /** The six tables of schema version 4, all empty. */
  function SchemaV4(): map<string, Store> {
    map[
      "migration_history" := EmptyStore(StoreConfig("id", true)),
      "users" := EmptyStore(StoreConfig("email", false)),
      "sessions" := EmptyStore(StoreConfig("token", false)),
      "transactions" := EmptyStore(StoreConfig("id", false)),
      "inspections" := EmptyStore(StoreConfig("id", false)),
      "receipts" := EmptyStore(StoreConfig("id", false))
    ]
  }

  // ---------------------------------------------------------------------
  // Table operations on the engine state
  // ---------------------------------------------------------------------

  /** Every record sits under a usable key equal to its own key field. */
  predicate WellKeyed(st: Store) {
    forall k :: k in st.records ==> IsKey(k) && st.config.keyPath in st.records[k] && st.records[k][st.config.keyPath] == k
  }

  predicate AllWellKeyed(d: Database) {
    forall t :: t in d.stores ==> WellKeyed(d.stores[t])
  }

  /** The generator after an explicit numeric key at or above it has been used. */
  function BumpGenerator(st: Store, k: Value): int {
    if st.config.autoIncrement && k.Num? && k.n >= st.nextKey then k.n + 1 else st.nextKey
  }

  /** `put`: store `rec` under its key, replacing any record with that key. */
  function Put(d: Database, t: string, rec: Record): (r: Result<Database>)
    ensures r.Err? <==> (t !in d.stores ||
      var c := d.stores[t].config; if c.keyPath in rec then !IsKey(rec[c.keyPath]) else !c.autoIncrement)
    ensures r.Ok? ==> r.value.version == d.version && r.value.stores.Keys == d.stores.Keys
    ensures r.Ok? ==> r.value.stores[t].config == d.stores[t].config
    ensures r.Ok? ==> d.stores[t].records.Keys <= r.value.stores[t].records.Keys
    ensures r.Ok? ==> forall u :: u in d.stores && u != t ==> r.value.stores[u] == d.stores[u]
  {
    if t !in d.stores then Err(TableNotFound(t))
    else
      var st := d.stores[t];
      var kp := st.config.keyPath;
      if kp in rec then
        if !IsKey(rec[kp]) then Err(DataError)
        else
          var st' := st.(records := st.records[rec[kp] := rec], nextKey := BumpGenerator(st, rec[kp]));
          Ok(d.(stores := d.stores[t := st']))
      else if st.config.autoIncrement then
        var k := Num(st.nextKey);
        var st' := st.(records := st.records[k := rec[kp := k]], nextKey := st.nextKey + 1);
        Ok(d.(stores := d.stores[t := st']))
      else Err(DataError)
  }

  /** `get`: the record stored under `key`, or None. */
  function Get(d: Database, t: string, key: Value): (r: Result<Option<Record>>)
    ensures r.Ok? <==> t in d.stores && IsKey(key)
    ensures r.Ok? ==> (r.value.Some? <==> key in d.stores[t].records)
    ensures r.Ok? && r.value.Some? ==> r.value.value in d.stores[t].records.Values
  {
    if t !in d.stores then Err(TableNotFound(t))
    else if !IsKey(key) then Err(DataError)
    else if key in d.stores[t].records then Ok(Some(d.stores[t].records[key]))
    else Ok(None)
  }

  /** `delete`: remove the record stored under `key`, if there is one. */
  function Remove(d: Database, t: string, key: Value): (r: Result<Database>)
    ensures r.Ok? <==> t in d.stores && IsKey(key)
    ensures r.Ok? ==> r.value.version == d.version && r.value.stores.Keys == d.stores.Keys
    ensures r.Ok? ==> r.value.stores[t].records.Keys == d.stores[t].records.Keys - {key}
    ensures r.Ok? ==> forall u :: u in d.stores && u != t ==> r.value.stores[u] == d.stores[u]
  {
    if t !in d.stores then Err(TableNotFound(t))
    else if !IsKey(key) then Err(DataError)
    else
      var st := d.stores[t];
      Ok(d.(stores := d.stores[t := st.(records := st.records - {key})]))
  }

  /** `getAll`: every record of the table, in ascending key order. */
  function Listing(d: Database, t: string): (r: Result<seq<Record>>)
    requires AllWellKeyed(d)
    ensures r.Ok? <==> t in d.stores
    ensures r.Ok? ==> |r.value| == |d.stores[t].records|
    ensures r.Ok? ==> forall x :: x in r.value <==> x in d.stores[t].records.Values
    ensures r.Ok? ==> var kp := d.stores[t].config.keyPath;
      forall i, j :: 0 <= i < j < |r.value| ==> kp in r.value[i] && kp in r.value[j] && KeyLess(r.value[i][kp], r.value[j][kp])
  {
    if t !in d.stores then Err(TableNotFound(t))
    else
      var st := d.stores[t];
      var out := RecordsInKeyOrder(st);
      ListingFacts(st);
      Ok(out)
  }

  function RecordsInKeyOrder(st: Store): seq<Record>
    requires WellKeyed(st)
  {
    var ks := SortedKeys(st.records.Keys);
    seq(|ks|, i requires 0 <= i < |ks| => st.records[ks[i]])
  }

  lemma ListingFacts(st: Store)
    requires WellKeyed(st)
    ensures |RecordsInKeyOrder(st)| == |st.records|
    ensures forall x :: x in RecordsInKeyOrder(st) <==> x in st.records.Values
    ensures var out, kp := RecordsInKeyOrder(st), st.config.keyPath;
      forall i, j :: 0 <= i < j < |out| ==> kp in out[i] && kp in out[j] && KeyLess(out[i][kp], out[j][kp])
  {
    var recs := st.records;
    var ks := SortedKeys(recs.Keys);
    var out := RecordsInKeyOrder(st);
    assert |recs.Keys| == |recs|;
    forall x | x in recs.Values
      ensures x in out
    {
      var k :| k in recs && recs[k] == x;
      var i :| 0 <= i < |ks| && ks[i] == k;
      assert out[i] == x;
    }
    forall i | 0 <= i < |out|
      ensures st.config.keyPath in out[i] && out[i][st.config.keyPath] == ks[i]
    {
      assert ks[i] in recs;
    }
  }

  // ---------------------------------------------------------------------
  // The process-side state: the disk plus the cached handle
  // ---------------------------------------------------------------------

  datatype PgState = PgState(disk: Database, db: Option<Handle>)

  /** `connect()`: the cached handle if there is one, otherwise open (and upgrade) and cache on success. */
  function ConnectStep(s: PgState): (r: (PgState, Result<Handle>))
    ensures r.1.Ok? ==> r.0.db == Some(r.1.value)
    ensures r.1.Err? ==> r.0 == s
    ensures s.db.Some? ==> r == (s, Ok(s.db.value))
    ensures s.db.None? && r.1.Ok? ==> r.0.disk.version == TargetVersion && r.1.value == Handle(DbName, TargetVersion)
  {
    if s.db.Some? then (s, Ok(s.db.value))
    else
      var (d, r) := Open(s.disk);
      (PgState(d, if r.Ok? then Some(r.value) else None), r)
  }

  function InsertStep(s: PgState, t: string, rec: Record): (PgState, Result<Record>) {
    var (s1, h) := ConnectStep(s);
    if h.Err? then (s1, Err(h.error))
    else match Put(s1.disk, t, rec)
      case Err(e) => (s1, Err(e))
      case Ok(d) => (s1.(disk := d), Ok(rec))
  }

  function QueryAllStep(s: PgState, t: string): (PgState, Result<seq<Record>>)
    requires AllWellKeyed(s.disk)
  {
    ConnectPreservesWellKeyed(s);
    var (s1, h) := ConnectStep(s);
    if h.Err? then (s1, Err(h.error)) else (s1, Listing(s1.disk, t))
  }

  function FindOneStep(s: PgState, t: string, key: Value): (PgState, Result<Option<Record>>) {
    var (s1, h) := ConnectStep(s);
    if h.Err? then (s1, Err(h.error)) else (s1, Get(s1.disk, t, key))
  }

  function DeleteStep(s: PgState, t: string, key: Value): (PgState, Result<bool>) {
    var (s1, h) := ConnectStep(s);
    if h.Err? then (s1, Err(h.error))
    else match Remove(s1.disk, t, key)
      case Err(e) => (s1, Err(e))
      case Ok(d) => (s1.(disk := d), Ok(true))
  }

  // ---------------------------------------------------------------------
  // Lemmas: the migration ledger and the upgrade
  // ---------------------------------------------------------------------

  /** The ledger holds versions 1..4 strictly ascending, and the target is its last version. */
  lemma LedgerWellFormed()
    ensures |Ledger| == TargetVersion
    ensures forall i :: 0 <= i < |Ledger| ==> Ledger[i].version == i + 1
    ensures forall i, j :: 0 <= i < j < |Ledger| ==> Ledger[i].version < Ledger[j].version
    ensures TargetVersion == Ledger[|Ledger| - 1].version
  {
  }

  /** Migration i of `ledger` has version i + 1. */
  predicate Numbered(ledger: seq<Migration>) {
    forall i :: 0 <= i < |ledger| ==> ledger[i].version == i + 1
  }

  lemma {:induction false} PendingOfNumbered(ledger: seq<Migration>, oldVersion: nat)
    requires Numbered(ledger) && oldVersion <= |ledger|
    ensures Pending(ledger, oldVersion) == ledger[oldVersion..]
    ensures Versions(ledger[oldVersion..]) == seq(|ledger| - oldVersion, i => oldVersion + 1 + i)
  {
    VersionsOfNumberedTail(ledger, oldVersion);
    var p := (m: Migration) => m.version > oldVersion;
    assert ledger == ledger[..oldVersion] + ledger[oldVersion..];
    FilterAppend(ledger[..oldVersion], ledger[oldVersion..], p);
    FilterNone(ledger[..oldVersion], p);
    FilterAll(ledger[oldVersion..], p);
  }

  lemma VersionsOfNumberedTail(ledger: seq<Migration>, oldVersion: nat)
    requires Numbered(ledger) && oldVersion <= |ledger|
    ensures Versions(ledger[oldVersion..]) == seq(|ledger| - oldVersion, i => oldVersion + 1 + i)
  {
    var vs := Versions(ledger[oldVersion..]);
    var want := seq(|ledger| - oldVersion, i => oldVersion + 1 + i);
    assert |vs| == |want|;
    forall i | 0 <= i < |vs|
      ensures vs[i] == want[i]
    {
      assert ledger[oldVersion..][i] == ledger[oldVersion + i];
    }
  }

  /** For a stored version up to the target, the pending migrations are exactly the ledger's tail above it. */
  lemma PendingIsTail(oldVersion: nat)
    requires oldVersion <= TargetVersion
    ensures Pending(Ledger, oldVersion) == Ledger[oldVersion..]
    ensures Versions(Pending(Ledger, oldVersion)) == seq(TargetVersion - oldVersion, i => oldVersion + 1 + i)
  {
    LedgerWellFormed();
    assert Numbered(Ledger);
    PendingOfNumbered(Ledger, oldVersion);
  }

  /** A failed step fails the whole upgrade: later migrations cannot undo the failure. */
  lemma {:induction false} RunMigrationsFailureSticks(stores: map<string, Store>, a: seq<Migration>, b: seq<Migration>)
    requires RunMigrations(stores, a) == None
    ensures RunMigrations(stores, a + b) == None
    decreases |b|
  {
    if b != [] {
      var ab := a + b;
      assert ab[..|ab| - 1] == a + b[..|b| - 1];
      RunMigrationsFailureSticks(stores, a, b[..|b| - 1]);
    } else {
      assert a + b == a;
    }
  }

  /** No two migrations of the ledger create the same table, so each table is created once. */
  lemma LedgerCreatesEachTableOnce()
    ensures forall i, j, a, b ::
      (0 <= i < |Ledger| && 0 <= j < |Ledger| && 0 <= a < |Ledger[i].creates| && 0 <= b < |Ledger[j].creates|
       && Ledger[i].creates[a].0 == Ledger[j].creates[b].0) ==> i == j && a == b
  {
  }

  lemma RunMigrationsSnoc(stores: map<string, Store>, ms: seq<Migration>, m: Migration)
    ensures RunMigrations(stores, ms + [m]) ==
      match RunMigrations(stores, ms)
      case None => None
      case Some(s) => CreateStores(s, m.creates)
  {
    assert (ms + [m])[..|ms|] == ms;
  }

  /** A brand-new database upgrades to exactly the six tables of version 4, all empty. */
  lemma UpgradeFromEmpty()
    ensures Open(Database(0, map[])) == (Database(TargetVersion, SchemaV4()), Ok(Handle(DbName, TargetVersion)))
  {
    PendingIsTail(0);
    assert Ledger[0..] == Ledger;
    RunWholeLedger();
  }

  lemma RunWholeLedger()
    ensures RunMigrations(map[], Ledger) == Some(SchemaV4())
  {
    var id := StoreConfig("id", false);
    var s1 := map[
      "migration_history" := EmptyStore(StoreConfig("id", true)),
      "users" := EmptyStore(StoreConfig("email", false)),
      "sessions" := EmptyStore(StoreConfig("token", false))];
    var s2 := s1["transactions" := EmptyStore(id)]["inspections" := EmptyStore(id)];
    var s3 := s2["receipts" := EmptyStore(id)];
    CreatesV1();
    CreatesV2(s1);
    CreatesV3(s2);
    var l1, l2, l3 := [Ledger[0]], [Ledger[0], Ledger[1]], [Ledger[0], Ledger[1], Ledger[2]];
    RunStep([], Ledger[0], map[], s1);
    assert [] + [Ledger[0]] == l1;
    RunStep(l1, Ledger[1], s1, s2);
    assert l1 + [Ledger[1]] == l2;
    RunStep(l2, Ledger[2], s2, s3);
    assert l2 + [Ledger[2]] == l3;
    assert Ledger[3].creates == [];
    RunStep(l3, Ledger[3], s3, s3);
    assert l3 + [Ledger[3]] == Ledger;
    assert s3 == SchemaV4();
  }

  lemma RunStep(ms: seq<Migration>, m: Migration, s: map<string, Store>, s': map<string, Store>)
    requires RunMigrations(map[], ms) == Some(s) && CreateStores(s, m.creates) == Some(s')
    ensures RunMigrations(map[], ms + [m]) == Some(s')
  {
    RunMigrationsSnoc(map[], ms, m);
  }

  lemma CreatesV1()
    ensures CreateStores(map[], Ledger[0].creates) == Some(map[
      "migration_history" := EmptyStore(StoreConfig("id", true)),
      "users" := EmptyStore(StoreConfig("email", false)),
      "sessions" := EmptyStore(StoreConfig("token", false))])
  {
    var c := Ledger[0].creates;
    var a := map["migration_history" := EmptyStore(StoreConfig("id", true))];
    var b := a["users" := EmptyStore(StoreConfig("email", false))];
    assert CreateStores(map[], c) == CreateStores(a, c[1..]);
    assert CreateStores(a, c[1..]) == CreateStores(b, c[2..]);
  }

  lemma CreatesV2(s1: map<string, Store>)
    requires s1.Keys == {"migration_history", "users", "sessions"}
    ensures CreateStores(s1, Ledger[1].creates) ==
      Some(s1["transactions" := EmptyStore(StoreConfig("id", false))]["inspections" := EmptyStore(StoreConfig("id", false))])
  {
    var c := Ledger[1].creates;
    assert CreateStores(s1, c) == CreateStores(s1["transactions" := EmptyStore(StoreConfig("id", false))], c[1..]);
  }

  lemma CreatesV3(s2: map<string, Store>)
    requires s2.Keys == {"migration_history", "users", "sessions", "transactions", "inspections"}
    ensures CreateStores(s2, Ledger[2].creates) == Some(s2["receipts" := EmptyStore(StoreConfig("id", false))])
  {
  }

  /** Re-opening a database that opened successfully finds it at the target version and runs nothing. */
  lemma ReopenRunsNothing(d: Database)
    requires Open(d).1.Ok?
    ensures Open(d).0.version == TargetVersion
    ensures Open(Open(d).0) == (Open(d).0, Open(d).1)
  {
  }

  /** A failed open leaves the disk exactly as it was (the upgrade transaction is atomic). */
  lemma OpenFailureLeavesDisk(d: Database)
    requires Open(d).1.Err?
    ensures Open(d).0 == d
    ensures d.version > TargetVersion || RunMigrations(d.stores, Pending(Ledger, d.version)).None?
  {
  }

  /** A stored version above the target is refused. */
  lemma OpenRefusesNewerVersion(d: Database)
    requires d.version > TargetVersion
    ensures Open(d).1 == Err(StorageUnavailable)
  {
  }

  lemma {:induction false} CreateStoresKeepsWellKeyed(stores: map<string, Store>, creates: seq<(string, StoreConfig)>)
    requires forall t :: t in stores ==> WellKeyed(stores[t])
    requires CreateStores(stores, creates).Some?
    ensures forall t :: t in CreateStores(stores, creates).value ==> WellKeyed(CreateStores(stores, creates).value[t])
    ensures forall t :: t in stores ==> t in CreateStores(stores, creates).value && CreateStores(stores, creates).value[t] == stores[t]
    decreases |creates|
  {
    if creates != [] {
      CreateStoresKeepsWellKeyed(stores[creates[0].0 := EmptyStore(creates[0].1)], creates[1..]);
    }
  }

  lemma {:induction false} RunMigrationsKeepsWellKeyed(stores: map<string, Store>, ms: seq<Migration>)
    requires forall t :: t in stores ==> WellKeyed(stores[t])
    requires RunMigrations(stores, ms).Some?
    ensures forall t :: t in RunMigrations(stores, ms).value ==> WellKeyed(RunMigrations(stores, ms).value[t])
    ensures forall t :: t in stores ==> t in RunMigrations(stores, ms).value && RunMigrations(stores, ms).value[t] == stores[t]
    decreases |ms|
  {
    if ms != [] {
      var prefix := ms[..|ms| - 1];
      RunMigrationsKeepsWellKeyed(stores, prefix);
      CreateStoresKeepsWellKeyed(RunMigrations(stores, prefix).value, ms[|ms| - 1].creates);
    }
  }

  /** Upgrading never touches an existing table's records, and new tables start empty. */
  lemma ConnectPreservesWellKeyed(s: PgState)
    requires AllWellKeyed(s.disk)
    ensures AllWellKeyed(ConnectStep(s).0.disk)
    ensures forall t :: t in s.disk.stores ==> t in ConnectStep(s).0.disk.stores && ConnectStep(s).0.disk.stores[t] == s.disk.stores[t]
  {
    if s.db.None? && s.disk.version < TargetVersion && RunMigrations(s.disk.stores, Pending(Ledger, s.disk.version)).Some? {
      RunMigrationsKeepsWellKeyed(s.disk.stores, Pending(Ledger, s.disk.version));
    }
  }

  /** `connect` is idempotent: once a handle is cached, connecting again changes nothing and returns it. */
  lemma ConnectIdempotent(s: PgState)
    requires ConnectStep(s).1.Ok?
    ensures ConnectStep(s).0.db == Some(ConnectStep(s).1.value)
    ensures ConnectStep(ConnectStep(s).0) == ConnectStep(s)
  {
  }

  // ---------------------------------------------------------------------
  // Lemmas: key/value semantics
  // ---------------------------------------------------------------------

  /**
   * `put` is an upsert: the record is then found in full under its key, every
   * other key and every other table is as before, and the table set is unchanged.
   */
  lemma PutThenGet(d: Database, t: string, rec: Record, k: Value)
    requires t in d.stores && d.stores[t].config.keyPath in rec
    requires Put(d, t, rec).Ok?
    ensures var d' := Put(d, t, rec).value;
      && d'.version == d.version
      && d'.stores.Keys == d.stores.Keys
      && Get(d', t, rec[d.stores[t].config.keyPath]) == Ok(Some(rec))
      && (k != rec[d.stores[t].config.keyPath] ==> Get(d', t, k) == Get(d, t, k))
      && (forall u :: u in d.stores && u != t ==> d'.stores[u] == d.stores[u])
  {
  }

  /** A second put under the same key replaces the first record in full, with no merge of fields. */
  lemma PutOverwrites(d: Database, t: string, r1: Record, r2: Record)
    requires t in d.stores && d.stores[t].config.keyPath in r1 && d.stores[t].config.keyPath in r2
    requires r1[d.stores[t].config.keyPath] == r2[d.stores[t].config.keyPath]
    requires Put(d, t, r1).Ok?
    ensures Put(Put(d, t, r1).value, t, r2).Ok?
    ensures Get(Put(Put(d, t, r1).value, t, r2).value, t, r2[d.stores[t].config.keyPath]) == Ok(Some(r2))
  {
  }

  /** A record without its key field gets the generator's key written into it, on auto-increment tables only. */
  lemma PutGeneratesKey(d: Database, t: string, rec: Record)
    requires t in d.stores && d.stores[t].config.keyPath !in rec
    ensures Put(d, t, rec).Ok? <==> d.stores[t].config.autoIncrement
    ensures Put(d, t, rec).Ok? ==>
      var kp := d.stores[t].config.keyPath;
      var k := Num(d.stores[t].nextKey);
      Get(Put(d, t, rec).value, t, k) == Ok(Some(rec[kp := k])) &&
      Put(d, t, rec).value.stores[t].nextKey == d.stores[t].nextKey + 1
  {
  }

  /** A lookup that misses is an empty result, not an error. */
  lemma GetMissIsAbsent(d: Database, t: string, key: Value)
    requires t in d.stores && IsKey(key) && key !in d.stores[t].records
    ensures Get(d, t, key) == Ok(None)
  {
  }

  /**
   * `delete` succeeds whether or not the key is present; afterwards the key is
   * absent, every other record is unchanged, and deleting again changes nothing.
   */
  lemma RemoveThenGet(d: Database, t: string, key: Value, k: Value)
    requires t in d.stores && IsKey(key)
    ensures Remove(d, t, key).Ok?
    ensures Get(Remove(d, t, key).value, t, key) == Ok(None)
    ensures k != key ==> Get(Remove(d, t, key).value, t, k) == Get(d, t, k)
    ensures Remove(Remove(d, t, key).value, t, key) == Remove(d, t, key)
    ensures forall u :: u in d.stores && u != t ==> Remove(d, t, key).value.stores[u] == d.stores[u]
  {
    var st := d.stores[t];
    var d1 := Remove(d, t, key).value;
    assert d1.stores[t].records - {key} == st.records - {key};
    assert d1.stores[t := d1.stores[t].(records := d1.stores[t].records - {key})] == d1.stores;
  }

  /** Writes keep every record under its own key. */
  lemma WritesKeepWellKeyed(d: Database, t: string, rec: Record, key: Value)
    requires AllWellKeyed(d)
    ensures Put(d, t, rec).Ok? ==> AllWellKeyed(Put(d, t, rec).value)
    ensures Remove(d, t, key).Ok? ==> AllWellKeyed(Remove(d, t, key).value)
  {
  }

  /** Put each record in turn; the first failure stops the sequence. */
  function PutAll(d: Database, t: string, recs: seq<Record>): Result<Database>
    decreases |recs|
  {
    if recs == [] then Ok(d)
    else match Put(d, t, recs[0])
      case Err(e) => Err(e)
      case Ok(d1) => PutAll(d1, t, recs[1..])
  }

  /** The key values of `recs` under field `kp`. */
  function KeySet(recs: seq<Record>, kp: string): set<Value>
    requires forall i :: 0 <= i < |recs| ==> kp in recs[i]
  {
    set i | 0 <= i < |recs| :: recs[i][kp]
  }

  /**
   * Completeness of `getAll`: after putting records with n distinct usable keys
   * into an empty table, with no deletes, the table lists exactly n records,
   * namely the ones put, and its keys are exactly theirs.
   */
  lemma QueryAllComplete(d: Database, t: string, recs: seq<Record>)
    requires AllWellKeyed(d)
    requires t in d.stores && d.stores[t].records == map[]
    requires forall i :: 0 <= i < |recs| ==> d.stores[t].config.keyPath in recs[i] && IsKey(recs[i][d.stores[t].config.keyPath])
    requires forall i, j :: 0 <= i < j < |recs| ==> recs[i][d.stores[t].config.keyPath] != recs[j][d.stores[t].config.keyPath]
    ensures PutAll(d, t, recs).Ok?
    ensures AllWellKeyed(PutAll(d, t, recs).value)
    ensures t in PutAll(d, t, recs).value.stores
    ensures PutAll(d, t, recs).value.stores[t].records.Keys == KeySet(recs, d.stores[t].config.keyPath)
    ensures var l := Listing(PutAll(d, t, recs).value, t);
      l.Ok? && |l.value| == |recs| && (forall x :: x in l.value <==> x in recs)
  {
    var kp := d.stores[t].config.keyPath;
    PutAllStores(d, t, recs, kp);
    var d' := PutAll(d, t, recs).value;
    var m := d'.stores[t].records;
    DistinctKeysCount(recs, kp);
    assert |m| == |m.Keys|;
    forall x | x in recs
      ensures x in m.Values
    {
      var i :| 0 <= i < |recs| && recs[i] == x;
      assert m[recs[i][kp]] == x;
    }
    forall x | x in m.Values
      ensures x in recs
    {
      var k :| k in m && m[k] == x;
      var i :| 0 <= i < |recs| && recs[i][kp] == k;
    }
  }

  lemma {:induction false} DistinctKeysCount(recs: seq<Record>, kp: string)
    requires forall i :: 0 <= i < |recs| ==> kp in recs[i]
    requires forall i, j :: 0 <= i < j < |recs| ==> recs[i][kp] != recs[j][kp]
    ensures |KeySet(recs, kp)| == |recs|
  {
    if recs != [] {
      var rest := recs[1..];
      DistinctKeysCount(rest, kp);
      assert KeySet(recs, kp) == {recs[0][kp]} + KeySet(rest, kp) by {
        forall v | v in KeySet(recs, kp)
          ensures v in {recs[0][kp]} + KeySet(rest, kp)
        {
          var i :| 0 <= i < |recs| && recs[i][kp] == v;
          if i > 0 {
            assert rest[i - 1][kp] == v;
          }
        }
      }
      forall j | 0 <= j < |rest|
        ensures rest[j][kp] != recs[0][kp]
      {
        assert rest[j] == recs[j + 1];
      }
    }
  }

  /** Putting records with distinct usable keys stores each under its key and keeps everything else. */
  /** The keys of a non-empty list: its head's key and the keys of its tail. */
  lemma KeySetCons(recs: seq<Record>, kp: string)
    requires recs != [] && forall i :: 0 <= i < |recs| ==> kp in recs[i]
    ensures KeySet(recs, kp) == {recs[0][kp]} + KeySet(recs[1..], kp)
  {
    var rest := recs[1..];
    forall v | v in KeySet(recs, kp)
      ensures v in {recs[0][kp]} + KeySet(rest, kp)
    {
      var i :| 0 <= i < |recs| && recs[i][kp] == v;
      if i > 0 {
        assert rest[i - 1][kp] == v;
      }
    }
    forall v | v in KeySet(rest, kp)
      ensures v in KeySet(recs, kp)
    {
      var i :| 0 <= i < |rest| && rest[i][kp] == v;
      assert recs[i + 1][kp] == v;
    }
  }

  lemma {:induction false} PutAllStores(d: Database, t: string, recs: seq<Record>, kp: string)
    requires AllWellKeyed(d)
    requires t in d.stores && d.stores[t].config.keyPath == kp
    requires forall i :: 0 <= i < |recs| ==> kp in recs[i] && IsKey(recs[i][kp])
    requires forall i, j :: 0 <= i < j < |recs| ==> recs[i][kp] != recs[j][kp]
    ensures PutAll(d, t, recs).Ok?
    ensures AllWellKeyed(PutAll(d, t, recs).value)
    ensures t in PutAll(d, t, recs).value.stores
    ensures PutAll(d, t, recs).value.stores[t].config == d.stores[t].config
    ensures PutAll(d, t, recs).value.stores[t].records.Keys == d.stores[t].records.Keys + KeySet(recs, kp)
    ensures forall i :: 0 <= i < |recs| ==> PutAll(d, t, recs).value.stores[t].records[recs[i][kp]] == recs[i]
    decreases |recs|
  {
    if recs != [] {
      var d1 := Put(d, t, recs[0]).value;
      WritesKeepWellKeyed(d, t, recs[0], recs[0][kp]);
      var rest := recs[1..];
      PutAllStores(d1, t, rest, kp);
      var m := PutAll(d1, t, rest).value.stores[t].records;
      KeySetCons(recs, kp);
      PutAllKeepsOthers(d1, t, rest, kp, recs[0][kp]);
      forall i | 0 <= i < |recs|
        ensures m[recs[i][kp]] == recs[i]
      {
        if i > 0 {
          assert recs[i] == rest[i - 1];
        }
      }
    }
  }

  /** A key that none of `recs` carries keeps its record through the puts. */
  lemma {:induction false} PutAllKeepsOthers(d: Database, t: string, recs: seq<Record>, kp: string, k: Value)
    requires t in d.stores && d.stores[t].config.keyPath == kp
    requires forall i :: 0 <= i < |recs| ==> kp in recs[i] && IsKey(recs[i][kp]) && recs[i][kp] != k
    requires k in d.stores[t].records
    ensures PutAll(d, t, recs).Ok?
    ensures t in PutAll(d, t, recs).value.stores
    ensures k in PutAll(d, t, recs).value.stores[t].records
    ensures PutAll(d, t, recs).value.stores[t].records[k] == d.stores[t].records[k]
    decreases |recs|
  {
    if recs != [] {
      PutAllKeepsOthers(Put(d, t, recs[0]).value, t, recs[1..], kp, k);
    }
  }

  /** After a successful insert, finding the record's key returns it in full and changes nothing. */
  lemma InsertThenFindOne(s: PgState, t: string, rec: Record)
    requires InsertStep(s, t, rec).1.Ok?
    ensures var s1 := InsertStep(s, t, rec).0;
      && InsertStep(s, t, rec).1 == Ok(rec)
      && s1.db.Some? && t in s1.disk.stores
      && (s1.disk.stores[t].config.keyPath in rec ==>
            FindOneStep(s1, t, rec[s1.disk.stores[t].config.keyPath]) == (s1, Ok(Some(rec))))
  {
  }

  /** After a successful delete the key is absent, and deleting it again succeeds and changes nothing. */
  lemma DeleteThenFindOne(s: PgState, t: string, key: Value)
    requires DeleteStep(s, t, key).1.Ok?
    ensures var s1 := DeleteStep(s, t, key).0;
      && FindOneStep(s1, t, key) == (s1, Ok(None))
      && DeleteStep(s1, t, key) == (s1, Ok(true))
  {
    var (c, _) := ConnectStep(s);
    RemoveThenGet(c.disk, t, key, key);
  }

  /**
   * The lifecycle of one transaction record on a brand-new database: the
   * insert runs migrations 1..4, the record is then listed alone and found by
   * its id, and after deleting it the table lists nothing.
   */
  lemma FreshTransactionLifecycle(txn: Record)
    requires "id" in txn && txn["id"] == Str("TXN-001")
    ensures var s0 := PgState(Database(0, map[]), None);
      var (s1, r1) := InsertStep(s0, "transactions", txn);
      && r1 == Ok(txn)
      && AllWellKeyed(s1.disk)
      && QueryAllStep(s1, "transactions") == (s1, Ok([txn]))
      && FindOneStep(s1, "transactions", Str("TXN-001")) == (s1, Ok(Some(txn)))
      && var (s2, r2) := DeleteStep(s1, "transactions", Str("TXN-001"));
      && r2 == Ok(true)
      && AllWellKeyed(s2.disk)
      && QueryAllStep(s2, "transactions") == (s2, Ok([]))
  {
    var s0 := PgState(Database(0, map[]), None);
    UpgradeFromEmpty();
    var c := PgState(Database(TargetVersion, SchemaV4()), Some(Handle(DbName, TargetVersion)));
    assert ConnectStep(s0) == (c, Ok(Handle(DbName, TargetVersion)));
    assert InsertStep(s0, "transactions", txn) == InsertStep(c, "transactions", txn);
    TransactionLifecycle(c, txn);
  }

  /** The same lifecycle on any connected database whose `transactions` table is empty. */
  lemma TransactionLifecycle(c: PgState, txn: Record)
    requires c.db.Some? && AllWellKeyed(c.disk)
    requires "transactions" in c.disk.stores && c.disk.stores["transactions"] == EmptyStore(StoreConfig("id", false))
    requires "id" in txn && txn["id"] == Str("TXN-001")
    ensures var (s1, r1) := InsertStep(c, "transactions", txn);
      && r1 == Ok(txn)
      && AllWellKeyed(s1.disk)
      && QueryAllStep(s1, "transactions") == (s1, Ok([txn]))
      && FindOneStep(s1, "transactions", Str("TXN-001")) == (s1, Ok(Some(txn)))
      && var (s2, r2) := DeleteStep(s1, "transactions", Str("TXN-001"));
      && r2 == Ok(true)
      && AllWellKeyed(s2.disk)
      && QueryAllStep(s2, "transactions") == (s2, Ok([]))
  {
    var k := Str("TXN-001");
    var (s1, r1) := InsertStep(c, "transactions", txn);
    WritesKeepWellKeyed(c.disk, "transactions", txn, k);
    var st1 := s1.disk.stores["transactions"];
    assert st1.records == map[k := txn];
    ListingFacts(st1);
    var l1 := RecordsInKeyOrder(st1);
    assert |l1| == 1 && l1[0] in st1.records.Values;
    assert l1 == [txn];
    var (s2, r2) := DeleteStep(s1, "transactions", k);
    WritesKeepWellKeyed(s1.disk, "transactions", txn, k);
    var st2 := s2.disk.stores["transactions"];
    assert st2.records == map[];
    ListingFacts(st2);
  }

  /**
   * The upgrade callback: walk the ledger in order and run each migration whose
   * version is above the stored one. A failing `up` aborts the upgrade
   * transaction, so nothing is committed and None is returned.
   */
  method Upgrade(ledger: seq<Migration>, stores: map<string, Store>, oldVersion: nat)
    returns (r: Option<map<string, Store>>)
    ensures r == RunMigrations(stores, Pending(ledger, oldVersion))
  {
    var current := stores;
    var i := 0;
    while i < |ledger|
      invariant 0 <= i <= |ledger|
      invariant RunMigrations(stores, Pending(ledger[..i], oldVersion)) == Some(current)
    {
      var m := ledger[i];
      PendingSnoc(ledger, i, oldVersion);
      if m.version > oldVersion {
        RunMigrationsSnoc(stores, Pending(ledger[..i], oldVersion), m);
        var next := CreateStores(current, m.creates);
        if next.None? {
          PendingFailureSticks(ledger, stores, i, oldVersion);
          return None;
        }
        current := next.value;
      }
      i := i + 1;
    }
    assert ledger[..i] == ledger;
    r := Some(current);
  }

  lemma PendingSnoc(ledger: seq<Migration>, i: nat, oldVersion: nat)
    requires i < |ledger|
    ensures ledger[i].version > oldVersion ==> Pending(ledger[..i + 1], oldVersion) == Pending(ledger[..i], oldVersion) + [ledger[i]]
    ensures ledger[i].version <= oldVersion ==> Pending(ledger[..i + 1], oldVersion) == Pending(ledger[..i], oldVersion)
  {
    assert ledger[..i + 1] == ledger[..i] + [ledger[i]];
    FilterSnoc(ledger[..i], ledger[i], (m: Migration) => m.version > oldVersion);
  }

  lemma PendingFailureSticks(ledger: seq<Migration>, stores: map<string, Store>, i: nat, oldVersion: nat)
    requires i < |ledger|
    requires RunMigrations(stores, Pending(ledger[..i + 1], oldVersion)) == None
    ensures RunMigrations(stores, Pending(ledger, oldVersion)) == None
  {
    assert ledger == ledger[..i + 1] + ledger[i + 1..];
    FilterAppend(ledger[..i + 1], ledger[i + 1..], (m: Migration) => m.version > oldVersion);
    RunMigrationsFailureSticks(stores, Pending(ledger[..i + 1], oldVersion), Pending(ledger[i + 1..], oldVersion));
  }

  // ---------------------------------------------------------------------
  // The store object
  // ---------------------------------------------------------------------

  /** The table store. `disk` is the engine's durable state, reached through the cached handle `db`. */
  class PostgresSim {
    var disk: Database
    var db: Option<Handle>
    ghost var opens: nat         // how often this process asked the engine to open the database
    ghost var applied: seq<nat>  // versions of the migrations this process has committed, in order

    function State(): PgState
      reads this
    {
      PgState(disk, db)
    }

    /** The engine keeps every record under the value of its own key field. */
    ghost predicate Valid()
      reads this
    {
      AllWellKeyed(disk)
    }

    /** A fresh process: no handle yet, over what the engine has stored (always keyed consistently). */
    constructor (stored: Database)
      requires AllWellKeyed(stored)
      ensures Valid() && disk == stored && db == None
      ensures opens == 0 && applied == []
    {
      disk := stored;
      db := None;
      opens := 0;
      applied := [];
    }

    method Connect() returns (r: Result<Handle>)
      requires Valid()
      modifies this
      ensures Valid()
      ensures (State(), r) == ConnectStep(old(State()))
      ensures old(db).Some? ==> opens == old(opens) && applied == old(applied)
      ensures old(db).None? ==> opens == old(opens) + 1
      ensures applied == old(applied) + (
        if old(db).None? && r.Ok? && old(disk).version < TargetVersion
        then Versions(Pending(Ledger, old(disk).version)) else [])
    {
      ConnectPreservesWellKeyed(State());
      if db.Some? {
        return Ok(db.value);
      }
      opens := opens + 1;
      var oldVersion := disk.version;
      if oldVersion > TargetVersion {
        return Err(StorageUnavailable);
      }
      if oldVersion < TargetVersion {
        var upgraded := Upgrade(Ledger, disk.stores, oldVersion);
        if upgraded.None? {
          return Err(StorageUnavailable);
        }
        disk := Database(TargetVersion, upgraded.value);
        applied := applied + Versions(Pending(Ledger, oldVersion));
      }
      var h := Handle(DbName, TargetVersion);
      db := Some(h);
      r := Ok(h);
    }

    method Insert(storeName: string, data: Record) returns (r: Result<Record>)
      requires Valid()
      modifies this
      ensures Valid()
      ensures (State(), r) == InsertStep(old(State()), storeName, data)
    {
      var h := Connect();
      if h.Err? {
        return Err(h.error);
      }
      var put := Put(disk, storeName, data);
      WritesKeepWellKeyed(disk, storeName, data, Null);
      if put.Err? {
        return Err(put.error);
      }
      disk := put.value;
      r := Ok(data);
    }

    method QueryAll(storeName: string) returns (r: Result<seq<Record>>)
      requires Valid()
      modifies this
      ensures Valid()
      ensures (State(), r) == QueryAllStep(old(State()), storeName)
    {
      var h := Connect();
      if h.Err? {
        return Err(h.error);
      }
      r := Listing(disk, storeName);
    }

    method FindOne(storeName: string, key: Value) returns (r: Result<Option<Record>>)
      requires Valid()
      modifies this
      ensures Valid()
      ensures (State(), r) == FindOneStep(old(State()), storeName, key)
    {
      var h := Connect();
      if h.Err? {
        return Err(h.error);
      }
      r := Get(disk, storeName, key);
    }

    method Delete(storeName: string, key: Value) returns (r: Result<bool>)
      requires Valid()
      modifies this
      ensures Valid()
      ensures (State(), r) == DeleteStep(old(State()), storeName, key)
    {
      var h := Connect();
      if h.Err? {
        return Err(h.error);
      }
      var del := Remove(disk, storeName, key);
      WritesKeepWellKeyed(disk, storeName, map[], key);
      if del.Err? {
        return Err(del.error);
      }
      disk := del.value;
      r := Ok(true);
    }
  }

}
