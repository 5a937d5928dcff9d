/**
 * Sessions over the table store: seeding the demo users, logging in by email,
 * resolving the session named by the token kept in browser storage, and
 * logging out. The clock and the random token suffix are parameters.
 */
module Auth {
  import opened Values
  import opened Types
  import opened TableStore

  /** Sessions last 24 hours, in milliseconds. */
  const SessionLifetime: int := 24 * 60 * 60 * 1000

  const TokenPrefix: string := "sess_"

  datatype DemoUser = DemoUser(email: string, name: string, role: UserRole)

  /** The four demo accounts, one per role, in the order they are seeded. */
  const DemoUsers: seq<DemoUser> := [
    DemoUser("admin@fpis.gov.ng", "Muhammad Qaim Aliyu Sambo", SuperAdmin),
    DemoUser("inspector@fpis.gov.ng", "Inspector Jabir", Inspector),
    DemoUser("agent@fpis.gov.ng", "Agent Musa", Agent),
    DemoUser("reviewer@fpis.gov.ng", "Audit Reviewer", Reviewer)
  ]

  /** The `users` row written for a demo account; every demo password is the same literal. */
  function UserRecord(u: DemoUser): Record {
    map["email" := Str(u.email), "name" := Str(u.name), "role" := Str(RoleName(u.role)), "password" := Str("password")]
  }

  /** Copy field `f` of `from` into `to` when `from` has it (an `undefined` field is not stored). */
  function CopyField(to: Record, from: Record, f: string): Record {
    if f in from then to[f := from[f]] else to
  }

  /** The session row `login` builds for a user row found at time `now`. */
  function SessionRecord(token: string, user: Record, now: int): (s: Record)
    ensures Field(s, "token") == Some(Str(token)) && Field(s, "expiresAt") == Some(Num(now + SessionLifetime))
    ensures forall f :: f in {"email", "role", "name"} ==> Field(s, f) == Field(user, f)
    ensures s.Keys <= {"token", "expiresAt", "email", "role", "name"}
  {
    var base := map["token" := Str(token), "expiresAt" := Num(now + SessionLifetime)];
    CopyField(CopyField(CopyField(base, user, "email"), user, "role"), user, "name")
  }

  /**
   * `session.expiresAt < now`, with JavaScript's coercion of the stored value
   * to a number: a boolean counts as 0 or 1, null as 0; a missing field
   * compares false. Strings are not coerced here and never count as expired.
   */
  predicate Expired(session: Record, now: int)
    ensures "expiresAt" !in session ==> !Expired(session, now)
    ensures "expiresAt" in session && session["expiresAt"].Num? ==> (Expired(session, now) <==> session["expiresAt"].n < now)
  {
    if "expiresAt" !in session then false
    else match session["expiresAt"]
      case Num(n) => n < now
      case Bool(b) => (if b then 1 else 0) < now
      case Null => 0 < now
      case Str(_) => false
  }

  /** A session that has expired stays expired as the clock moves on. */
  lemma ExpiredStaysExpired(session: Record, now: int, later: int)
    requires Expired(session, now) && now <= later
    ensures Expired(session, later)
  {
  }

  /** A token that browser storage holds and that is truthy (the empty string is not). */
  predicate HasToken(token: Option<string>) {
    token.Some? && token.value != ""
  }

  /** The table store plus the storage slot that holds the session token. */
  datatype AuthState = AuthState(pg: PgState, token: Option<string>)

  /** `seedDemoUsers`: insert each user in turn; the first failing insert ends the seeding. */
  function SeedFrom(s: PgState, users: seq<DemoUser>): (r: (PgState, Result<()>))
    ensures r.1.Err? ==> users != []
    ensures users != [] && r.1.Ok? ==> r.0.db.Some? && "users" in r.0.disk.stores
    decreases |users|
  {
    if users == [] then (s, Ok(()))
    else
      var (s1, r) := InsertStep(s, "users", UserRecord(users[0]));
      if r.Err? then (s1, Err(r.error)) else SeedFrom(s1, users[1..])
  }

  /** `login(email)`: look the user up; if found, store a new session and remember its token. */
  function LoginStep(a: AuthState, email: string, now: int, suffix: string): (r: (AuthState, Result<Option<Record>>))
    ensures r.1.Ok? && r.1.value.Some? ==>
      && r.0.token == Some(TokenPrefix + suffix)
      && Field(r.1.value.value, "token") == Some(Str(TokenPrefix + suffix))
      && Field(r.1.value.value, "expiresAt") == Some(Num(now + SessionLifetime))
    ensures !(r.1.Ok? && r.1.value.Some?) ==> r.0.token == a.token
  {
    var (s1, found) := FindOneStep(a.pg, "users", Str(email));
    if found.Err? then (a.(pg := s1), Err(found.error))
    else if found.value.None? then (a.(pg := s1), Ok(None))
    else
      var session := SessionRecord(TokenPrefix + suffix, found.value.value, now);
      var (s2, ins) := InsertStep(s1, "sessions", session);
      if ins.Err? then (a.(pg := s2), Err(ins.error))
      else (AuthState(s2, Some(TokenPrefix + suffix)), Ok(Some(session)))
  }

  /**
   * `getSession()`: no truthy token means no session; a token with no row, or
   * with an expired row, is forgotten (the expired row is also deleted);
   * otherwise the stored row is the session.
   */
  function GetSessionStep(a: AuthState, now: int): (r: (AuthState, Result<Option<Record>>))
    ensures r.1.Ok? && r.1.value.Some? ==> HasToken(a.token) && r.0.token == a.token && !Expired(r.1.value.value, now)
    ensures r.1 == Ok(None) ==> !HasToken(r.0.token)
    ensures r.1.Err? ==> r.0.token == a.token
  {
    if !HasToken(a.token) then (a, Ok(None))
    else
      var tok := a.token.value;
      var (s1, found) := FindOneStep(a.pg, "sessions", Str(tok));
      if found.Err? then (a.(pg := s1), Err(found.error))
      else if found.value.None? then (AuthState(s1, None), Ok(None))
      else if Expired(found.value.value, now) then
        var (s2, del) := DeleteStep(s1, "sessions", Str(tok));
        if del.Err? then (a.(pg := s2), Err(del.error))
        else (AuthState(s2, None), Ok(None))
      else (a.(pg := s1), Ok(Some(found.value.value)))
  }

  /** `logout()`: delete the session row of a truthy token, then forget the token. */
  function LogoutStep(a: AuthState): (r: (AuthState, Result<()>))
    ensures r.1.Ok? ==> r.0.token == None
    ensures r.1.Err? ==> HasToken(a.token) && r.0.token == a.token
  {
    if HasToken(a.token) then
      var (s1, del) := DeleteStep(a.pg, "sessions", Str(a.token.value));
      if del.Err? then (a.(pg := s1), Err(del.error))
      else (AuthState(s1, None), Ok(()))
    else (a.(token := None), Ok(()))
  }

  // ---------------------------------------------------------------------
  // The operations on the table store object and the token slot
  // ---------------------------------------------------------------------

  /** The browser storage entry `fpis_auth_token`. */
  class TokenSlot {
    var token: Option<string>

    constructor (token: Option<string>)
      ensures this.token == token
    {
      this.token := token;
    }
  }

  method SeedDemoUsers(pg: PostgresSim) returns (r: Result<()>)
    requires pg.Valid()
    modifies pg
    ensures pg.Valid()
    ensures (pg.State(), r) == SeedFrom(old(pg.State()), DemoUsers)
  {
    for i := 0 to |DemoUsers|
      invariant pg.Valid()
      invariant SeedFrom(old(pg.State()), DemoUsers) == SeedFrom(pg.State(), DemoUsers[i..])
    {
      assert DemoUsers[i..][1..] == DemoUsers[i + 1..];
      var ins := pg.Insert("users", UserRecord(DemoUsers[i]));
      if ins.Err? {
        return Err(ins.error);
      }
    }
    r := Ok(());
  }

  method Login(pg: PostgresSim, slot: TokenSlot, email: string, now: int, suffix: string)
    returns (r: Result<Option<Record>>)
    requires pg.Valid()
    modifies pg, slot
    ensures pg.Valid()
    ensures (AuthState(pg.State(), slot.token), r) ==
      LoginStep(AuthState(old(pg.State()), old(slot.token)), email, now, suffix)
  {
    var found := pg.FindOne("users", Str(email));
    if found.Err? {
      return Err(found.error);
    }
    if found.value.None? {
      return Ok(None);
    }
    var session := SessionRecord(TokenPrefix + suffix, found.value.value, now);
    var ins := pg.Insert("sessions", session);
    if ins.Err? {
      return Err(ins.error);
    }
    slot.token := Some(TokenPrefix + suffix);
    r := Ok(Some(session));
  }

  method GetSession(pg: PostgresSim, slot: TokenSlot, now: int) returns (r: Result<Option<Record>>)
    requires pg.Valid()
    modifies pg, slot
    ensures pg.Valid()
    ensures (AuthState(pg.State(), slot.token), r) ==
      GetSessionStep(AuthState(old(pg.State()), old(slot.token)), now)
  {
    if !HasToken(slot.token) {
      return Ok(None);
    }
    var tok := slot.token.value;
    var found := pg.FindOne("sessions", Str(tok));
    if found.Err? {
      return Err(found.error);
    }
    if found.value.None? || Expired(found.value.value, now) {
      if found.value.Some? {
        var del := pg.Delete("sessions", Str(tok));
        if del.Err? {
          return Err(del.error);
        }
      }
      slot.token := None;
      return Ok(None);
    }
    r := Ok(Some(found.value.value));
  }

  method Logout(pg: PostgresSim, slot: TokenSlot) returns (r: Result<()>)
    requires pg.Valid()
    modifies pg, slot
    ensures pg.Valid()
    ensures (AuthState(pg.State(), slot.token), r) == LogoutStep(AuthState(old(pg.State()), old(slot.token)))
  {
    if HasToken(slot.token) {
      var del := pg.Delete("sessions", Str(slot.token.value));
      if del.Err? {
        return Err(del.error);
      }
    }
    slot.token := None;
    r := Ok(());
  }

  // ---------------------------------------------------------------------
  // Lemmas: seeding
  // ---------------------------------------------------------------------

  /** The user rows a seeding writes, by key; a later user with the same email wins. */
  function SeedMap(users: seq<DemoUser>): map<Value, Record>
    decreases |users|
  {
    if users == [] then map[]
    else map[Str(users[0].email) := UserRecord(users[0])] + SeedMap(users[1..])
  }

  /** A connected database with a table `users` whose rows are keyed by their `email` field. */
  predicate UsersTable(s: PgState) {
    s.db.Some? && "users" in s.disk.stores && s.disk.stores["users"].config.keyPath == "email"
  }

  /** `d` with the rows of `m` upserted into its `users` table. */
  function WithUsers(d: Database, m: map<Value, Record>): Database
    requires "users" in d.stores
  {
    d.(stores := d.stores["users" := d.stores["users"].(records := d.stores["users"].records + m)])
  }

  /** On a connected database, inserting a row keyed by a string in its key field is an upsert of that row alone. */
  lemma InsertKeyed(s: PgState, t: string, rec: Record)
    requires s.db.Some? && t in s.disk.stores
    requires s.disk.stores[t].config.keyPath in rec && rec[s.disk.stores[t].config.keyPath].Str?
    ensures var st := s.disk.stores[t];
      InsertStep(s, t, rec) ==
        (s.(disk := s.disk.(stores := s.disk.stores[t := st.(records := st.records[rec[st.config.keyPath] := rec])])), Ok(rec))
  {
  }

  lemma WithUsersTwice(d: Database, m1: map<Value, Record>, m2: map<Value, Record>)
    requires "users" in d.stores
    ensures WithUsers(WithUsers(d, m1), m2) == WithUsers(d, m1 + m2)
  {
    var r := d.stores["users"].records;
    assert (r + m1) + m2 == r + (m1 + m2);
  }

  /**
   * On a connected database with a `users` table keyed by email, seeding
   * succeeds and upserts exactly the seeded rows into `users`; no other table,
   * the version or the handle changes.
   */
  lemma {:induction false} SeedUpserts(s: PgState, users: seq<DemoUser>)
    requires UsersTable(s)
    ensures SeedFrom(s, users) == (s.(disk := WithUsers(s.disk, SeedMap(users))), Ok(()))
    decreases |users|
  {
    if users == [] {
      assert s.disk.stores["users"].records + map[] == s.disk.stores["users"].records;
      assert WithUsers(s.disk, map[]) == s.disk;
    } else {
      var rec := UserRecord(users[0]);
      var k := Str(users[0].email);
      assert "email" in rec && rec["email"] == k;
      InsertKeyed(s, "users", rec);
      var st := s.disk.stores["users"];
      assert st.records[k := rec] == st.records + map[k := rec];
      var s1 := s.(disk := WithUsers(s.disk, map[k := rec]));
      assert InsertStep(s, "users", rec) == (s1, Ok(rec));
      SeedUpserts(s1, users[1..]);
      WithUsersTwice(s.disk, map[k := rec], SeedMap(users[1..]));
    }
  }

  /** Seeding twice leaves the database exactly as seeding once. */
  lemma SeedIdempotent(s: PgState, users: seq<DemoUser>)
    requires UsersTable(s)
    ensures SeedFrom(SeedFrom(s, users).0, users) == SeedFrom(s, users)
  {
    var m := SeedMap(users);
    SeedUpserts(s, users);
    var s1 := s.(disk := WithUsers(s.disk, m));
    SeedUpserts(s1, users);
    WithUsersTwice(s.disk, m, m);
    assert m + m == m;
  }

  /** The emails of `users`, as keys. */
  function Emails(users: seq<DemoUser>): (e: set<Value>)
    ensures forall i :: 0 <= i < |users| ==> Str(users[i].email) in e
    decreases |users|
  {
    if users == [] then {}
    else
      var e := {Str(users[0].email)} + Emails(users[1..]);
      assert forall i :: 0 < i < |users| ==> users[i] == users[1..][i - 1];
      e
  }

  predicate DistinctEmails(users: seq<DemoUser>) {
    forall i, j :: 0 <= i < j < |users| ==> users[i].email != users[j].email
  }

  /** The seeded rows are keyed by exactly the seeded emails. */
  lemma {:induction false} SeedMapKeys(users: seq<DemoUser>)
    ensures SeedMap(users).Keys == Emails(users)
    decreases |users|
  {
    if users != [] {
      SeedMapKeys(users[1..]);
    }
  }

  lemma {:induction false} NotInEmails(users: seq<DemoUser>, email: string)
    requires forall i :: 0 <= i < |users| ==> users[i].email != email
    ensures Str(email) !in Emails(users)
    decreases |users|
  {
    if users != [] {
      assert forall i :: 0 <= i < |users[1..]| ==> users[1..][i] == users[i + 1];
      NotInEmails(users[1..], email);
    }
  }

  /** With distinct emails, each user's row is the one stored under its email. */
  lemma {:induction false} SeedMapRows(users: seq<DemoUser>)
    requires DistinctEmails(users)
    ensures forall i :: 0 <= i < |users| ==>
      Str(users[i].email) in SeedMap(users) && SeedMap(users)[Str(users[i].email)] == UserRecord(users[i])
    decreases |users|
  {
    SeedMapKeys(users);
    if users != [] {
      var rest := users[1..];
      assert DistinctEmails(rest) by {
        forall i, j | 0 <= i < j < |rest|
          ensures rest[i].email != rest[j].email
        {
          assert rest[i] == users[i + 1] && rest[j] == users[j + 1];
        }
      }
      SeedMapRows(rest);
      SeedMapKeys(rest);
      forall i | 0 <= i < |rest|
        ensures rest[i].email != users[0].email
      {
        assert rest[i] == users[i + 1];
      }
      NotInEmails(rest, users[0].email);
      assert SeedMap(users) == map[Str(users[0].email) := UserRecord(users[0])] + SeedMap(rest);
      forall i | 0 < i < |users|
        ensures SeedMap(users)[Str(users[i].email)] == UserRecord(users[i])
      {
        assert rest[i - 1] == users[i];
        assert users[0].email != users[i].email;
      }
    }
  }

  /** After seeding a connected database, every user is found by email with its own row. */
  lemma SeededUsersFound(s: PgState, users: seq<DemoUser>)
    requires UsersTable(s) && DistinctEmails(users)
    ensures var s' := SeedFrom(s, users).0;
      forall i :: 0 <= i < |users| ==>
        FindOneStep(s', "users", Str(users[i].email)) == (s', Ok(Some(UserRecord(users[i]))))
  {
    SeedUpserts(s, users);
    SeedMapRows(users);
  }

  /** Seeding keeps the tables, the version and the handle, and adds the seeded emails to the keys of `users`. */
  lemma SeedShape(s: PgState, users: seq<DemoUser>)
    requires UsersTable(s)
    ensures var (s', r) := SeedFrom(s, users);
      && r == Ok(()) && UsersTable(s')
      && s'.db == s.db && s'.disk.version == s.disk.version
      && s'.disk.stores.Keys == s.disk.stores.Keys
      && s'.disk.stores["users"].records.Keys == s.disk.stores["users"].records.Keys + Emails(users)
  {
    SeedUpserts(s, users);
    SeedMapKeys(users);
  }

  /** The four demo accounts have four different emails. */
  lemma DemoEmails()
    ensures DistinctEmails(DemoUsers)
    ensures Emails(DemoUsers) ==
      {Str("admin@fpis.gov.ng"), Str("inspector@fpis.gov.ng"), Str("agent@fpis.gov.ng"), Str("reviewer@fpis.gov.ng")}
  {
    assert DemoUsers[1..][1..][1..][1..] == [];
  }

  /**
   * Seeding a brand-new database first runs every migration and then leaves
   * exactly the four demo users in `users`, each found by email.
   */
  lemma FreshSeed(s0: PgState, users: seq<DemoUser>)
    requires s0 == PgState(Database(0, map[]), None) && users == DemoUsers
    ensures var (s', r) := SeedFrom(s0, users);
      && r == Ok(())
      && s'.disk.version == TargetVersion
      && s'.disk.stores.Keys == SchemaV4().Keys
      && UsersTable(s')
      && s'.disk.stores["users"].records.Keys ==
           {Str("admin@fpis.gov.ng"), Str("inspector@fpis.gov.ng"), Str("agent@fpis.gov.ng"), Str("reviewer@fpis.gov.ng")}
  {
    var c := PgState(Database(TargetVersion, SchemaV4()), Some(Handle(DbName, TargetVersion)));
    FreshSeedConnects(s0, users);
    DemoEmails();
    SeedShape(c, users);
  }

  /** On a brand-new database the first insert of the seeding runs every migration. */
  lemma FreshSeedConnects(s0: PgState, users: seq<DemoUser>)
    requires s0 == PgState(Database(0, map[]), None) && users == DemoUsers
    ensures var c := PgState(Database(TargetVersion, SchemaV4()), Some(Handle(DbName, TargetVersion)));
      && SeedFrom(s0, users) == SeedFrom(c, users)
      && UsersTable(c) && c.disk.stores["users"].records == map[]
  {
    FreshConnect();
    SeedConnectsFirst(s0, users);
  }

  /** Seeding from a state whose connection succeeds is seeding from the connected state. */
  lemma SeedConnectsFirst(s: PgState, users: seq<DemoUser>)
    requires users != [] && ConnectStep(s).1.Ok?
    ensures SeedFrom(s, users) == SeedFrom(ConnectStep(s).0, users)
  {
    ConnectIdempotent(s);
  }

  /** A brand-new database connects by running every migration. */
  lemma FreshConnect()
    ensures var c := PgState(Database(TargetVersion, SchemaV4()), Some(Handle(DbName, TargetVersion)));
      ConnectStep(PgState(Database(0, map[]), None)) == (c, Ok(Handle(DbName, TargetVersion))) && UsersTable(c)
      && c.disk.stores["users"].records == map[]
  {
    UpgradeFromEmpty();
  }

  // ---------------------------------------------------------------------
  // Lemmas: login
  // ---------------------------------------------------------------------

  /** A table whose rows are keyed by their `token` field. */
  predicate SessionsTable(s: PgState) {
    "sessions" in s.disk.stores && s.disk.stores["sessions"].config.keyPath == "token"
  }

  /** An unknown email yields no session, writes no row and leaves the stored token as it was. */
  lemma LoginUnknownUser(a: AuthState, email: string, now: int, suffix: string)
    requires FindOneStep(a.pg, "users", Str(email)).1 == Ok(None)
    ensures LoginStep(a, email, now, suffix) == (AuthState(ConnectStep(a.pg).0, a.token), Ok(None))
  {
  }

  /**
   * A known email yields a session with the user's email, role and name that
   * expires one lifetime after `now`; its row is then found under its token,
   * and the token is what browser storage holds.
   */
  lemma LoginStoresSession(a: AuthState, email: string, now: int, suffix: string)
    requires FindOneStep(a.pg, "users", Str(email)).1.Ok?
    requires FindOneStep(a.pg, "users", Str(email)).1.value.Some?
    requires SessionsTable(ConnectStep(a.pg).0)
    ensures var user := FindOneStep(a.pg, "users", Str(email)).1.value.value;
      var (a', r) := LoginStep(a, email, now, suffix);
      && r.Ok? && r.value.Some?
      && var session := r.value.value;
      && Field(session, "token") == Some(Str(TokenPrefix + suffix))
      && Field(session, "expiresAt") == Some(Num(now + SessionLifetime))
      && Field(session, "email") == Field(user, "email")
      && Field(session, "role") == Field(user, "role")
      && Field(session, "name") == Field(user, "name")
      && a'.token == Some(TokenPrefix + suffix)
      && FindOneStep(a'.pg, "sessions", Str(TokenPrefix + suffix)) == (a'.pg, Ok(Some(session)))
  {
    var user := FindOneStep(a.pg, "users", Str(email)).1.value.value;
    var session := SessionRecord(TokenPrefix + suffix, user, now);
    InsertThenFindOne(ConnectStep(a.pg).0, "sessions", session);
  }

  /**
   * Right after logging in, resolving the session returns it, unchanged, until
   * its expiry; after the expiry it is deleted and the token forgotten.
   */
  lemma LoginThenGetSession(a: AuthState, email: string, now: int, suffix: string, later: int)
    requires FindOneStep(a.pg, "users", Str(email)).1.Ok?
    requires FindOneStep(a.pg, "users", Str(email)).1.value.Some?
    requires SessionsTable(ConnectStep(a.pg).0)
    ensures var (a', r) := LoginStep(a, email, now, suffix);
      var (a'', r') := GetSessionStep(a', later);
      && (later <= now + SessionLifetime ==> a'' == a' && r' == r)
      && (later > now + SessionLifetime ==>
            && r' == Ok(None) && a''.token == None
            && FindOneStep(a''.pg, "sessions", Str(TokenPrefix + suffix)) == (a''.pg, Ok(None)))
  {
    LoginStoresSession(a, email, now, suffix);
    var (a', r) := LoginStep(a, email, now, suffix);
    var tok := TokenPrefix + suffix;
    assert HasToken(a'.token) by {
      assert |tok| >= |TokenPrefix| > 0;
    }
    if later > now + SessionLifetime {
      DeleteThenFindOne(a'.pg, "sessions", Str(tok));
    }
  }

  /**
   * After seeding, each demo user can log in, and the session carries that
   * user's role and name.
   */
  lemma SeededLogin(s: PgState, users: seq<DemoUser>, i: nat, token: Option<string>, now: int, suffix: string)
    requires UsersTable(s) && SessionsTable(s) && DistinctEmails(users) && i < |users|
    ensures var (a', r) := LoginStep(AuthState(SeedFrom(s, users).0, token), users[i].email, now, suffix);
      && r.Ok? && r.value.Some?
      && Field(r.value.value, "role") == Some(Str(RoleName(users[i].role)))
      && Field(r.value.value, "name") == Some(Str(users[i].name))
      && a'.token == Some(TokenPrefix + suffix)
  {
    var s' := SeedFrom(s, users).0;
    SeedUpserts(s, users);
    SeededUsersFound(s, users);
    assert SessionsTable(s');
    LoginStoresSession(AuthState(s', token), users[i].email, now, suffix);
  }

  // ---------------------------------------------------------------------
  // Lemmas: session lookup and logout
  // ---------------------------------------------------------------------

  /**
   * A session is returned only for a truthy token whose row exists and has not
   * expired; whenever no session is returned (without error) the token is
   * gone, and resolving again at the same time changes nothing.
   */
  lemma GetSessionOutcomes(a: AuthState, now: int)
    requires GetSessionStep(a, now).1.Ok?
    ensures var (a', r) := GetSessionStep(a, now);
      && (r.value.Some? ==>
            && HasToken(a.token) && a'.token == a.token
            && !Expired(r.value.value, now)
            && FindOneStep(a'.pg, "sessions", Str(a.token.value)) == (a'.pg, r))
      && (r.value.None? ==> !HasToken(a'.token))
      && GetSessionStep(a', now) == (a', r)
  {
    var (a', r) := GetSessionStep(a, now);
    if HasToken(a.token) {
      var tok := a.token.value;
      var (s1, found) := FindOneStep(a.pg, "sessions", Str(tok));
      if found.value.Some? && Expired(found.value.value, now) {
        DeleteThenFindOne(s1, "sessions", Str(tok));
      }
    }
  }

  /** Without a truthy token nothing is looked up and nothing changes. */
  lemma GetSessionNoToken(a: AuthState, now: int)
    requires !HasToken(a.token)
    ensures GetSessionStep(a, now) == (a, Ok(None))
  {
  }

  /**
   * A found row is returned unchanged while `expiresAt` is at least `now`
   * (the comparison is strict); once it is below `now` the row is deleted and
   * the token forgotten.
   */
  lemma GetSessionExpiry(a: AuthState, now: int, expiresAt: int)
    requires HasToken(a.token)
    requires var found := FindOneStep(a.pg, "sessions", Str(a.token.value)).1;
      found.Ok? && found.value.Some? && Field(found.value.value, "expiresAt") == Some(Num(expiresAt))
    ensures var s1 := ConnectStep(a.pg).0;
      var session := FindOneStep(a.pg, "sessions", Str(a.token.value)).1.value.value;
      && (expiresAt >= now ==> GetSessionStep(a, now) == (AuthState(s1, a.token), Ok(Some(session))))
      && (expiresAt < now ==>
            && GetSessionStep(a, now).1 == Ok(None)
            && GetSessionStep(a, now).0.token == None
            && FindOneStep(GetSessionStep(a, now).0.pg, "sessions", Str(a.token.value)).1 == Ok(None))
  {
    var s1 := ConnectStep(a.pg).0;
    if expiresAt < now {
      DeleteThenFindOne(s1, "sessions", Str(a.token.value));
    }
  }

  /** A token that the browser holds but whose row is gone is forgotten, and no row is deleted. */
  lemma GetSessionMissingRow(a: AuthState, now: int)
    requires HasToken(a.token)
    requires FindOneStep(a.pg, "sessions", Str(a.token.value)).1 == Ok(None)
    ensures GetSessionStep(a, now) == (AuthState(ConnectStep(a.pg).0, None), Ok(None))
  {
  }

  /**
   * After a successful logout no token is held, the session row is gone, no
   * session resolves, and logging out again changes nothing.
   */
  lemma LogoutEndsSession(a: AuthState, now: int)
    requires LogoutStep(a).1.Ok?
    ensures var a' := LogoutStep(a).0;
      && a'.token == None
      && (HasToken(a.token) ==> FindOneStep(a'.pg, "sessions", Str(a.token.value)) == (a'.pg, Ok(None)))
      && GetSessionStep(a', now) == (a', Ok(None))
      && LogoutStep(a') == LogoutStep(a)
  {
    if HasToken(a.token) {
      DeleteThenFindOne(a.pg, "sessions", Str(a.token.value));
    }
  }

  /** A failed delete during logout leaves the token in browser storage. */
  lemma LogoutFailureKeepsToken(a: AuthState)
    requires LogoutStep(a).1.Err?
    ensures HasToken(a.token) && LogoutStep(a).0.token == a.token
  {
  }
}
