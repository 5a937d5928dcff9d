# Federal Produce Inspection Service portal — persistence, sessions and navigation

This project models, in Dafny, the logic at the centre of the FPIS portal:

- **The versioned table store** (`PostgresSim`). It is a PostgreSQL-like adapter over the browser's indexed database. A fixed ledger of four migrations builds six tables. `connect` opens the database once per process. When the stored schema is older than version 4, `connect` runs the pending migrations and then caches the handle. `insert` (an upsert), `queryAll`, `findOne` and `delete` work on tables keyed by one field.
  - The engine is a value: a stored version plus, per table, its key configuration, its records by key and its key generator.
  - `PostgresSim` is a class whose fields are that value and the cached handle. Each of its methods is proved equal to a step function on the pair.
- **The graph store** (`NeoSim`). It holds a map from node id to node and an append-only list of typed edges, and writes both to two persisted slots after every change. The model keeps the map as the list of its entries in insertion order, which is what a JavaScript `Map` iterates and what is saved. `getConnections` is a one-hop filter-and-lookup.
- **The session service**. It covers seeding the four demo users, logging in by email (a 24-hour session keyed by a `sess_` token), resolving the session held in browser storage (stale rows are deleted), and logging out. The clock and the random token suffix are parameters. The browser storage slot is a small class.
- **The navigation frame** (`Layout`): the role-filtered side menu, the header title, and the sidebar toggle.
- **The portal shell** (`App`): the view, role and tab state; the starting tab per role; and the tab-to-screen dispatch.

Modules: `Values` (stored values, records, the sequence filter), `Types` (roles), `KeyOrder` (the engine's key order), `TableStore`, `GraphStore`, `Auth`, `Layout` and `App`.

`getConnections` (db/neo.ts:53) maps every matching edge through `nodes.get`, so an edge whose target node does not exist yields an `undefined` entry; `GraphStore.DanglingEdgeIsAbsent` proves this.

The engine lists a table in ascending key order, and it compares string keys by their UTF-16 code units, not by code point. The model encodes each string to UTF-16 (`KeyOrder.CodeUnits`) and compares those units, so a key such as U+10000 (encoded from the surrogate 0xD800) sorts before U+FFFF.

`PostgresSim` keeps the invariant `Valid()`: the stored database holds every record under the value of its own key field. The engine guarantees this for any database it has stored, so the constructor requires it of the database it is given. Every operation preserves it, so `queryAll` can be called after any sequence of other operations.

## Model

| member | source | states |
|---|---|---|
| TableStore.LedgerWellFormed | db/postgres.ts:16-53 | the ledger holds versions 1..4, strictly ascending, and the target version 4 is its last version |
| TableStore.LedgerCreatesEachTableOnce | db/postgres.ts:23-51 | no table name is created by two migrations, or twice by one |
| TableStore.PendingIsTail | db/postgres.ts:63-72 | for a stored version up to 4, the migrations run are exactly the ledger entries above it, in ledger order, with versions old+1..4 |
| TableStore.PendingOfNumbered | db/postgres.ts:67-72 | for any ledger numbered 1..n, the migrations with version above `old` are its tail from position `old` |
| TableStore.Upgrade | db/postgres.ts:61-73 | the upgrade loop over the ledger yields the schema obtained by running the pending migrations in order, or failure |
| TableStore.RunMigrationsFailureSticks | db/postgres.ts:67-72 | once a migration fails, running further migrations cannot make the upgrade succeed |
| TableStore.UpgradeFromEmpty | db/postgres.ts:19-73 | a brand-new database (version 0) opens at version 4 with exactly migration_history (id, auto-increment), users (email), sessions (token), transactions, inspections and receipts (id), all empty |
| TableStore.ReopenRunsNothing | db/postgres.ts:59-73 | re-opening a database that opened successfully finds it at version 4 and changes nothing |
| TableStore.OpenFailureLeavesDisk | db/postgres.ts:58-81 | a failed open leaves the stored database exactly as it was, and fails only for a newer stored version or a failing migration |
| TableStore.OpenRefusesNewerVersion | db/postgres.ts:59 | a stored version above 4 is refused |
| TableStore.ConnectIdempotent | db/postgres.ts:55-78 | after a successful connect the handle is cached, and connecting again returns it and changes nothing |
| TableStore.Open | db/postgres.ts:58-81 | opening succeeds exactly when the stored version is at most 4 and its pending migrations all succeed; success yields version 4 and the handle, failure leaves the disk as it was, and an up-to-date database opens unchanged |
| TableStore.ConnectStep | db/postgres.ts:55-78 | a successful connect caches its handle; a failed one changes nothing; a cached handle is returned as it is; a fresh open ends at version 4 |
| TableStore.Put | db/postgres.ts:89 | `put` fails exactly for a missing table, an unusable key, or a missing key on a table without a key generator; on success the version, the table set, the table's configuration, its existing keys and every other table are kept |
| TableStore.Get | db/postgres.ts:111 | `get` succeeds exactly for an existing table and a usable key; it finds a record exactly when the key is stored, and the record found is one of the table's |
| TableStore.Remove | db/postgres.ts:122 | `delete` succeeds exactly for an existing table and a usable key; afterwards the table's keys are the old ones minus that key, and the version and every other table are kept |
| TableStore.PostgresSim.constructor | db/postgres.ts:14-17 | a new adapter over a consistent stored database has no handle, has opened nothing, and is valid |
| TableStore.PostgresSim.Connect | db/postgres.ts:55-82 | connect keeps the adapter valid and equals the connect step. A cached handle means no reopen and no migration; otherwise exactly one open, and on an upgrade the versions old+1..4 are applied in order |
| TableStore.PostgresSim.Insert | db/postgres.ts:84-93 | insert connects and then puts the record, returning it; the new state is the insert step's and the adapter stays valid |
| TableStore.PostgresSim.QueryAll | db/postgres.ts:95-104 | queryAll connects and lists the table; the adapter stays valid |
| TableStore.PostgresSim.FindOne | db/postgres.ts:106-115 | findOne connects and looks the key up; the adapter stays valid |
| TableStore.PostgresSim.Delete | db/postgres.ts:117-126 | delete connects, removes the key and returns true; the adapter stays valid |
| TableStore.Listing | db/postgres.ts:100-101 | listing succeeds exactly for an existing table. It returns as many records as the table holds, exactly those records, in strictly ascending key order |
| KeyOrder.SortedKeys | db/postgres.ts:100 | a set of keys in strictly ascending engine key order, each key once |
| KeyOrder.Utf16 | db/postgres.ts:100 | a character below U+10000 is one code unit, itself; any other is a high surrogate followed by a low surrogate |
| KeyOrder.CodeUnitsInjective | db/postgres.ts:100 | distinct strings have distinct UTF-16 encodings, so comparing code units orders every pair of distinct string keys |
| KeyOrder.KeyLessStrictTotal | db/postgres.ts:100 | the key order (numbers before strings, numbers by value, strings lexicographic by UTF-16 code unit) is irreflexive, transitive and total on keys |
| KeyOrder.SupplementaryBeforeHighBmp | db/postgres.ts:100 | the string U+10000 sorts before U+FFFF, because its first code unit is the surrogate 0xD800 |
| KeyOrder.SortedSupplementaryFirst | db/postgres.ts:100 | a table keyed by U+FFFF and U+10000 lists U+10000 first |
| TableStore.PutThenGet | db/postgres.ts:89 | after a put, the record's key finds the record in full. Other keys, other tables, the table set and the version are unchanged |
| TableStore.PutOverwrites | db/postgres.ts:89 | a second put under the same key replaces the first record whole |
| TableStore.PutGeneratesKey | db/postgres.ts:24-89 | a record without its key field is accepted exactly on an auto-increment table; it is stored under the generated key, written into the record, and the generator advances |
| TableStore.GetMissIsAbsent | db/postgres.ts:111-112 | looking up a missing key gives an absent result, not an error |
| TableStore.RemoveThenGet | db/postgres.ts:122-123 | delete succeeds whether or not the key exists. Afterwards the key is absent, other keys and tables are unchanged, and a second delete changes nothing |
| TableStore.WritesKeepWellKeyed | db/postgres.ts:84-126 | puts and deletes keep every record stored under the value of its own key field |
| TableStore.QueryAllComplete | db/postgres.ts:95-104 | after putting n records with distinct keys into an empty table, the table lists exactly those n records |
| TableStore.PutAllStores | db/postgres.ts:84-93 | putting records with distinct keys stores each under its key and keeps the keys already there |
| TableStore.InsertThenFindOne | db/postgres.ts:84-115 | a successful insert returns the record, and findOne on its key then returns it without changing anything |
| TableStore.DeleteThenFindOne | db/postgres.ts:106-126 | after a successful delete, findOne misses and a second delete is a no-op returning true |
| TableStore.TransactionLifecycle | db/postgres.ts:84-126 | on a connected database with an empty transactions table: insert; the listing is that record alone; findOne finds it; delete; the listing is empty |
| TableStore.FreshTransactionLifecycle | db/postgres.ts:55-126 | the same lifecycle on a brand-new database, whose first insert runs every migration |
| GraphStore.MapGet | db/neo.ts:53 | a node found under an id is the node of an entry with that id |
| GraphStore.MapSet | db/neo.ts:40 | after `set`, the id maps to the new node and every other id maps as before |
| GraphStore.FromEntries | db/neo.ts:35 | every id of the saved pairs is present, and the last pair's node wins for its id |
| GraphStore.Connections | db/neo.ts:50-54 | at most one entry per edge, and every present entry is a node held in the map |
| GraphStore.NeoSim.GetConnections | db/neo.ts:50-54 | the store's connections: at most one per stored edge, each present one a stored node |
| GraphStore.MapGetIds | db/neo.ts:53 | a node id is found exactly when the map holds an entry for it |
| GraphStore.MapSetGet | db/neo.ts:40 | on a map with distinct ids, setting a node keeps the ids distinct, adds exactly its id, and grows the map by one exactly when the id is new |
| GraphStore.MapSetAppends | db/neo.ts:40 | setting a new id appends its entry last |
| GraphStore.MapSetInPlace | db/neo.ts:40 | setting an existing id replaces that entry in its position and moves nothing else |
| GraphStore.FromEntriesDistinct | db/neo.ts:35 | a map rebuilt from saved entries has distinct ids |
| GraphStore.EntriesRoundTrip | db/neo.ts:27-37 | rebuilding a map from its own saved entries gives back the same map, entries in the same order |
| GraphStore.NeoSim.constructor | db/neo.ts:20-25 | a new store starts empty and loads the slots: a missing slot leaves its part empty |
| GraphStore.NeoSim.Save | db/neo.ts:27-30 | both slots then hold the current map entries and edge list |
| GraphStore.NeoSim.Load | db/neo.ts:32-37 | each present slot replaces its part; a missing slot leaves it as it was |
| GraphStore.NeoSim.CreateNode | db/neo.ts:39-42 | the node is upserted under its id and other ids keep their nodes. Edges are unchanged, and both slots equal memory afterwards |
| GraphStore.NeoSim.CreateRelationship | db/neo.ts:44-47 | exactly one edge is appended, with no check on its endpoints or for duplicates. Nodes are unchanged, and both slots equal memory afterwards |
| GraphStore.ConnectionsSpec | db/neo.ts:50-54 | one entry per matching edge, in edge order. A new edge adds its target's lookup at the end exactly when it matches |
| GraphStore.EmptyTypeMatchesAll | db/neo.ts:52 | an empty type filter is the same as none: every outgoing edge matches |
| GraphStore.DanglingEdgeIsAbsent | db/neo.ts:53 | an edge to an id with no node yields an absent entry; it is not dropped |
| Values.FilterMembers | components/Layout.tsx:26 | a filter keeps exactly the elements that satisfy its predicate |
| Types.RoleName | types.ts:1-6 | each role is stored as a non-empty string, and distinct roles as distinct strings (RoleNameInjective) |
| Auth.SessionRecord | services/authService.ts:31-37 | a session carries its token, the user's email, role and name, and expires 86,400,000 ms after `now` |
| Auth.Expired | services/authService.ts:49 | a session without `expiresAt` never counts as expired; a numeric `expiresAt` counts exactly when it is below `now` |
| Auth.ExpiredStaysExpired | services/authService.ts:49 | once a session counts as expired, it stays expired at every later time |
| Auth.SeedFrom | services/authService.ts:21-23 | seeding fails only when there is a user to insert; a successful seeding of at least one user leaves the store connected with a users table |
| Auth.LoginStep | services/authService.ts:27-42 | a login that returns a session saves its token, and the session carries that token and expires one day after `now`; any other outcome leaves the token as it was |
| Auth.GetSessionStep | services/authService.ts:44-55 | a returned session comes from a truthy token, which is kept, and is not expired; "no session" leaves no truthy token; an error keeps the token |
| Auth.LogoutStep | services/authService.ts:57-61 | a successful logout clears the token; a failed one keeps the truthy token it had |
| Auth.SeedDemoUsers | services/authService.ts:13-25 | the loop inserts the four demo users in order and stops at the first failure, as the seeding step says |
| Auth.SeedUpserts | services/authService.ts:21-23 | on a connected database, seeding succeeds and upserts exactly the seeded rows into users. No other table, the version or the handle changes |
| Auth.SeedIdempotent | services/authService.ts:13-23 | seeding twice leaves the database exactly as seeding once |
| Auth.SeedShape | services/authService.ts:21-23 | seeding adds exactly the seeded emails to the keys of users and keeps the tables |
| Auth.SeedMapKeys | services/authService.ts:14-23 | the seeded rows are keyed by exactly the seeded emails |
| Auth.SeedMapRows | services/authService.ts:14-23 | with distinct emails, each user's row is the one stored under its email |
| Auth.SeededUsersFound | services/authService.ts:14-23 | after seeding, every user is found by email with its own row |
| Auth.DemoEmails | services/authService.ts:14-19 | the four demo accounts have four distinct emails, admin, inspector, agent and reviewer |
| Auth.FreshSeedConnects | services/authService.ts:21-22 | on a brand-new database the first seed insert runs every migration |
| Auth.FreshSeed | services/authService.ts:13-25 | seeding a brand-new database leaves version 4, all six tables, and exactly the four demo users |
| Auth.Login | services/authService.ts:27-42 | login follows the login step |
| Auth.LoginUnknownUser | services/authService.ts:28-29 | an unknown email returns no session, writes nothing and keeps the stored token |
| Auth.LoginStoresSession | services/authService.ts:31-41 | a known email returns a session with the user's email, role and name, expiring one day after `now`. The row is stored under the token, and the token is saved |
| Auth.SeededLogin | services/authService.ts:27-41 | after seeding, each demo user logs in, and the session carries that user's role and name |
| Auth.LoginThenGetSession | services/authService.ts:27-55 | right after login, getSession returns the same session, unchanged, up to and including its expiry time. After that it deletes the row and forgets the token |
| Auth.GetSession | services/authService.ts:44-55 | getSession follows the session-lookup step |
| Auth.GetSessionNoToken | services/authService.ts:45-46 | with no token, or an empty one, getSession returns nothing and changes nothing |
| Auth.GetSessionExpiry | services/authService.ts:48-54 | a row with `expiresAt >= now` is returned unchanged with nothing changed. A row with `expiresAt < now` is deleted and the token forgotten |
| Auth.GetSessionMissingRow | services/authService.ts:48-52 | a token without a row is forgotten, with no delete |
| Auth.GetSessionOutcomes | services/authService.ts:44-55 | a session is returned only for a truthy token whose row exists and is unexpired. "No session" always leaves no token, and a second lookup at the same time changes nothing |
| Auth.Logout | services/authService.ts:57-61 | logout follows the logout step |
| Auth.LogoutEndsSession | services/authService.ts:57-61 | after logout: no token, the session row is gone, no session resolves, and a second logout changes nothing |
| Auth.LogoutFailureKeepsToken | services/authService.ts:59-60 | when the delete fails, the token stays in browser storage |
| Layout.AllowedItemsExact | components/Layout.tsx:26 | an entry is allowed exactly when it is on the menu and its role list includes the role |
| Layout.AllowedPerRole | components/Layout.tsx:19-26 | SUPERADMIN sees all five entries, REVIEWER overview and revenue, INSPECTOR overview and inspections, AGENT overview, revenue and agent, each in menu order |
| Layout.AllowedIdsPerRole | components/Layout.tsx:19-26 | the same menus, by tab id |
| Layout.OverviewAlwaysAllowed | components/Layout.tsx:20 | every role sees the dashboard entry, first |
| Layout.UsersOnlyForSuperAdmin | components/Layout.tsx:24 | user management is on a role's menu exactly for SUPERADMIN |
| Layout.AllowedUnique | components/Layout.tsx:19-26 | each role's menu names every tab at most once |
| Layout.AllowedItems | components/Layout.tsx:18-27 | every allowed entry is a menu entry whose role list includes the role, and there are at most as many as menu entries |
| Layout.FindItem | components/Layout.tsx:82 | the lookup finds the first entry with the given id (no earlier entry has it), and finds nothing exactly when no entry has it |
| Layout.HeaderTitle | components/Layout.tsx:82 | the title is never empty: it is "Dashboard" or the name of an allowed entry whose id is the active tab |
| Layout.FindUnique | components/Layout.tsx:82 | in a list with unique ids, looking up an entry's id finds that entry |
| Layout.HeaderTitleSpec | components/Layout.tsx:82 | the title is the name of the allowed entry whose id is the active tab, or "Dashboard" when there is none |
| Layout.MenuNamesNonEmpty | components/Layout.tsx:82 | every allowed entry has a non-empty name, so an allowed tab's title is its entry's name |
| Layout.LayoutState.constructor | components/Layout.tsx:15 | the sidebar starts open |
| Layout.LayoutState.ToggleSidebar | components/Layout.tsx:77 | the toggle negates the sidebar flag, so toggling twice restores it |
| App.StartTab | App.tsx:16-24 | every role's starting tab (agent, inspections or overview) is on that role's menu |
| App.RenderContent | App.tsx:30-51 | the dashboard shows exactly for a tab other than revenue, inspections, agent and users; the revenue screen carries the current role |
| App.RenderContentSpec | App.tsx:30-51 | the five menu tabs map to five different screens, revenue with the current role. Any other tab shows the dashboard, like overview |
| App.LandingIffLandingView | App.tsx:53-66 | the landing page shows exactly when the view is landing; otherwise the frame shows the active tab and role |
| App.PortalApp.constructor | App.tsx:12-14 | the shell starts on the landing view, as SUPERADMIN, on the overview tab |
| App.PortalApp.HandleEnterPortal | App.tsx:16-24 | entering stores the role, moves to the role's starting tab and shows the portal, whose tab is on the role's menu |
| App.PortalApp.HandleLogout | App.tsx:26-28 | logout changes only the view, to landing; the role and tab keep their values |
| App.PortalApp.SelectMenuItem | components/Layout.tsx:41-44 | a click on an allowed menu entry makes its id the active tab and changes nothing else |

## Left out

- The storage engine's own failures: quota, a blocked upgrade, a closed connection and transaction aborts are not modelled. `connect` fails only for a stored version above 4 or a migration that creates an existing table; both surface as `StorageUnavailable` and leave the disk unchanged.
- The engine's asynchronous request/callback protocol and JavaScript promises. Every operation is one synchronous step, and concurrent operations are out of scope. That includes two `connect` calls racing before the handle is cached, and un-awaited writes to one key.
- Console logging in db/postgres.ts and services/authService.ts has no behaviour to model.
- Engine keys other than strings and integers (floating-point numbers, dates, arrays, binary keys) are not modelled. Stored numbers are unbounded integers, not JavaScript doubles.
- TableStore.PutGeneratesKey: the key generator's upper limit of 2^53 is not modelled.
- GraphStore.NeoSim.Load: JSON text in the two slots is not modelled; a slot holds the entry list or edge list itself. `JSON.parse` errors on malformed text, and what JSON drops (undefined properties, non-JSON values), are left out.
- GraphStore.NeoSim.Save: a browser storage quota error on `setItem` is not modelled.
- Auth.Expired: a string `expiresAt` is never treated as expired; JavaScript would coerce a numeric string first.
- Auth.GetSession: a string `expiresAt` is never treated as expired. JavaScript would coerce a numeric string to a number before comparing; that coercion is not modelled.
- The session token's random suffix and `Date.now()` are parameters of `Login` and `GetSession`.
- services/geminiService.ts is not part of this model: it makes network calls to an external AI service.
- components/Dashboard.tsx, AgentPortal.tsx, RevenuePortal.tsx, InspectionPortal.tsx, LandingPage.tsx, AboutPage.tsx and CountUp.tsx are not part of this model. They are presentational: markup, floating-point display arithmetic, animation, random receipt ids and locale dates.
- constants.tsx is not part of this model; it holds only static data.
- In Layout.tsx, rendering details are left out: icons, styling, the role badge text and the profile image. The model keeps the menu contents, the title and the sidebar flag.
- App.RenderContentSpec: screens are tags, not rendered components.
