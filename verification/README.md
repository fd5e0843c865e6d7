# metasocial-mcp, modelled and proved

This project models the server that connects an MCP client to a user's Facebook Pages and Instagram
accounts, and proves how its protocols behave: over every interleaving of its handlers, every answer
Meta may give, every clock and every crash.

| file | what it holds |
|---|---|
| `Domain.dfy`, `Text.dfy` | time in nanoseconds, floored seconds, shared records; white space, lexical order, joined lists |
| `Storage.dfy` | the SQLite tables as maps with their keys; one function per statement or transaction |
| `Database.dfy` | the store as an object: one method per statement, equal to its `Storage` function |
| `Session.dfy` | the handlers cut at their store calls, and the machine that interleaves them |
| `Handlers.dfy` | the same handlers as methods on the store, equal to their cut-up form run alone |
| `Endpoints.dfy` | what each endpoint grants, refuses, answers and stores, as its caller sees it |
| `Survival.dfy`, `Origins.dfy` | which events take a row away, and which requests stand behind every row and handler |
| `Lineage.dfy`, `Authentication.dfy` | where credentials come from: linearity, provenance, spent credentials, and the user behind each |
| `Housekeeping.dfy` | the purge of expired rows is invisible |
| `Deletion.dfy` | the data deletion callback is final |
| `FirstLogins.dfy` | overlapping first logins of one user |
| `PageLookup.dfy`, `Isolation.dfy`, `Noninterference.dfy` | page resolution, and that other users never influence it: with atomic calls, and with handlers interleaved |
| `Renewal.dfy` | the token renewal sweep and its exact bound |
| `Graph.dfy`, `Insights.dfy`, `Publish.dfy` | the Graph client: retry, pagination, batch fallback, Instagram publication |
| `Base64.dfy`, `Jwt.dfy` | key decoding, access tokens and their lifetime |
| `Migrations.dfy` | schema migrations over starts that may stop at any statement |

How the model is cut:

- **Store calls are the atoms.** The database has one connection and each store call is one statement or
  one transaction, so a handler is a sequence of calls (`Session.Begin`, then `Session.Resume`) between
  which any other handler, purge, deletion or crash may run. `Abort` is a handler that stops there.
- **Two forms.** The store and the services are classes whose methods are written as the source writes
  them. Each is proved equal to a function on the tables; `Handlers.HandleIsRun` says that the method's
  meaning is the interleaving in which nobody interferes, so the theorems about all interleavings cover it.
- **Statements name rows, not functions.** The theorems called `...Exact`, `...Meaning` and `...Stays` say in
  requests, rows, seconds and answers what the functions compute, for all inputs and without naming them.
- **Meta is an arbitrary responder.** Its answer to a call may depend on everything that happened before.
  A wait is a step that may be cancelled.
- **Time** is an integer; `Unix` is division rounded down. Random secrets are inputs, with freshness as a
  hypothesis where a theorem needs it. SHA-256, HMAC and JSON are functions; JSON has its round-trip law.

Results that say something the source does not:

- On a clock that never goes back, a purge is visible in one case only: the refresh grant reads the clock, a
  purge of the refresh tokens with a later second slips in, and then the rotation runs
  (`Housekeeping.PurgeIsInvisible`, and `Housekeeping.OvertakenRotation`, an if and only if).
- Deletion is final if and only if no handler in flight still remembers the tenant
  (`Deletion.DeletionIsFinal`): a login, a grant or a sweep that read the tenant before can store rows for
  it afterwards.
- Of two overlapping first logins of one user, the later one works on under a tenant id that is never
  stored, in any run (`FirstLogins.LostFirstLogin`). It ends with an error, except for a user without pages:
  then a client's login gets a code for that id (`FirstLogins.CodeForNobody` is such a run), and a reconnection
  ends with status 200 and no code. A login keeps its id if and only if its user was not stored under another
  one when it writes (`FirstLogins.WriteKeepsID`).
- An insight name with a comma in it is two names to Meta. A request is answered by a permutation of itself
  whatever Meta does if and only if none of its names holds a comma (`Insights.IGConservesExactly`); asked
  metric by metric, if and only if every name that holds one is rejected (`Insights.AnsweredConserves`).
- `expires_in` can promise up to one second more than the token lives. It keeps the promise exactly when
  the clock at the answer is further into its second than the deadline is (`Jwt.AnnouncedToTheEnd`).
- Twelve hours between sweeps, and up to 26 minutes for each to run, with a two week window tolerate 26
  consecutive failures, and not 27 (`Renewal.DeployedTolerance`, `Renewal.DeployedSlack`).
- `PurgeExpired` is three statements without a transaction, so they are three separate events here.

## Model

| member | source | states |
|---|---|---|
| Domain.FloorAgrees | internal/adapters/sqlite/store.go:395-408 | the exact clock test on a deadline stored in seconds and the SQL test on floored seconds always agree |
| Domain.FloorLoss | internal/adapters/sqlite/store.go:82-95 | a deadline stored in seconds loses less than a second and never moves later |
| Storage.UpsertKeepsIdentity | internal/adapters/sqlite/store.go:59-79 | an upsert keeps users unique, never renames a row, and touches no other user's row |
| Storage.InsertPagesMeaning | internal/adapters/sqlite/store.go:205-233 | the inserts succeed exactly when ids are distinct and the tenant exists, and then store exactly the listed rows beside the others |
| Storage.ReplacePagesExact | internal/adapters/sqlite/store.go:205-233 | the transaction either rolls back, exactly when an id repeats or the tenant is missing, or leaves that tenant with the given pages and no other tenant's rows changed |
| Storage.DeleteKeepsSound | internal/adapters/sqlite/store.go:176-199 | deleting a tenant keeps users unique and every page owned by a stored tenant |
| Storage.UpsertExact | internal/adapters/sqlite/store.go:59-79 | the upsert fails exactly when the id belongs to another user; otherwise it saves every column in the row of the user, keeps its creation second, and touches no other row |
| Storage.DueExact | internal/adapters/sqlite/store.go:149-154 | in exact time: a known deadline a full second inside the window, or none and no renewal for the recheck interval and a second |
| Storage.DeleteExact | internal/adapters/sqlite/store.go:176-199 | row by row: every tenant, page, code and refresh token of another id stays as it was, clients and login states too, and nothing of this id stays |
| Storage.PurgeExact | internal/adapters/sqlite/store.go:467-478 | row by row: exactly the codes, login states and refresh tokens whose deadline is ahead of the clock stay, as they were |
| Session.StepPerforms | internal/app/login.go:79-97 | every store call makes at most one change to tenants and pages, and only for the tenant its handler works for |
| Session.EditKeepsIdentity | migrations/0001_init.sql:2-21 | each such change keeps the constraints that span rows, and renames no stored tenant |
| Session.IdentityIsStable | internal/app/login.go:79-93 | in every interleaving, users and ids stay one-to-one, pages name stored tenants, and a user stored before and after an event keeps the id |
| FirstLogins.WriteKeepsID | internal/adapters/sqlite/store.go:59-79 | a login is stored under the id it works on with if and only if its user was not stored under another one first |
| FirstLogins.LostForever | internal/app/login.go:79-97 | an id that is not stored and that no handler carries is never stored, in any run that does not draw it again |
| FirstLogins.LostFirstLogin | internal/app/login.go:79-97 | the later of two overlapping first logins loses its id for ever, and is refused exactly when there are pages to store or none can be read |
| FirstLogins.TwoFirstLogins | internal/app/login.go:79-97 | the run of four store calls that does it, from any state with two logins of one user in flight |
| FirstLogins.CodeForNobody | internal/adapters/meta/handlers.go:137-151 | two more calls, and a client holds a code for a tenant that does not exist and never will |
| Session.SoundForever | migrations/0001_init.sql:2-21 | the same constraints hold after every run |
| Lineage.SessionLinearity | internal/adapters/authserver/token.go:73-174 | with handlers interleaved at every store call, an accepted authorize request owns at most one usable credential, its credentials form a chain, and outstanding credentials never exceed accepted requests |
| Lineage.Provenance | internal/adapters/authserver/token.go:60-108 | each code carries one accepted authorize request of a registered client that listed its URI; each refresh token the tenant and client of such a code, redeemed by a verifier of 43 to 128 bytes hashing to the challenge |
| Authentication.Authenticated | internal/adapters/meta/handlers.go:103-151 | every code and refresh token belongs to an allowed Meta user: its tenant is the id under which that user logged in for its family |
| Authentication.LoginMeaning | internal/app/login.go:50-97 | that login is the one callback that burnt the family's login state; its id is the one the user is stored under, or a fresh one |
| Authentication.EventKeepsKnown | internal/adapters/meta/handlers.go:75-160 | every event keeps what is known of the logins: none before the state is burnt, one afterwards, never overwritten |
| Lineage.ReconnectNeverYieldsCode | internal/adapters/meta/handlers.go:103-151 | a parked login without a client is added only by ReconnectURL, and no code ever has an empty client |
| Lineage.SpentForever | internal/adapters/sqlite/store.go:359-414 | a consumed, revoked, purged or deleted credential is never usable again in any run |
| Lineage.SpentIsRefused | internal/adapters/authserver/token.go:73-141 | presenting a spent code or refresh token changes no row and answers invalid_grant |
| Lineage.RunKeepsInv | internal/adapters/meta/handlers.go:75-160 | the whole invariant (ownership, chains, registry, rows, handlers) survives every run with fresh secrets |
| Lineage.WatchKeepsInv | internal/adapters/authserver/token.go:53-174 | every single event, of any handler, keeps that invariant |
| Lineage.ConsumeKeepsInv | internal/adapters/sqlite/store.go:359-414 | burning a login state, a code or a refresh token hands its family to the handler that presented it |
| Lineage.ParkKeepsInv | internal/adapters/authserver/authorize.go:73-95 | parking an accepted request founds a family with one owner |
| Lineage.IssueKeepsInv | internal/adapters/authserver/server.go:72-95 | issuing a code or a refresh token hands the family from the handler to the new row |
| Lineage.RegisterKeepsInv | internal/adapters/authserver/register.go:35-97 | registration only ever stores clients with 1 to 10 valid redirect URIs, and disturbs nothing |
| Lineage.AuthorizeKeepsInv | internal/adapters/authserver/authorize.go:25-72 | a request goes on to be parked only for a registered client, one of its URIs, S256 and this resource |
| Lineage.ReconnectKeepsInv | internal/app/reconnect_url.go:20-33 | a reconnection link parks a request that belongs to no family |
| Lineage.FewerOwnersThanFamilies | internal/adapters/sqlite/store.go:359-461 | as many usable credentials as families at most, by counting owners |
| Lineage.HistoryOnlyWatches | internal/adapters/authserver/token.go:53-141 | the recorded history never influences a run |
| Origins.EverythingWasAskedFor | internal/adapters/authserver/authorize.go:41-95 | in every run from an empty database, each parked login is a reconnection or an authorization request for a code with an S256 challenge, each code copies such a request, each refresh token belongs to a client that sent one and presented a credential, and each handler serves its request |
| Origins.GrantedToItsClient | internal/adapters/authserver/token.go:53-141 | a refresh token is stored only while a token request in the name of its own client is served, and that request is answered 200 |
| Origins.EventAccounted | internal/adapters/meta/handlers.go:75-160 | every event keeps that account, for the latest request let in under each number |
| Survival.CodeStays | internal/adapters/sqlite/store.go:359-380 | in every interleaving, a code goes exactly when it is presented in a well-formed request, purged when expired, or deleted with its tenant; until then it is unchanged |
| Survival.StateStays | internal/adapters/sqlite/store.go:442-461 | the same for a parked login, which only its state or a purge takes away |
| Survival.TokenStays | internal/adapters/sqlite/store.go:395-414 | the same for a refresh token, which a grant revokes and does not remove |
| Survival.TenantStays | internal/adapters/sqlite/store.go:59-79 | a tenant goes exactly with its deletion; user and creation second never change, the rest only with a login or renewal of this user |
| Survival.PageStays | internal/adapters/sqlite/store.go:205-233 | a page comes, goes or changes only with a synchronization or the deletion of its tenant |
| Survival.SessionIsHonoured | internal/adapters/authserver/token.go:113-174 | after any run in which nobody took it away, a live refresh token presented in time by its client is answered 200 and replaced by one of the same tenant and client |
| Housekeeping.PurgeIsInvisible | internal/adapters/sqlite/store.go:467-478 | on a clock that never goes back, purge statements inserted anywhere in a run leave every handler's status and error code unchanged, unless a purge of the refresh tokens of a later second falls between the clock reading of a refresh grant and its rotation |
| Housekeeping.PurgedRunAnswersAlike | internal/adapters/sqlite/store.go:467-478 | the simulation behind it: only calls that look for a row a purge may drop need a clock second no earlier than the purges before them |
| Housekeeping.CallbackSeesNoPurge | internal/app/login.go:128-137 | a purged login state and an expired one get the same answer |
| Housekeeping.CodeGrantSeesNoPurge | internal/adapters/authserver/token.go:74-86 | a purged code and an expired one get the same error code, before any other check |
| Housekeeping.RefreshGrantSeesNoPurge | internal/adapters/sqlite/store.go:395-408 | the rotation refuses every row a purge may have dropped |
| Housekeeping.OvertakenRotation | internal/adapters/authserver/token.go:122-131 | a purge before a rotation changes no answer, in any state and for any token, if and only if its second is not later than the one the grant has read |
| Deletion.DeletionIsFinal | internal/adapters/sqlite/store.go:176-199 | no row of a deleted id exists in any later state if and only if no handler in flight remembers it; the runs that bring it back draw secrets of the length that is really drawn |
| Deletion.AtomicDeletionIsFinal | internal/app/login.go:112-124 | with atomic handlers, nothing of a deleted id is ever stored again and no code or refresh grant for it is accepted |
| Deletion.ForgottenForever | internal/app/login.go:112-124 | neither rows nor memories of the id come back in any run that does not draw it again |
| Deletion.Revives | internal/app/refresh_tokens.go:69-87 | each kind of handler that remembers the id has a run that stores something for it |
| Deletion.NamedForever | internal/adapters/meta/oauth.go:125-127 | every reachable state meets the hypotheses of the deletion theorem |
| Database.Store.TenantByMetaUserID | internal/adapters/sqlite/store.go:103-109 | the one row of a user with its id, or nothing exactly when no row is that user's |
| Database.Store.UpsertTenant | internal/adapters/sqlite/store.go:59-79 | every column saved in the row of the user and no other row touched, or a refusal that changes nothing; the schema constraints kept |
| Database.Store.TenantsDueForTokenRefresh | internal/adapters/sqlite/store.go:149-172 | exactly the due tenants, each once, earliest deadline first |
| Database.Store.DeleteTenant | internal/adapters/sqlite/store.go:176-199 | removes the tenant's refresh tokens, codes, pages and row together, and leaves every row of another tenant as it was |
| Database.Store.ReplacePages | internal/adapters/sqlite/store.go:205-233 | commits the listed pages in place of the old ones, or leaves the table as it was |
| Database.Store.PageByID | internal/adapters/sqlite/store.go:261-273 | a page of this tenant or nothing |
| Database.Store.RegisterClient | internal/adapters/sqlite/store.go:304-315 | adds a client whose id is new |
| Database.Store.CreateAuthCode | internal/adapters/sqlite/store.go:344-356 | adds a code that is new |
| Database.Store.ConsumeAuthCode | internal/adapters/sqlite/store.go:359-380 | returns the code and removes it in one statement |
| Database.Store.CreateRefreshToken | internal/adapters/sqlite/store.go:383-392 | adds a refresh token whose hash is new |
| Database.Store.RotateRefreshToken | internal/adapters/sqlite/store.go:395-414 | revokes and returns a token that is neither revoked nor expired |
| Database.Store.CreateLoginState | internal/adapters/sqlite/store.go:429-439 | adds a login state that is new |
| Database.Store.ConsumeLoginState | internal/adapters/sqlite/store.go:442-461 | returns the state and removes it in one statement |
| Database.Store.PurgeExpired | internal/adapters/sqlite/store.go:467-478 | drops from the three tables exactly the rows whose second has come |
| Handlers.HandleIsRun | internal/adapters/meta/handlers.go:75-160 | a handler that runs to completion is one of the interleavings of its store calls |
| Handlers.FinishIsRun | internal/adapters/meta/handlers.go:103-158 | the same from any point a handler has reached |
| Endpoints.RegistrationExact | internal/adapters/authserver/register.go:35-97 | one to ten valid URIs under a free id are stored with trimmed name and second, every other request stores nothing, with its status |
| Endpoints.AuthorizeExact | internal/adapters/authserver/authorize.go:16-98 | a redirect is answered if and only if the client has registered the URI; the request is parked, for 600 seconds, if and only if besides it asks for a code with an S256 challenge for this resource |
| Endpoints.ReconnectExact | internal/app/reconnect_url.go:20-33 | an empty request is parked for 600 seconds |
| Endpoints.CodeGrantExact | internal/adapters/authserver/token.go:53-108 | a pair is granted if and only if the code is stored, unexpired and presented by its client with its URI and verifier, for this resource; every well-formed request burns its code and no other; error codes and the row stored |
| Endpoints.RefreshGrantExact | internal/adapters/authserver/token.go:113-141 | a pair is granted if and only if the token is live and of the presenting client, for the tenant of the token; a live token of another client is revoked and answered unauthorized_client; anything else changes nothing |
| Endpoints.RefreshGrantStarts | internal/adapters/authserver/token.go:122-140 | in any state of the interleaved machine, a refresh grant goes on to issue a pair if and only if the token is live and of the presenting client |
| Endpoints.CallbackExact | internal/adapters/meta/handlers.go:75-160 | the state is burnt whatever follows; a code is issued, for 300 seconds and copying the parked request, exactly when the login goes on and is no reconnection |
| Endpoints.AcceptedLogin | internal/app/login.go:50-97 | the row holds the name, token, second and deadline Meta gave, under the old id and creation second for a known user; the login goes on if and only if Meta lists pages without repetition, which are then the stored ones |
| Endpoints.HomelessLogin | internal/app/login.go:79-91 | a drawn id that another user holds is refused with 502 and stores nothing |
| Endpoints.RefusedLogin | internal/app/login.go:50-66 | a login refused by the user, by Meta or by the whitelist stores nothing, with its status |
| Endpoints.DeletionExact | internal/app/login.go:112-124 | every row of the user goes, every row of anybody else stays as it was, and a known and an unknown user get the same answer |
| Endpoints.SyncExact | internal/app/login.go:101-109 | a stored tenant gets exactly the pages Meta lists, or nothing changes |
| Endpoints.SweepExact | internal/app/refresh_tokens.go:38-87 | the sweep as a handler: every tenant that needs it and is granted it is renewed, column by column, in whatever order the store lists them |
| Handlers.AuthServer.RegisterClient | internal/adapters/authserver/register.go:35-97 | tables and response of the whole handler |
| Handlers.AuthServer.AllowsRedirectURI | internal/domain/tenant.go:62-69 | true exactly for the registered URIs, compared exactly |
| Handlers.AuthServer.Authorize | internal/adapters/authserver/authorize.go:16-98 | every check in order, and the request parked only if all pass |
| Handlers.AuthServer.GrantAuthorizationCode | internal/adapters/authserver/token.go:53-108 | the code burnt before any check on it, a token pair only if all pass |
| Handlers.AuthServer.GrantRefreshToken | internal/adapters/authserver/token.go:113-141 | the method is the handler of `Endpoints.RefreshGrantExact`: the token revoked before the client is compared, a new pair only for its own client |
| Handlers.AuthServer.IssueTokens | internal/adapters/authserver/token.go:144-174 | the hash of the new refresh token stored with its lifetime, and the answer: an access token for the same tenant and client, the seconds left, and that refresh token |
| Handlers.PairIsCoherent | internal/adapters/authserver/token.go:144-174 | the access token of an answered pair verifies for the tenant and client of its refresh token until one second before the announced lifetime is over |
| Handlers.AuthServer.IssueAuthCode | internal/adapters/authserver/server.go:72-95 | stores a code that copies the parked request, for five minutes |
| Handlers.LoginService.ConsumeState | internal/app/login.go:128-137 | the state burnt, whatever it is, and its request only while it lasts |
| Handlers.LoginService.Complete | internal/app/login.go:50-97 | identification, upsert under the stored id, page synchronization, and the first failure |
| Handlers.LoginService.DeleteByMetaUserID | internal/app/login.go:112-124 | for every user id, the empty one included: everything of the user is gone and every row of anybody else is as it was, or nothing changes for an unknown user |
| Handlers.LoginService.SyncPages | internal/app/login.go:101-109 | a known tenant's pages replaced by what Meta lists |
| Handlers.LoginService.ReconnectURL | internal/app/reconnect_url.go:20-33 | a login state that carries no client |
| Handlers.MetaHandlers.Callback | internal/adapters/meta/handlers.go:75-160 | state consumed, login completed, code issued, each with its own clock reading, for every answer of Meta |
| PageLookup.ForeignPageIsUnknown | internal/app/service.go:76-104 | a page of another tenant is answered exactly like one that does not exist |
| PageLookup.PagePrefixMeaning | internal/app/service.go:115-121 | the page id of an object id is what precedes its first underscore |
| PageLookup.LinkedEnumerates | internal/app/service.go:147-155 | filtering the listed pages gives exactly the pages with an Instagram account, each once |
| PageLookup.OwnerExact | internal/app/service.go:109-140 | a page is found if and only if it is stored for the tenant and is the hint, or, without one, is named by the object id before its first underscore, or is the only page |
| PageLookup.OwnerRefusals | internal/app/service.go:109-140 | without a hint: "no pages" exactly when none is stored, "ambiguous" exactly when several are and none is named |
| PageLookup.OwnerInstagramExact | internal/app/service.go:143-165 | the same for Instagram: the hint if it is linked, or the only linked page |
| PageLookup.PageExact | internal/app/service.go:76-105 | a page is found by its id if and only if it is stored for the tenant, and for Instagram only when it is linked |
| PageLookup.PageService.ListPages | internal/adapters/sqlite/store.go:236-258 | the tenant's rows, each once, in the order of their names |
| PageLookup.PageService.Page | internal/app/service.go:76-88 | depends on this tenant's rows only |
| PageLookup.PageService.InstagramPage | internal/app/service.go:91-105 | the same, refused without a linked account |
| PageLookup.PageService.OwnerPage | internal/app/service.go:109-140 | the hint, the page the object id names, or the only page |
| PageLookup.PageService.OwnerInstagramPage | internal/app/service.go:143-165 | the hint, or the only page with an Instagram account |
| Isolation.TenantIsolation | internal/app/service.go:76-165 | with whole application calls as steps, erasing every other user's logins, syncs, deletions and tool calls leaves a user's page lists, resolutions and page tokens unchanged |
| Isolation.RunsAlike | internal/app/login.go:79-97 | the simulation behind it, from any two databases that look alike to the user |
| Isolation.SweepAlike | internal/app/refresh_tokens.go:38-66 | a sweep over two such databases leaves them alike, whoever else is due |
| Noninterference.AsIfAlone | internal/app/service.go:76-165 | with handlers interleaved at every store call, a user's resolutions, page tokens and page lists are those of the system where nobody else is stored, logs in, synchronizes, is renewed or is deleted, and where no other tenant is ever stored |
| Noninterference.RunsRelated | internal/app/login.go:79-97 | the simulation behind it, over whole runs from any two states that are alike to the user, handlers in flight included |
| Noninterference.EventRelated | internal/app/refresh_tokens.go:38-87 | one event of any handler and what erasing leaves of it keep the two systems alike; of a sweep the user's own tenants are left |
| Renewal.RenewalService.RefreshExpiringTokens | internal/app/refresh_tokens.go:38-66 | a completed sweep has renewed, column by column, exactly the tenants that were due and granted, and checked == refreshed + expired; a cancelled one has stopped after a prefix; the expired are the refused ones in order |
| Renewal.RenewalService.RefreshOne | internal/app/refresh_tokens.go:69-87 | one exchange and its write, whatever happened to the row since it was read: token, second and deadline of the grant stored for the user and no other row touched; refused by Meta or by the store, nothing changes |
| Renewal.SweepIsAVisitToEach | internal/adapters/sqlite/store.go:149-172 | a sweep changes exactly the due tenants Meta renewed, and everyone else keeps the row |
| Renewal.SweepRenews | internal/app/refresh_tokens.go:50-87 | after a completed sweep each due and granted tenant holds the granted token, the second of its write and the deadline of the grant, with user, name and creation second as before; every other row is as it was |
| Renewal.QuietPeriod | internal/app/refresh_tokens.go:38-48 | without a known deadline, more than seven days pass before the next exchange, and a second more suffices |
| Renewal.RenewalBound | internal/app/refresh_tokens.go:38-87 | a known deadline is never in the past, whatever the tolerable history, if and only if m gaps and one second fit in the window and in a token's life |
| Renewal.RenewalSuffices | internal/app/refresh_tokens.go:38-87 | the sufficient half, for one history |
| Renewal.RenewalFails | internal/app/refresh_tokens.go:38-87 | the necessary half: a history that lets a deadline pass when the margin is a nanosecond short |
| Renewal.DeployedTolerance | cmd/metasocial-mcp/main.go:38-41 | as deployed, for every time a sweep may take on top of its twelve hours, 26 consecutive failures are survived and 27 are not |
| Renewal.DeployedSlack | internal/app/refresh_tokens.go:50-66 | that time is at most 26 minutes and 39.96 seconds a sweep |
| Graph.CallRetriesOnce | internal/adapters/meta/client.go:157-178 | a call repeats its request at most once, and only after a rate-limit answer it waited out |
| Graph.CallMeaning | internal/adapters/meta/client.go:157-178 | a second attempt is made if and only if the first is refused with code 4, 17, 32, 613 or status 429 and the pause, of the length Meta named or the default, elapses; the result is the answer to the last attempt |
| Graph.CredentialsMeaning | internal/adapters/meta/client.go:180-189 | token and proof are set exactly as they should be, and every other parameter is sent as it is |
| Graph.Client.CallOnce | internal/adapters/meta/client.go:180-224 | credentials set in the caller's parameters, then one attempt |
| Graph.Client.Call | internal/adapters/meta/client.go:157-178 | the attempts, the pause and the result, for every responder |
| Graph.Client.Collect | internal/adapters/meta/client.go:279-304 | the loop equals its recursive form, one logical call a page |
| Graph.CollectMeaning | internal/adapters/meta/client.go:279-304 | concatenate then take: the first `limit` items of the linked pages, exactly when the limit is filled or the walk ends without a failed call, reading no page after the one that suffices |
| Graph.CollectTerminates | internal/adapters/meta/client.go:279-304 | at most n + 1 calls for n pages, the last one discarded, and two attempts a call (51 and 102 as deployed) |
| Text.SplitJoin | internal/adapters/meta/publish.go:138 | names without commas are read back from their joined parameter, in order |
| Text.JoinSpellsOut | internal/adapters/meta/graph.go:151 | a joined list spells out as many names as it has exactly when none of them holds a comma |
| Insights.InsightClient.Insights | internal/adapters/meta/graph.go:146-162 | one request for the named metrics, with the caller's shared parameters untouched |
| Insights.InsightClient.DecodeInsights | internal/adapters/meta/graph.go:83-93 | every item of the payload in order, or a failure when one cannot be read |
| Insights.InsightClient.InsightsWithFallback | internal/adapters/meta/graph.go:114-142 | the batch when it is accepted, otherwise the metric-by-metric reading; which requests were sent and how many; the shared parameters unchanged |
| Insights.InsightClient.EachMetric | internal/adapters/meta/graph.go:127-141 | insights in request order, rejected exactly the metrics answered with code 100, stopped by any other error |
| Insights.BatchRefinesSingles | internal/adapters/meta/graph.go:110-142 | when accepted lists are answered by their members' answers, a successful batch-with-fallback equals asking metric by metric, in 1 or 1 + n requests |
| Insights.OneByOneIsUnique | internal/adapters/meta/graph.go:127-141 | the metric-by-metric reading determines its answer |
| Insights.FallbackMeaning | internal/adapters/meta/graph.go:114-126 | an accepted batch is the answer, code 100 starts the metric-by-metric reading, any other failure is passed on; one request before that, none for an empty list |
| Insights.EachMeaning | internal/adapters/meta/graph.go:127-141 | request by request: each metric is asked for after the one before, exactly those answered with code 100 are rejected, and the first other error ends the reading |
| Insights.ReadAllMeaning | internal/adapters/meta/graph.go:83-93 | a payload is read item by item, in order, if and only if every item can be read |
| Insights.KeepInOrder | internal/adapters/meta/graph.go:288-296 | each of the two lists stands at rising positions of the request |
| Insights.InsightParameters | internal/adapters/meta/graph.go:146-162 | every parameter of a request: metric, period, metric_type exactly for totals, since and until exactly when given |
| Insights.InsightClient.SplitMetrics | internal/adapters/meta/graph.go:288-296 | the two lists, each in the order of the request |
| Insights.SplitConserves | internal/adapters/meta/graph.go:288-296 | together they are the request as a multiset |
| Insights.InsightClient.IGAccountInsights | internal/adapters/meta/graph.go:288-324 | totals then series, merged, first failure wins; every request sent has metric_type exactly when it does not ask for follower_count |
| Insights.IGConserves | internal/adapters/meta/graph.go:278-324 | on success the names answered and rejected are a permutation of the request when no requested name holds a comma, and, when nothing is rejected, only then |
| Insights.IGConservesExactly | internal/adapters/meta/graph.go:278-324 | such a permutation is answered for every responder of one insight per name if and only if no requested name holds a comma |
| Insights.AnsweredConserves | internal/adapters/meta/graph.go:127-141 | a metric-by-metric reading is such a permutation if and only if every name that is answered, and so not rejected, is free of commas |
| Insights.EchoIsOneInsightPerName | internal/adapters/meta/graph.go:146-162 | a responder that accepts every list meets what the theorem asks of Meta |
| Publish.Publisher.IGPublish | internal/adapters/meta/publish.go:91-110 | the calls made are one publication (containers, polls for as long as they take, at most one publish call), and the log grows by their attempts and the waits between polls and by nothing else |
| Publish.Publisher.CreateIGContainer | internal/adapters/meta/publish.go:113-151 | all slides and then the parent listing their ids in order, or the slides up to the first failure |
| Publish.Publisher.ContainerParams | internal/adapters/meta/publish.go:114-141 | the parameters of each media type; a story carries no caption |
| Publish.Publisher.CreateCarouselItems | internal/adapters/meta/publish.go:154-171 | one creation a slide, in order, up to the first failure |
| Publish.Publisher.WaitForIGContainer | internal/adapters/meta/publish.go:180-207 | the polls, the waits between them and the verdict, equal to the recursive form of `Publish.SettledAt` |
| Publish.PollMeaning | internal/adapters/meta/publish.go:180-207 | the answer to the last poll decides (FINISHED is success, ERROR and EXPIRED failures of their own) and every earlier poll answered another status; at most `left` polls |
| Publish.SettledAt | internal/adapters/meta/publish.go:180-207 | polling stops at the first poll that settles the matter, and gives up only with the last poll or a cancelled wait |
| Publish.PollDelayMeaning | internal/adapters/meta/publish.go:209-216 | two seconds between polls, or the client's own delay when that is positive and shorter |
| Publish.PublishIsSafe | internal/adapters/meta/publish.go:91-207 | in every trace, container c is published only after the parent's creation returned c, listing the ids of all its slides in order, and right after a poll of c whose body reads status_code FINISHED |
| Publish.PublicationBounds | internal/adapters/meta/publish.go:91-207 | at most n + 1 creations, then at most 30 polls as deployed, then at most one publish call, and success exactly when that call returned an id |
| Publish.FinishedIsPublished | internal/adapters/meta/publish.go:91-207 | when the first k polls find the media processed and their waits elapse, poll k decides: on FINISHED the container is published by one call whose answer is the answer; on ERROR, EXPIRED, a failed poll or the last pending one it never is |
| Publish.MediaParameters | internal/adapters/meta/publish.go:114-141 | exactly the parameters of a story, a reel, a carousel and a photo, each with its value |
| Publish.CreationsMeaning | internal/adapters/meta/publish.go:113-171 | a carousel's slides, all of them in order, are created before the parent; anything else creates the parent alone |
| Publish.CallParameters | internal/adapters/meta/publish.go:91-190 | method, path and parameters of slide, poll and publish calls |
| Publish.PublicationAttempts | internal/adapters/meta/client.go:157-178 | every call of a publication is attempted once, and a second time only after a rate-limit answer it waited out; at most two attempts a call in all |
| Publish.ChildrenAreReadBack | internal/adapters/meta/publish.go:132-138 | the children parameter tells the ids of the slides, in order |
| Publish.NotReadyIsLast | internal/adapters/meta/publish.go:197-206 | giving up as not ready takes all the polls there are |
| Base64.RoundTrip | internal/config/config.go:236-249 | each of the four encodings decodes what it encodes, for every byte sequence |
| Base64.Vectors | internal/config/config.go:236-249 | the padded vectors of section 10 of RFC 4648 |
| Base64.OtherVectors | internal/config/config.go:236-249 | unpadded ones, and where the two alphabets of RFC 4648 differ |
| Base64.Agreement | internal/config/config.go:234-249 | two encodings that accept the same string agree on it |
| Base64.DecodeBase64 | internal/config/config.go:236-249 | fails exactly when all four refuse, and otherwise returns what every accepting one returns |
| Base64.DecodeKey | internal/config/config.go:216-232 | missing, undecodable, of the wrong length, or the key |
| Base64.KeyRoundTrip | internal/config/config.go:214-249 | however a key was encoded and whatever white space surrounds it, it is read back, or refused for its length alone |
| Text.TrimSurroundings | internal/config/config.go:217 | surrounding white space of any length is removed and nothing else |
| Text.BlankMeaning | internal/app/service.go:77 | a string is blank exactly when it is white space throughout |
| Jwt.SplitMeaning | internal/adapters/authserver/jwt.go:133-148 | exactly the strings with two dots and three non-empty parts are split, into those parts |
| Jwt.VerifyMeaning | internal/adapters/authserver/jwt.go:84-123 | every string is accepted if and only if it is three segments, the third the MAC of the first two, with a header of alg HS256 and typ JWT or none, and claims of this issuer for this resource with a tenant and a deadline ahead; it then reads those claims |
| Jwt.MintThenVerify | internal/adapters/authserver/jwt.go:52-123 | what one server minted another accepts exactly when signature, issuer and resource are shared, the tenant is named and the deadline is ahead; it then reads the minted claims |
| Jwt.MintedSays | internal/adapters/authserver/jwt.go:52-80 | a minted token is read as minted: issuer, resource, tenant, client, identifier, and second of issue |
| Jwt.EncodedSegment | internal/adapters/authserver/jwt.go:150-163 | an encoded segment is non-empty, has no dot, and decodes to its bytes |
| Jwt.ExactLifetime | internal/adapters/authserver/jwt.go:57-66 | a token of lifetime T verifies up to its floored deadline and never later, which lies less than a second before n + T |
| Jwt.AnnouncedLifetime | internal/adapters/authserver/token.go:145-172 | the token still verifies one second before the announced expires_in is over, despite two roundings |
| Jwt.AnnouncedToTheEnd | internal/adapters/authserver/token.go:145-172 | it verifies to the end of expires_in if and only if the answering clock is further into its second than the deadline |
| Migrations.Database.Migrate | internal/adapters/sqlite/db.go:50-82 | a start with a budget of statements equals its recursive form, wherever it stops |
| Migrations.Database.ApplyMigration | internal/adapters/sqlite/db.go:97-115 | body and record committed together or not at all |
| Migrations.Database.MigrationApplied | internal/adapters/sqlite/db.go:84-95 | whether the name is recorded |
| Migrations.NeverTwice | internal/adapters/sqlite/db.go:50-115 | over any starts of any releases, stopped anywhere: no body is committed twice, none is forgotten, and a completed start has all of its release applied |
| Migrations.AlwaysAPrefix | internal/adapters/sqlite/db.go:50-115 | when releases only add later names, the committed bodies are always a prefix of the lexical order |
| Migrations.EnoughCompletes | internal/adapters/sqlite/db.go:50-82 | a start completes if and only if one statement for the table, one for each migration and a transaction for each unrecorded one succeed |
| Migrations.SortMeaning | internal/adapters/sqlite/db.go:65 | sorting orders the entries lexically and loses none |
| Text.LexMeaning | internal/adapters/sqlite/db.go:65 | the order: the first position that differs decides, and a string follows its prefixes |

## Left out

- Database faults: a store call that fails for reasons of its own is the event `Abort`, which ends the handler there; its HTTP answer is not modelled.
- The cipher: rows hold plaintext tokens, which is what decrypting an encrypted column gives.
- Handlers.AuthServer.Authorize: reads the clock once; the source reads it when the login state is built, after the same checks.
- Isolation.TenantIsolation: an application call is one step here; `Noninterference.AsIfAlone` is the statement for calls interleaved at their store calls.
- Session.Resume: one event is one store call with one clock reading; readings that a handler makes between two calls are those of the later one.
- Graph.Client.Collect: the base URL that `endpoint` prefixes is part of the URL; items and bodies are strings read by decoders that are parameters.
- Publish.Publisher.IGPublish: the error texts and the `status` detail of a rejected media are not modelled.
- Jwt.AnnouncedLifetime: `expires_in` is the exact quotient cut toward zero; the source goes through a float64, which agrees for lifetimes below a year.
- Jwt.MintThenVerify: JSON encodes every claim exactly, which the source does for valid UTF-8.
- Base64.DecodeKey: the environment is a parameter.
- Migrations.Database.Migrate: one process at a time; what a body does to the schema is its name in the list of committed bodies.
- PagePosts, IGMedia, PageRatings, comments and demographics: they call `Collect` or one request, ask once more with plainer fields on code 100, and flatten fields; they would only add easy members.
- RevokeTenantRefreshTokens and TokenExpiresWithin: nothing in the application calls the first, and the sweep follows the SQL query instead of the second.
- HTTP routing, CORS, metadata documents, the MCP surface, HTML pages, signed_request parsing and the confirmation code.
- URL parsing: redirect URIs are opaque strings with `validateRedirectURI` as a predicate.
- Secret generation and constant-time comparison: secrets are inputs, comparison is equality.
