# Verified model of the database access portal

The portal hands out short-lived database accounts. A grant owns things in four places: a role in Vault, an
orphan Vault token, a lease, and a database account with live sessions. A row in SQLite is written before
each external step, so that a crash at any point leaves enough to clean up. This project models that
lifecycle, the compiler that turns a request into SQL, the loops that end sessions, the helper runs and
the portal's own login sessions, and proves what they promise for every input and every run.

## How it is built

**The lifecycle** (`Protocol` to `Portal`). `Protocol` is a transition system: any number of threads run
`issue`, `revoke` and the reconciler under one lock per database. Every external call is one event. It may be
rejected, applied, applied with its response lost, or (for credentials and lease revocation) applied in part.
Vault lets leases and tokens run out on its own; a crash may fall between any two events and forgets
threads, locks and the in-flight set. `Invariant` states an inductive invariant grant by grant and thread
by thread, `Frames` and the four `...Steps` modules show that each event keeps it, `Preservation` puts them
together, and `Lifecycle` draws the theorems. `Reopening` shows when a closed row can change again, `Isolation`
what a grant may lose while nobody works on it (only what has run out), and `Convergence` what a sweep of the
reconciler achieves while time goes on. `Traces` and `Moments` say what one thread did in a stretch of a run,
and `Calls` and `LateToken` hold lemmas about single calls. `Portal` then writes `grants.py` in its own form: methods with
the source's branches and loops. Each call they make is one event, other threads, Vault and the databases'
clients take any number of steps between two calls, and the contracts say what a normal return and an error
mean. Where a contract speaks of nobody else running (`quiet`), only other portal threads are excluded: time
passes and leases and tokens run out all the same. `faults` counts the calls that failed, so a contract can
say what an operation achieves when none of its own calls did. What a contract says of the past, such as what
a search saw or which grants a sweep started on, is a fact about the events the run gained.

**The grant compiler** (`SqlText` to `Effects`). `Builder` follows `statement_builder.py` loop by loop and
is proved against a plan, a list of statements as data. `Statements` prints and parses them over real strings.
`Power` splits the texts on semicolons as Vault does, parses each piece and runs it on a privilege model; its
theorems give the exact rights of the new account. `Catalog` connects this to what introspection returns.
`Maintenance` does the same for the fixed statements run against one account, and `Effects` runs them on a server.

**Sessions that must end** (`Lockout`, joined to the lifecycle by `Hush`), **finding a lost token** (`TokenScan` with `Names`), **Vault calls**
(`VaultClient`) and **portal logins** (`Sessions`, `SessionSteps`, `SessionRuns`, `SessionPortal`) each take the class or loop
of the source and prove it against a specification.

## What is assumed

- A call has its effect, if any, no later than its return, its error or the crash that interrupts it.
- A 403 from Vault means that the call had no effect.
- A store write is atomic: if it raises, it was not applied. Reads of the store may raise too.
- One clock that never goes back is shared by the portal and Vault.
- Vault picks accessors, lease ids and the random part of an account name that are not in use; a session id is
  one nobody has presented or drawn before.
- Only the portal creates accounts, roles and tokens named after grants. The username template is the one
  `setup.py` installs.
- The configurable limits have their default values.
- Whether a password is right is Vault's answer, a parameter of the login.
- PostgreSQL admits no login to a role that is absent or committed as NOLOGIN. This is written into the clients'
  step of `Lockout`; that an account once silent stays silent follows from it.
- A token that somebody else made does not carry the display name the scan expects of a grant.

## Where the code differs from what one might expect

- Closed rows are not closed for good. A `revoke` reads the status before it takes the lock and does not look
  again, so one that read the row earlier reopens it. A closed row can change in some run if and only if such a
  revoke is on its way (`Reopening.ClosedChangesIff`), and a run where it does is given
  (`Reopening.ClosedRowReopens`). Resources never come back either way.
- `cleanup_role` alone does not promise that no session is left: its lockout becomes visible only when it
  commits, so a client may log in after the last count. The promise holds if and only if the lockout was
  committed before (`Lockout.CleanupAloneIsNotEnough`), which is the order the portal uses.
- A helper run leaves Vault as it was, except when the response of its token creation is lost: the token
  then stays until its lifetime ends (`VaultClient.NeutralRun`).
- The stamp `last_check` is the time of the row update, not of the look at the rights. The look lies between the
  request's read of the row and the stamp, however long that took; the bound on how late a request of a user
  without rights can be accepted counts from the last stamp (`SessionRuns.RightsRunOut`).
- A login that fails after the password was right and before its session is stored leaves its new token alive and
  never passes it to revocation: such a run is given (`SessionRuns.LoginLeavesToken`). After a run without
  crashes a minted token is accounted for if and only if no request ended holding it
  (`SessionRuns.MintedTokensIff`).
- `issue` can raise although no call failed: when the token's whole lifetime passes before it is used
  (`LateToken.TokenMayRunOut`). Then nothing is left of the grant (`Portal.Portal.IssueGrant`).
- `issue` raises with an `active` row in place when only its final audit write or its final read fails, and a `failed` issue whose
  teardown fails too is later closed as `revoked`.

## Model

| member | source | states |
|---|---|---|
| Names.PrefixIsOwnership | middleware/app/db_introspect.py:118-130 | the prefix search for a grant finds an account exactly when the account is that grant's |
| Names.ValidAccountIsUsername | middleware/app/statement_builder.py:104-110 | the account pattern accepts exactly the names Vault's template makes from grant ids |
| Names.UsernameIsValid | middleware/app/setup.py:49 | every account Vault can create for a grant passes the guard of the maintenance statements |
| Names.HelperUsernameIsFoundButRefused | middleware/app/grants.py:163-165 | an account named after a helper role would be found by the search and refused by the guard |
| Names.RewriteInjective | middleware/app/vault_client.py:136 | rewriting underscores loses nothing on names without dashes |
| Names.DisplayMatchIsLabel | middleware/app/vault_client.py:136-146 | the display-name test, fallbacks included, accepts a token exactly when it carries the wanted label |
| Preservation.ReachableInv | middleware/app/grants.py:95-249 | the lifecycle invariant holds in every reachable state: any interleaving, any crash, any lost response |
| Lifecycle.NoLeak | middleware/app/grants.py:95-223 | any role, token, lease or account belongs to a row that exists and is not closed |
| Lifecycle.RoleOutlives | middleware/app/grants.py:119-133 | while a token, lease or account of a grant exists its Vault role exists, and names the right database |
| Lifecycle.SectionsNeverOverlap | middleware/app/grants.py:53-65 | two lock holders are never in one database, and past the insert never on one grant |
| Lifecycle.InflightIsOpen | middleware/app/grants.py:57-64 | the in-flight set holds only grants whose section is open |
| Lifecycle.IssuerIsDead | middleware/app/grants.py:242-247 | a lock holder other than the issuer knows that no issuer of the grant is past its insert |
| Lifecycle.TeardownIsCalledFor | middleware/app/grants.py:226-247 | a teardown in progress always matches the current row: overdue, issuing or revoking |
| Lifecycle.TokenOutlivesLease | middleware/app/vault_client.py:105-116 | the cap never shortens a grant token; it outlives a full lease if and only if credentials were read within the grace |
| Lifecycle.LiveGrantIsKept | middleware/app/grants.py:127-133 | until its lease ends an active grant keeps role, token, lease and account; the stored expiry is never before the lease's end |
| Lifecycle.StatusStep | middleware/app/grants.py:127-157 | which status can follow which, for every event; rows never disappear and start as issuing |
| Lifecycle.ClosedForGood | middleware/app/grants.py:147-157 | a closed row never changes in any run, unless a revoke that read it earlier is pending |
| Lifecycle.ReopenedByRevoke | middleware/app/grants.py:155 | the pending revoke's first write turns a closed row back to revoking |
| Reopening.HolderLeaves | middleware/app/grants.py:53-65 | whoever holds a lock can be made to leave by failing calls, with no row written |
| Reopening.ClosedChangesIff | middleware/app/grants.py:148-155 | a closed row can change in some run if and only if such a revoke waits, enters or is about to write |
| Reopening.ClosedRowReopens | middleware/app/grants.py:148-155 | a concrete run: two revokes read an issuing row, the first closes it, the second reopens it |
| Lifecycle.SettledRun | middleware/app/grants.py:195-223 | once nothing of a grant is left and its row is not issuing, nothing comes back in any run |
| Lifecycle.RevokedMeansGone | middleware/app/grants.py:147-160 | a normal return of revoke, early or after its teardown, means everything is gone now and later |
| Lifecycle.OthersKeepMyGrant | middleware/app/grants.py:18-21 | while a thread holds the lock, no other thread moves its grant: what goes missing had run out |
| Isolation.OuterAges | middleware/app/grants.py:127-133 | what Vault and time do on their own takes from any grant only what has run out |
| Hush.HushKept | middleware/app/grants.py:168-179 | accounts that refuse logins and have no session stay so while no account of their grant is made |
| Portal.Portal.Step | middleware/app/grants.py:95-249 | one call of a thread under any interference: its grant is not disturbed, other grants lose only what ran out |
| Portal.Portal.TurnOut | middleware/app/grants.py:168-179 | a normal return on PostgreSQL means no login is admitted and no session is left; silent accounts stay silent; it fails only if one of its calls fails or the deadline passes |
| Portal.Portal.LockOutAndTerminate | middleware/app/grants.py:199-200 | one account of the list refuses logins and has no session, the rest are still to do |
| Portal.Portal.TokensToRevoke | middleware/app/grants.py:195-197 | the accessor the row names, or those a scan finds; until then only what had run out is gone |
| Portal.Portal.TryLockOut | middleware/app/grants.py:198-200 | on success every PostgreSQL account the first search saw, in the world before that call, is silent |
| Portal.Portal.TryTeardown | middleware/app/grants.py:194-214 | the guarded teardown ends in the closing write or in the error path; on success the accounts its own first search in this run saw are silent, and until that search only what had run out was gone |
| Portal.Portal.TryLeases | middleware/app/grants.py:201-205 | all leases are revoked before the second search |
| Portal.Portal.DropAccount | middleware/app/grants.py:206-208 | a leftover account is locked out, its sessions ended and it is dropped |
| Portal.Portal.TryAccounts | middleware/app/grants.py:206-211 | every leftover account is dropped and their absence confirmed |
| Portal.Portal.TryRemoval | middleware/app/grants.py:201-214 | leases, leftover accounts, confirmation, tokens and role, in this order |
| Portal.Portal.TryTokens | middleware/app/grants.py:212-214 | tokens first, the role last |
| Portal.Portal.CloseRow | middleware/app/grants.py:222-223 | the closing write happens only when nothing of the grant is left; it is missing only if it raised |
| Portal.Portal.NoteFailure | middleware/app/grants.py:215-221 | after an error the row says revoking, unless that write raises too, and then it is as it was |
| Portal.Portal.Teardown | middleware/app/grants.py:182-223 | from any reachable state, so after any earlier attempt cut short: success means nothing is left, the row is closed and the accounts its first search saw are silent; it fails only if a call fails, and then the row says revoking unless its read, the note of the failure or the closing write raised, each shown by the run and by the count of faults |
| Portal.Portal.Begin | middleware/app/grants.py:53-59 | the lock is taken and the grant marked in flight, or the operation gives up while somebody holds the lock; after its start the thread itself only enters or leaves, whatever others do, and alone it always gets the lock |
| Portal.Portal.End | middleware/app/grants.py:62-65 | the section is left: the thread itself does nothing but take the grant out of the in-flight set and free the lock |
| Portal.Portal.RereadGrant | middleware/app/grants.py:244-247 | the decision rests on the row as it is under the lock: an issuing row is to fail, a revoking one to be revoked, an active one more than 15 seconds past its expiry to expire, any other is left alone |
| Portal.Portal.ReconcileLocked | middleware/app/grants.py:243-247 | under the lock, whatever others do: without faults a row that needs work gets that end and nothing of the grant is left; with faults it says revoking unless a read or write of the row itself raised; a row that needs none is untouched |
| Portal.Portal.ReconcileOne | middleware/app/grants.py:238-249 | without faults, whatever others do, the row is read under the lock and ended as it needs in this run, unless somebody held the lock; alone, the end stands and other grants lose only what ran out; it starts on this grant and no other |
| Portal.Portal.VisitRow | middleware/app/grants.py:256-263 | one row of the snapshot: tried exactly when work is due and it is not in flight; a try without faults started in this run and saw to the row; there is no other start |
| Portal.Portal.ReconcileOnce | middleware/app/grants.py:252-263 | whatever others do, each issuing, revoking or overdue row is tried, or was in flight during the sweep, and each try without faults saw to its row in this run unless somebody held the lock; alone, every such row is ended as it needs whatever fails elsewhere, and without faults the sweep converges, while time passes and things run out; it raises only if the listing does |
| Convergence.SweepOn | middleware/app/grants.py:255-263 | one more visit keeps the account of attempted, passed over and clean rows, and of the faults |
| Convergence.Recovered | middleware/app/grants.py:226-263 | then every issuing row is failed, every revoking one revoked and every overdue one expired, with nothing left of its grant; active rows that remain were not overdue, and whatever remains belongs to them |
| Portal.Portal.MarkRevoking | middleware/app/grants.py:155-156 | the row is revoking before anything is torn down |
| Portal.Portal.RevokeLocked | middleware/app/grants.py:154-157 | under the lock it succeeds unless a call fails, and then the grant is settled and the accounts its first search saw are silent; if it fails the row says revoking, unless the first write raised or only the last audit entry is missing |
| Portal.Portal.RevokeGrant | middleware/app/grants.py:147-160 | error cases, each with its ground; a normal return gives the status of the row and means gone for good and, after a teardown, no session of the accounts its first search in this run saw, whatever other threads do |
| Portal.Portal.InsertGrant | middleware/app/grants.py:106-117 | the row is there before any external step, for the database and lifetime asked for, or the operation leaves with no effect because the write raised or the id was taken |
| Portal.Portal.NoteAccessor | middleware/app/grants.py:123 | the accessor is stored before the token is used |
| Portal.Portal.NewToken | middleware/app/vault_client.py:105-116 | the new token lasts for lifetime and grace, unless that time has passed |
| Portal.Portal.ReadCredentials | middleware/app/vault_client.py:150-161 | success leads to activation, any failure to the error path; with a live token only a failing call fails it |
| Portal.Portal.ActivateGrant | middleware/app/grants.py:127-139 | once stored, the row is active with everything in place, even if the audit write then fails; its expiry is no earlier than the lease's end and no later than the lease's length from now |
| Portal.Portal.TryIssue | middleware/app/grants.py:118-138 | success means active with everything in place; without faults it fails only after the token's whole lifetime |
| Portal.Portal.IssueLocked | middleware/app/grants.py:105-139 | under the lock, whatever others do, the inserted row is for the database and lifetime asked for and ends active and complete, failed with nothing left, revoking after a failed teardown, or issuing if a write or read of the teardown or the handler's audit write raised; without faults only the token's lifetime can keep it from being active |
| Portal.Portal.IssueGrant | middleware/app/grants.py:95-144 | lifetime check; a normal return means the run had the grant active and complete with account, role, lease, expiry and token as asked, and alone it still is; any refusal has its ground; other grants lose only what ran out; without faults it fails only if the token's lifetime passed, and leaves nothing, or if the id was taken; the last audit write and the last read may raise after the row is active |
| LateToken.TokenMayRunOut | middleware/app/grants.py:118-138 | a concrete run without a failing call in which the token runs out before it is used, so that only a refusal is left |
| TokenScan.FindTokenAccessors | middleware/app/vault_client.py:126-147 | normal return exactly when the listing is short enough and no lookup is unclear; the first unclear lookup raises |
| TokenScan.OnlyOwnTokenMatches | middleware/app/vault_client.py:136-146 | the test picks a token of the portal exactly when it was made for this grant |
| TokenScan.ScanIsExact | middleware/app/vault_client.py:126-147 | a normal return names every live token of the grant and no other |
| TokenScan.ScanIsProtocolScan | middleware/app/vault_client.py:126-147 | the loop computes what the lifecycle takes as one step |
| VaultClient.Vault.RunAsManager | middleware/app/vault_client.py:187-204 | a normal return means the statements ran exactly once; the state of Vault for every way the six calls can go |
| VaultClient.NeutralRun | middleware/app/vault_client.py:187-204 | with effective clean-up a run leaves Vault as it was, if and only if no token response was lost |
| VaultClient.Service.Login | middleware/app/vault_client.py:45-59 | a new client replaces the old one, whose token is revoked if that works; a login whose answer is lost leaves one live token nobody holds |
| VaultClient.Service.Call | middleware/app/vault_client.py:67-75 | what is returned or raised for every way the login, the request and the repetition after a 403 can go; at most one effect, exactly one on a normal return; never an expired token; old tokens pile up only if they cannot be revoked, and at most one token is left behind by a call, whose login's answer was lost |
| Lockout.EmptyForGood | middleware/app/grants.py:169-179 | once logins are refused and no session is left, there is never one again |
| Lockout.TerminateLoop | postgres-init/02-roles.sh:74-84 | at most 51 passes, other sessions untouched; it ends well exactly when no session is left, and otherwise only after all 51 |
| Lockout.KillEndsLoop | postgres-init/02-roles.sh:74-84 | with logins refused, the first pass whose terminate call achieves anything is the last |
| Lockout.Cluster.TerminatePasses | postgres-init/02-roles.sh:74-84 | the loop with its counter computes that specification |
| Lockout.Cluster.Cleanup | postgres-init/02-roles.sh:60-88 | the function as written computes the specification in as many passes; none for a missing role; one is enough after a committed lockout if every call works, and then role and sessions are gone |
| Lockout.CleanupContract | postgres-init/02-roles.sh:60-88 | refuses exactly the foreign names, a normal return means the role is gone, other roles untouched |
| Lockout.LockedCleanupSucceeds | postgres-init/02-roles.sh:60-88 | after a committed lockout the clean-up succeeds if any of its 51 passes gets a terminate call through and the drop works |
| Lockout.CleanupIdempotent | postgres-init/02-roles.sh:39-42 | a second run after success changes nothing |
| Lockout.LockedCleanupEndsSessions | postgres-init/02-roles.sh:60-88 | after a committed lockout a successful clean-up leaves no session, ever |
| Lockout.CleanupAloneIsNotEnough | postgres-init/02-roles.sh:73-86 | the guarantee holds for all clients if and only if logins were refused before |
| Lockout.Cluster.TerminateUntilGone | middleware/app/grants.py:174-179 | at most 67 rounds; ends empty, or raises exactly when one of its calls failed, or past the deadline with a session left; touches only this account's sessions |
| Lockout.Cluster.LockOutAndTerminate | middleware/app/grants.py:168-179 | a normal return means refused logins and no session; it raises exactly when a call failed or past the deadline; ClickHouse needs nothing; foreign names refused |
| SqlText.IdentifierIsHarmless | middleware/app/statement_builder.py:12-19 | an identifier holds no quote, backtick, brace, blank or semicolon |
| SqlText.IdentifierIsExact | middleware/app/statement_builder.py:12-19 | the identifier pattern by length and character codes |
| SqlText.TakesCommands | middleware/app/statement_builder.py:22-28 | a joined command list reads back as the list |
| SqlText.TakeCommandsInverse | middleware/app/statement_builder.py:22-28 | only joined lists of allowed commands are read |
| SqlText.SplitsToItself | postgres-init/02-roles.sh:42 | splitting a statement with one final semicolon yields the statement alone |
| Statements.PgRoundTrip | middleware/app/statement_builder.py:57-73 | every PostgreSQL statement reads back from its text |
| Statements.PgParseIsExact | middleware/app/statement_builder.py:57-73 | the parser accepts only texts of well-formed statements |
| Statements.ChRoundTrip | middleware/app/statement_builder.py:81-86 | every ClickHouse statement reads back from its text |
| Statements.ChParseIsExact | middleware/app/statement_builder.py:81-86 | the parser accepts only texts of well-formed statements |
| Statements.PgOneSemicolon | middleware/app/statement_builder.py:57-73 | one semicolon, at the end |
| Statements.PgTextsAreLiteral | middleware/app/statement_builder.py:57-69 | the five texts letter by letter, database and schema included |
| Statements.ChOneSemicolon | middleware/app/statement_builder.py:81-86 | one semicolon, at the end |
| Statements.ChTextsAreLiteral | middleware/app/statement_builder.py:81-85 | the two texts letter by letter, database included |
| Builder.Sorted | middleware/app/statement_builder.py:34-36 | every known name once, in ascending order |
| Builder.Dedup | middleware/app/statement_builder.py:39 | every name once |
| Builder.DedupKeepsOrder | middleware/app/statement_builder.py:28-39 | of two kept names the one kept first occurred first in the input |
| Builder.JoinCommands | middleware/app/statement_builder.py:22-28 | accepted exactly when not empty and all allowed; the first offender is reported |
| Builder.ChooseTables | middleware/app/statement_builder.py:31-47 | accepted exactly when some table is wanted and all are known identifiers; the first offender is reported |
| Builder.SubstringIsMembership | middleware/app/statement_builder.py:66 | the substring test for INSERT on the joined text is membership in the list |
| Builder.TableStatements | middleware/app/statement_builder.py:64-65 | one grant for each chosen table, in order |
| Builder.SequenceStatements | middleware/app/statement_builder.py:66-71 | one grant for each sequence the chosen tables own, or the first offending name |
| Builder.BuildPostgres | middleware/app/statement_builder.py:50-75 | when a request is accepted, that the texts are those of the plan, and else which check failed first and on what |
| Builder.BuildClickhouse | middleware/app/statement_builder.py:78-91 | when a request is accepted, that the texts are those of the plan, and else which check failed first and on what |
| Power.PostgresPower | middleware/app/statement_builder.py:50-75 | splitting, parsing and running the texts gives exactly the requested rights |
| Power.ClickhousePower | middleware/app/statement_builder.py:78-91 | exactly the requested commands on exactly the wanted tables |
| Power.PgTextsReadBack | middleware/app/statement_builder.py:57-73 | every PostgreSQL text of an accepted request reads back as its statement and splits to itself |
| Power.ChTextsReadBack | middleware/app/statement_builder.py:81-90 | every ClickHouse text of an accepted request reads back as its statement and splits to itself |
| Power.IdentifierAddsNothing | middleware/app/statement_builder.py:12-19 | a name put into a text adds no quote, backtick, brace or semicolon |
| Catalog.PostgresCatalog | middleware/app/db_introspect.py:79-96 | the plain names in order, and for each table its plain sequences in row order |
| Catalog.PlainKeepsPlace | middleware/app/db_introspect.py:20-22 | each plain name stands after exactly the plain names that precede it in the input, repetitions included |
| Catalog.OwnedKeepsPlace | middleware/app/db_introspect.py:89-92 | each plain sequence of a known table stands after exactly those that precede it in the rows |
| Catalog.CatalogRequestIsAccepted | middleware/app/grants.py:98-101 | over a catalog a request is accepted exactly when its commands are allowed and it wants known tables |
| Catalog.CatalogPower | middleware/app/grants.py:98-101 | the rights of an accepted request in terms of the rows the database returned |
| Maintenance.RoundTrip | middleware/app/statement_builder.py:113-134 | a maintenance text determines its action and its account |
| Maintenance.ParseIsExact | middleware/app/statement_builder.py:113-134 | the parser accepts only texts of an action on a valid account |
| Maintenance.TextsAreLiteral | middleware/app/statement_builder.py:120-135 | the five maintenance texts letter by letter |
| Maintenance.MaintenanceIsGuarded | middleware/app/statement_builder.py:104-134 | all three builders refuse exactly the foreign names; every statement, split and read back, acts on the one account and no other |
| Maintenance.RevocationIsDrop | middleware/app/statement_builder.py:72-90 | the revocation stored with a lease is the drop the portal runs, with the placeholder as name |
| Effects.LockoutRefusesLogins | middleware/app/statement_builder.py:116-121 | running the lockout text makes PostgreSQL refuse the account's logins and changes nothing else; ClickHouse is sent nothing |
| Effects.TerminateEndsSessions | middleware/app/statement_builder.py:124-128 | running the terminate texts ends the account's sessions or queries and changes no account |
| Effects.DropRemovesAccount | middleware/app/statement_builder.py:131-135 | running the split and parsed drop texts leaves the account absent on both servers and others as they were; on ClickHouse its queries are over |
| Effects.LockoutThenDropWorks | middleware/app/statement_builder.py:116-135 | lockout and drop in the portal's order on PostgreSQL: if every call works, neither the account nor a session of it is left, whatever its clients want |
| SessionRuns.ReachableInv | middleware/app/store.py:210-250 | the session invariant holds in every reachable state |
| SessionRuns.TokensAreAccountedFor | middleware/app/store.py:210-250 | a stored token is in its row, or owed, revoked or dropped, never both |
| SessionRuns.NothingIsDropped | middleware/app/main.py:214-216 | in a run where no request crashes or ends owing, no token is dropped |
| SessionRuns.CarefulRunsRevoke | middleware/app/grants.py:264-265 | after such a run, with nobody running, a stored token is in a row or was passed to revocation |
| SessionPortal.Server.TokensArePassedOn | middleware/app/main.py:205-234 | runs made of the portal's own requests are such runs |
| SessionRuns.EndedForGood | middleware/app/store.py:233-235 | a session that ended never comes back |
| SessionRuns.AbandonedForGood | middleware/app/main.py:286-301 | a token that is in no session and in no request's hand is never passed to revocation, in any run |
| SessionRuns.AbandonedStep | middleware/app/main.py:283-295 | for every event: a token is left so exactly when the request that holds it ends or is cut off by a crash, or when it was left so before |
| SessionRuns.MintedTokensIff | middleware/app/main.py:283-295 | after a run without crashes and with nobody running, a minted token is in a row or was passed to revocation if and only if no request ended holding it |
| SessionRuns.LoginLeavesToken | middleware/app/main.py:283-295 | a concrete run of an administrator's login whose session is not stored, and whose token is left so |
| SessionRuns.StampsAreVouchedFor | middleware/app/store.py:224-230 | the stamp of a row was written by one request that looked up user and token itself, after reading the row unless it was the login |
| SessionRuns.AcceptedIsChecked | middleware/app/main.py:212-234 | every accepted request of every run is within the absolute limit, follows a touch of its session within the idle limit, and follows a stamp within the recheck interval or looked up user and token itself after it was judged due |
| SessionRuns.RightsRunOut | middleware/app/main.py:218-233 | once a user is out of the policy and the requests begun before are over, nothing of theirs is accepted later than the recheck interval after the last stamp |
| SessionPortal.Server.GetSession | middleware/app/store.py:217-221 | the row as stored at the read, and that its stamps only grow afterwards |
| SessionPortal.Server.DeleteSession | middleware/app/store.py:233-235 | the row is gone and the token that was read is owed |
| SessionPortal.Server.TouchSession | middleware/app/store.py:224-230 | the exact step: last_seen moves, last_check only with a check, a deleted row is not revived, nothing else changes |
| SessionPortal.Server.CreateSession | middleware/app/store.py:210-214 | the new session has a new id and the login's user and token |
| SessionPortal.Server.PurgeSessions | middleware/app/store.py:238-250 | exactly the sessions a request at that moment would be refused for their age are deleted and returned |
| SessionPortal.Server.CurrentSession | middleware/app/main.py:205-234 | accepted only within both limits and with a recent stamp or a check of user and token during the call; refused only if there is no row, or the row it read was too old or due and found lacking, and then ended with its token; it raises only if a call does |
| SessionPortal.Server.Decide | middleware/app/main.py:212-234 | what becomes of a row that was read: each of the three outcomes with its ground |
| SessionPortal.Server.LetThrough | middleware/app/main.py:232-234 | the row is touched and the request accepted as the rules of the run demand |
| SessionPortal.Server.UserPolicies | middleware/app/vault_client.py:234-243 | exactly the users of a well-formed name with the policy are admins; a yes is a sighting during the call and a no for such a name a miss |
| SessionPortal.Server.TokenPolicies | middleware/app/vault_client.py:246-253 | a live answer means Vault honoured the token during the call, the other that it did not |
| SessionPortal.Server.StillAdmin | middleware/app/main.py:218-227 | the session stays only if both the user's policy and the token were seen during the call, and goes only if one was seen missing |
| SessionPortal.Server.UserpassLogin | middleware/app/vault_client.py:224-231 | a right password yields a new token of that user with the policies of the moment |
| SessionPortal.Server.DoLogin | middleware/app/main.py:276-304 | a new id for an admin with the right password, and the session behind the old cookie has ended with its token; refused only for a bad form, a wrong password or a missing policy, and then the token is revoked; it raises only if a call does, and may then hold a token that is in no session |
| SessionPortal.Server.ServeLogin | middleware/app/main.py:276-304 | a whole login: only one that raised can end holding a token, and that token is then abandoned |
| SessionPortal.Server.DoLogout | middleware/app/main.py:315-322 | the session has ended and its token was passed to revocation |
| SessionPortal.Server.Serve | middleware/app/main.py:205-322 | any request or sweep ends owing no token |
| SessionPortal.Server.SweepSessions | middleware/app/grants.py:264-265 | every session too old at the purge is gone and its token passed to revocation |

## Left out

- HTTP routing, CSRF and Origin checks, cookies, templates, logging and audit contents.
- The byte counter on request bodies, `faults.py`, `preflight.py` and the one-off work of `setup.py`.
- `_report_orphans`, which only warns.
- Admission limits: that an operation may be refused as busy is a possible outcome, how many run is not counted.
- Order within `list_by_status`, `list_leases` and `find_accounts`: rows, leases and accounts are sets, so the theorems hold for every order.
- Dictionary order of `revoke_token_quietly` after a purge, for the same reason.
- Accounts changed by a database administrator, and Vault effects that land after a client timeout.
- The response of `issue` and `revoke` to the caller (`public`, `iso`, the password).
- The grant lifecycle and the compiler are joined only through the names and the revocation texts: the lifecycle does not look inside SQL.
- Sessions on ClickHouse, where the portal relies on DROP USER to end them (middleware/app/grants.py:170-172).
- Helper runs are not events of the lifecycle: their labels never match a grant's token, role or account (`Names`, `TokenScan`), and what they leave behind is proved in `VaultClient`.
- SessionRuns.RightsRunOut: does not bound the time between a request's look at the rights and its stamp, because the source does not either.
- VaultClient.Service.Call: models one thread, because two threads that log in again at the same time may revoke each other's token.
