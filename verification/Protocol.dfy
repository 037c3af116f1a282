/** The grant lifecycle as a transition system: any number of request and reconciler threads, one
  * lock per database, and the four places that hold a grant's resources. Every external call is one
  * event and may be rejected, applied with its response lost, or applied in part; a crash may fall
  * between any two events. */
module Protocol {
  import opened Names
  import opened Wrappers

  type GrantId = string
  type Tid = nat
  type Accessor = nat
  type LeaseId = nat

  const TTL_MIN := 10
  const TTL_MAX := 86400
  const TOKEN_GRACE := 120   // TOKEN_GRACE_SECONDS
  const MAX_TTL_SLACK := 3600 // added to TTL_MAX for the token role's explicit max TTL
  const EXPIRY_SLACK := 15.0

  datatype Db = Postgres | ClickHouse

  datatype Status = Issuing | Active | Revoking | Revoked | Expired | Failed

  predicate Terminal(s: Status) {
    s.Revoked? || s.Expired? || s.Failed?
  }

  /** A database account; its name is `Username(grant, random)`. */
  datatype Account = Account(db: Db, grant: GrantId, random: string)

  function NameOf(a: Account): string {
    Username(a.grant, a.random)
  }

  /** The columns of table `grants` that the lifecycle reads. */
  datatype Row = Row(db: Db, ttl: int, status: Status, expires: Option<real>,
                     username: Option<Account>, lease: Option<LeaseId>, accessor: Option<Accessor>)

  datatype Token = Token(tag: GrantId, created: real, end: real)

  datatype Lease = Lease(role: GrantId, account: Account, token: Accessor, issued: real, end: real)

  /** What a teardown carries from its first reads: the status to end in, the token accessors to
    * revoke and the lease the row named. */
  datatype Td = Td(final: Status, accs: set<Accessor>, lease: Option<LeaseId>)

  datatype Op = Issue(ttl: int) | Revoke | Reconcile

  /** Where a thread stands. `Leaving(done)` and `Releasing(done)` are the two steps of `_end`;
    * `done` says that the operation is about to return normally with its effect complete. */
  datatype Pc =
    | Waiting | Entering
    | Inserting | WritingRole | CreatingToken | StoringAccessor(acc: Accessor) | ReadingCreds(acc: Accessor)
    | Activating(cred: LeaseId)
    | Marking | Rereading
    | Fetching(final: Status) | Scanning(final: Status, lease: Option<LeaseId>)
    | Finding(td: Td) | LockingOut(td: Td, accounts: set<Account>) | Listing(td: Td)
    | RevokingLeases(td: Td, leases: set<LeaseId>)
    | FindingAgain(td: Td) | Dropping(td: Td, accounts: set<Account>) | Confirming(td: Td)
    | RevokingTokens(final: Status, accs: set<Accessor>) | DeletingRole(final: Status) | Finishing(final: Status)
    | Failing
    | Leaving(done: bool) | Releasing(done: bool)

  datatype Thread = Thread(op: Op, g: GrantId, db: Db, pc: Pc)

  /** `tokenLog` and `leaseLog` record every token and lease ever made; `tokens` and `leases` are
    * the ones still alive in Vault. */
  datatype World = World(
    store: map<GrantId, Row>,
    roles: map<GrantId, Db>,
    tokens: set<Accessor>, tokenLog: map<Accessor, Token>,
    leases: set<LeaseId>, leaseLog: map<LeaseId, Lease>,
    accounts: set<Account>,
    locks: map<Db, Tid>, inflight: set<GrantId>, threads: map<Tid, Thread>,
    clock: real)

  /** Done: applied and reported. Lost: applied, but the caller sees an error. Partial: an error
    * after the database part alone was applied. Rejected: an error and no effect. */
  datatype Outcome = Done | Rejected | Lost | Partial

  predicate Applied(o: Outcome) {
    o.Done? || o.Lost?
  }

  /** `t` is the acting thread. `ok` is false when a read or a store write raises; `audited` is false
    * when the audit write that follows in the source raises. */
  datatype Event =
    | StartIssue(t: Tid, g: GrantId, db: Db, ttl: int) | StartRevoke(t: Tid, g: GrantId)
    | StartReconcile(t: Tid, g: GrantId)
    | Acquire(t: Tid) | GiveUp(t: Tid) | Enter(t: Tid) | Discard(t: Tid) | Release(t: Tid)
    | InsertRow(t: Tid, ok: bool)
    | WriteRole(t: Tid, o: Outcome, audited: bool)
    | CreateToken(t: Tid, o: Outcome, audited: bool, acc: Accessor)
    | StoreAccessor(t: Tid, ok: bool, audited: bool)
    | ReadCreds(t: Tid, o: Outcome, audited: bool, cred: LeaseId, random: string, duration: nat)
    | Activate(t: Tid, ok: bool, audited: bool)
    | Mark(t: Tid, ok: bool, audited: bool)
    | Reread(t: Tid, ok: bool)
    | Fetch(t: Tid, ok: bool) | ScanTokens(t: Tid, ok: bool) | FindAccounts(t: Tid, ok: bool)
    | LockOut(t: Tid, account: Account, ok: bool) | ListLeases(t: Tid, ok: bool)
    | RevokeLease(t: Tid, cred: LeaseId, o: Outcome)
    | FindAgain(t: Tid, ok: bool) | Drop(t: Tid, account: Account, o: Outcome) | Confirm(t: Tid, ok: bool)
    | RevokeToken(t: Tid, acc: Accessor, o: Outcome) | DeleteRole(t: Tid, o: Outcome)
    | Finish(t: Tid, ok: bool, audited: bool) | MarkFailed(t: Tid, ok: bool)
    | ExpireLease(cred: LeaseId, recorded: bool) | ExpireToken(acc: Accessor, kill: set<LeaseId>)
    | Tick(d: real) | Crash

  predicate OfThread(e: Event) {
    !e.ExpireLease? && !e.ExpireToken? && !e.Tick? && !e.Crash?
  }

  predicate By(e: Event, t: Tid) {
    OfThread(e) && e.t == t
  }

  predicate Starts(e: Event) {
    e.StartIssue? || e.StartRevoke? || e.StartReconcile?
  }

  // ---- what the portal can observe -----------------------------------------------------------

  /** `find_accounts`: a search by database and name prefix over all accounts. */
  function Found(w: World, db: Db, g: GrantId): set<Account> {
    set a | a in w.accounts && a.db == db && StartsWith(NameOf(a), g + "_")
  }

  /** `find_token_accessors`: a scan of all live tokens by stored display name. */
  function Scanned(w: World, g: GrantId): set<Accessor> {
    set a | a in w.tokens && a in w.tokenLog && DisplayMatches(DisplayName(w.tokenLog[a].tag), g)
  }

  /** `list_leases`: the live leases under one role. */
  function LeasesOf(w: World, g: GrantId): set<LeaseId> {
    set l | l in w.leases && l in w.leaseLog && w.leaseLog[l].role == g
  }

  /** `_final_for`. */
  function FinalFor(row: Row, now: real): Option<Status> {
    match row.status
    case Issuing => Some(Failed)
    case Revoking => Some(Revoked)
    case Active => if row.expires.Some? && now > row.expires.value + EXPIRY_SLACK then Some(Expired) else None
    case _ => None
  }

  function Min(a: int, b: int): int {
    if a < b then a else b
  }

  /** Lifetime Vault gives a grant token: what was asked for, capped by the token role. */
  function TokenTtl(ttl: int): int {
    Min(ttl + TOKEN_GRACE, TTL_MAX + MAX_TTL_SLACK)
  }

  // ---- effects -------------------------------------------------------------------------------

  function Goto(w: World, t: Tid, pc: Pc): World
    requires t in w.threads
  {
    w.(threads := w.threads[t := w.threads[t].(pc := pc)])
  }

  function SetRow(w: World, g: GrantId, row: Row): World {
    w.(store := w.store[g := row])
  }

  function WithToken(w: World, acc: Accessor, token: Token): World {
    w.(tokens := w.tokens + {acc}, tokenLog := w.tokenLog[acc := token])
  }

  /** Accounts that the revocation statements of these leases drop. Without the role Vault no
    * longer has the statements, so nothing is dropped. */
  function Doomed(w: World, kill: set<LeaseId>): set<Account> {
    set l | l in kill && l in w.leases && l in w.leaseLog && w.leaseLog[l].role in w.roles :: w.leaseLog[l].account
  }

  /** Leases that end with a token. */
  function LeasesByToken(w: World, acc: Accessor): set<LeaseId> {
    set l | l in w.leases && l in w.leaseLog && w.leaseLog[l].token == acc
  }

  function KillLeases(w: World, kill: set<LeaseId>): World {
    w.(leases := w.leases - kill, accounts := w.accounts - Doomed(w, kill))
  }

  function KillToken(w: World, acc: Accessor, kill: set<LeaseId>): World {
    KillLeases(w.(tokens := w.tokens - {acc}), kill)
  }

  // ---- control flow --------------------------------------------------------------------------

  /** The error path of `issue`: an audit write, then a teardown; if the audit write raises the
    * teardown never starts. */
  function Abandon(audited: bool): Pc {
    if audited then Fetching(Failed) else Leaving(false)
  }

  function LockOutPc(td: Td, todo: set<Account>): Pc {
    if todo == {} then Listing(td) else LockingOut(td, todo)
  }

  function LeasePc(td: Td, todo: set<LeaseId>): Pc {
    if todo == {} then FindingAgain(td) else RevokingLeases(td, todo)
  }

  function DropPc(td: Td, todo: set<Account>): Pc {
    if todo == {} then Confirming(td) else Dropping(td, todo)
  }

  function TokenPc(final: Status, todo: set<Accessor>): Pc {
    if todo == {} then DeletingRole(final) else RevokingTokens(final, todo)
  }

  function Named(l: Option<LeaseId>): set<LeaseId> {
    if l.Some? then {l.value} else {}
  }

  // ---- the events of a running thread --------------------------------------------------------

  function DoAcquire(w: World, t: Tid, th: Thread): Option<World>
    requires t in w.threads && w.threads[t] == th
  {
    if th.pc.Waiting? && th.db !in w.locks
    then Some(Goto(w.(locks := w.locks[th.db := t]), t, Entering)) else None
  }

  function DoGiveUp(w: World, t: Tid, th: Thread): Option<World>
    requires t in w.threads && w.threads[t] == th
  {
    if th.pc.Waiting? then Some(w.(threads := w.threads - {t})) else None
  }

  function DoEnter(w: World, t: Tid, th: Thread): Option<World>
    requires t in w.threads && w.threads[t] == th
  {
    var g := th.g;
    if th.pc.Entering?
    then Some(Goto(w.(inflight := w.inflight + {g}), t,
                   match th.op case Issue(_) => Inserting case Revoke => Marking case Reconcile => Rereading))
    else None
  }

  function DoDiscard(w: World, t: Tid, th: Thread): Option<World>
    requires t in w.threads && w.threads[t] == th
  {
    var g := th.g;
    if th.pc.Leaving? then Some(Goto(w.(inflight := w.inflight - {g}), t, Releasing(th.pc.done))) else None
  }

  function DoRelease(w: World, t: Tid, th: Thread): Option<World>
    requires t in w.threads && w.threads[t] == th
  {
    if th.pc.Releasing? then Some(w.(locks := w.locks - {th.db}, threads := w.threads - {t})) else None
  }

  function DoInsertRow(w: World, t: Tid, th: Thread, ok: bool): Option<World>
    requires t in w.threads && w.threads[t] == th
  {
    var g := th.g;
    if !(th.pc.Inserting? && th.op.Issue?) then None
    else if ok && g !in w.store
    then Some(Goto(SetRow(w, g, Row(th.db, th.op.ttl, Issuing, None, None, None, None)), t, WritingRole))
    else Some(Goto(w, t, Leaving(false)))
  }

  function DoWriteRole(w: World, t: Tid, th: Thread, o: Outcome, audited: bool): Option<World>
    requires t in w.threads && w.threads[t] == th
  {
    var g := th.g;
    if !th.pc.WritingRole? then None
    else
      var w' := if Applied(o) then w.(roles := w.roles[g := th.db]) else w;
      Some(Goto(w', t, if o.Done? then CreatingToken else Abandon(audited)))
  }

  function DoCreateToken(w: World, t: Tid, th: Thread, o: Outcome, audited: bool, acc: Accessor): Option<World>
    requires t in w.threads && w.threads[t] == th
  {
    var g := th.g;
    if !(th.pc.CreatingToken? && th.op.Issue?) || acc in w.tokenLog then None
    else
      var w' := if Applied(o) then WithToken(w, acc, Token(g, w.clock, w.clock + TokenTtl(th.op.ttl) as real)) else w;
      Some(Goto(w', t, if o.Done? then StoringAccessor(acc) else Abandon(audited)))
  }

  function DoStoreAccessor(w: World, t: Tid, th: Thread, ok: bool, audited: bool): Option<World>
    requires t in w.threads && w.threads[t] == th
  {
    var g := th.g;
    if !th.pc.StoringAccessor? || g !in w.store then None
    else if ok
    then Some(Goto(SetRow(w, g, w.store[g].(accessor := Some(th.pc.acc))), t, ReadingCreds(th.pc.acc)))
    else Some(Goto(w, t, Abandon(audited)))
  }

  function DoReadCreds(w: World, t: Tid, th: Thread, o: Outcome, audited: bool, cred: LeaseId, random: string, duration: nat): Option<World>
    requires t in w.threads && w.threads[t] == th
  {
    var g := th.g;
    if !(th.pc.ReadingCreds? && th.op.Issue?) then None
    else if o.Rejected? then Some(Goto(w, t, Abandon(audited)))
    else if !(g in w.roles && th.pc.acc in w.tokens && IsSuffix(random)) then None
    else
      var account := Account(w.roles[g], g, random);
      if account in w.accounts then None
      else if o.Partial? then Some(Goto(w.(accounts := w.accounts + {account}), t, Abandon(audited)))
      else if cred in w.leaseLog || !(0 < duration <= th.op.ttl) then None
      else
        var lease := Lease(g, account, th.pc.acc, w.clock, w.clock + duration as real);
        Some(Goto(w.(accounts := w.accounts + {account}, leases := w.leases + {cred},
                     leaseLog := w.leaseLog[cred := lease]),
                  t, if o.Done? then Activating(cred) else Abandon(audited)))
  }

  function DoActivate(w: World, t: Tid, th: Thread, ok: bool, audited: bool): Option<World>
    requires t in w.threads && w.threads[t] == th
  {
    var g := th.g;
    if !th.pc.Activating? || g !in w.store || th.pc.cred !in w.leaseLog then None
    else if ok
    then
      var lease := w.leaseLog[th.pc.cred];
      var row := w.store[g].(status := Active, username := Some(lease.account), lease := Some(th.pc.cred),
                             expires := Some(w.clock + (lease.end - lease.issued)));
      Some(Goto(SetRow(w, g, row), t, Leaving(audited)))
    else Some(Goto(w, t, Abandon(audited)))
  }

  function DoMark(w: World, t: Tid, th: Thread, ok: bool, audited: bool): Option<World>
    requires t in w.threads && w.threads[t] == th
  {
    var g := th.g;
    if !th.pc.Marking? || g !in w.store then None
    else if ok
    then Some(Goto(SetRow(w, g, w.store[g].(status := Revoking)), t,
                   if audited then Fetching(Revoked) else Leaving(false)))
    else Some(Goto(w, t, Leaving(false)))
  }

  function DoReread(w: World, t: Tid, th: Thread, ok: bool): Option<World>
    requires t in w.threads && w.threads[t] == th
  {
    var g := th.g;
    if !th.pc.Rereading? || g !in w.store then None
    else if !ok then Some(Goto(w, t, Leaving(false)))
    else
      var final := FinalFor(w.store[g], w.clock);
      Some(Goto(w, t, if final.Some? then Fetching(final.value) else Leaving(true)))
  }

  function DoFetch(w: World, t: Tid, th: Thread, ok: bool): Option<World>
    requires t in w.threads && w.threads[t] == th
  {
    var g := th.g;
    if !th.pc.Fetching? || g !in w.store then None
    else if !ok then Some(Goto(w, t, Leaving(false)))
    else
      var row := w.store[g];
      Some(Goto(w, t, if row.accessor.Some? then Finding(Td(th.pc.final, {row.accessor.value}, row.lease))
                      else Scanning(th.pc.final, row.lease)))
  }

  function DoScanTokens(w: World, t: Tid, th: Thread, ok: bool): Option<World>
    requires t in w.threads && w.threads[t] == th
  {
    var g := th.g;
    if !th.pc.Scanning? then None
    else Some(Goto(w, t, if ok then Finding(Td(th.pc.final, Scanned(w, g), th.pc.lease)) else Failing))
  }

  function DoFindAccounts(w: World, t: Tid, th: Thread, ok: bool): Option<World>
    requires t in w.threads && w.threads[t] == th
  {
    var g := th.g;
    if !th.pc.Finding? then None
    else Some(Goto(w, t, if ok then LockOutPc(th.pc.td, Found(w, th.db, g)) else Failing))
  }

  function DoLockOut(w: World, t: Tid, th: Thread, account: Account, ok: bool): Option<World>
    requires t in w.threads && w.threads[t] == th
  {
    if !(th.pc.LockingOut? && account in th.pc.accounts) then None
    else Some(Goto(w, t, if ok && ValidAccount(NameOf(account)) then LockOutPc(th.pc.td, th.pc.accounts - {account})
                         else Failing))
  }

  function DoListLeases(w: World, t: Tid, th: Thread, ok: bool): Option<World>
    requires t in w.threads && w.threads[t] == th
  {
    var g := th.g;
    if !th.pc.Listing? then None
    else Some(Goto(w, t, if ok then LeasePc(th.pc.td, LeasesOf(w, g) + Named(th.pc.td.lease)) else Failing))
  }

  function DoRevokeLease(w: World, t: Tid, th: Thread, cred: LeaseId, o: Outcome): Option<World>
    requires t in w.threads && w.threads[t] == th
  {
    if !(th.pc.RevokingLeases? && cred in th.pc.leases) then None
    else
      var w' := if Applied(o) then KillLeases(w, {cred})
                else if o.Partial? then w.(accounts := w.accounts - Doomed(w, {cred}))
                else w;
      Some(Goto(w', t, if o.Done? then LeasePc(th.pc.td, th.pc.leases - {cred}) else Failing))
  }

  function DoFindAgain(w: World, t: Tid, th: Thread, ok: bool): Option<World>
    requires t in w.threads && w.threads[t] == th
  {
    var g := th.g;
    if !th.pc.FindingAgain? then None
    else Some(Goto(w, t, if ok then DropPc(th.pc.td, Found(w, th.db, g)) else Failing))
  }

  function DoDrop(w: World, t: Tid, th: Thread, account: Account, o: Outcome): Option<World>
    requires t in w.threads && w.threads[t] == th
  {
    if !(th.pc.Dropping? && account in th.pc.accounts) then None
    else if !ValidAccount(NameOf(account)) then Some(Goto(w, t, Failing))
    else
      var w' := if Applied(o) then w.(accounts := w.accounts - {account}) else w;
      Some(Goto(w', t, if o.Done? then DropPc(th.pc.td, th.pc.accounts - {account}) else Failing))
  }

  function DoConfirm(w: World, t: Tid, th: Thread, ok: bool): Option<World>
    requires t in w.threads && w.threads[t] == th
  {
    var g := th.g;
    if !th.pc.Confirming? then None
    else Some(Goto(w, t, if ok && Found(w, th.db, g) == {} then TokenPc(th.pc.td.final, th.pc.td.accs) else Failing))
  }

  function DoRevokeToken(w: World, t: Tid, th: Thread, acc: Accessor, o: Outcome): Option<World>
    requires t in w.threads && w.threads[t] == th
  {
    if !(th.pc.RevokingTokens? && acc in th.pc.accs) then None
    else
      var w' := if Applied(o) then KillToken(w, acc, LeasesByToken(w, acc)) else w;
      Some(Goto(w', t, if o.Done? then TokenPc(th.pc.final, th.pc.accs - {acc}) else Failing))
  }

  function DoDeleteRole(w: World, t: Tid, th: Thread, o: Outcome): Option<World>
    requires t in w.threads && w.threads[t] == th
  {
    var g := th.g;
    if !th.pc.DeletingRole? then None
    else
      var w' := if Applied(o) then w.(roles := w.roles - {g}) else w;
      Some(Goto(w', t, if o.Done? then Finishing(th.pc.final) else Failing))
  }

  function DoFinish(w: World, t: Tid, th: Thread, ok: bool, audited: bool): Option<World>
    requires t in w.threads && w.threads[t] == th
  {
    var g := th.g;
    if !th.pc.Finishing? || g !in w.store then None
    else if ok
    then Some(Goto(SetRow(w, g, w.store[g].(status := th.pc.final)), t, Leaving(audited && !th.op.Issue?)))
    else Some(Goto(w, t, Leaving(false)))
  }

  function DoMarkFailed(w: World, t: Tid, th: Thread, ok: bool): Option<World>
    requires t in w.threads && w.threads[t] == th
  {
    var g := th.g;
    if !th.pc.Failing? || g !in w.store then None
    else Some(Goto(if ok then SetRow(w, g, w.store[g].(status := Revoking)) else w, t, Leaving(false)))
  }

  /** One step of a thread that is already running. */
  function Act(w: World, th: Thread, e: Event): Option<World>
    requires OfThread(e) && !Starts(e) && e.t in w.threads && w.threads[e.t] == th
  {
    match e
    case Acquire(t) => DoAcquire(w, t, th)
    case GiveUp(t) => DoGiveUp(w, t, th)
    case Enter(t) => DoEnter(w, t, th)
    case Discard(t) => DoDiscard(w, t, th)
    case Release(t) => DoRelease(w, t, th)
    case InsertRow(t, ok) => DoInsertRow(w, t, th, ok)
    case WriteRole(t, o, audited) => DoWriteRole(w, t, th, o, audited)
    case CreateToken(t, o, audited, acc) => DoCreateToken(w, t, th, o, audited, acc)
    case StoreAccessor(t, ok, audited) => DoStoreAccessor(w, t, th, ok, audited)
    case ReadCreds(t, o, audited, cred, random, duration) => DoReadCreds(w, t, th, o, audited, cred, random, duration)
    case Activate(t, ok, audited) => DoActivate(w, t, th, ok, audited)
    case Mark(t, ok, audited) => DoMark(w, t, th, ok, audited)
    case Reread(t, ok) => DoReread(w, t, th, ok)
    case Fetch(t, ok) => DoFetch(w, t, th, ok)
    case ScanTokens(t, ok) => DoScanTokens(w, t, th, ok)
    case FindAccounts(t, ok) => DoFindAccounts(w, t, th, ok)
    case LockOut(t, account, ok) => DoLockOut(w, t, th, account, ok)
    case ListLeases(t, ok) => DoListLeases(w, t, th, ok)
    case RevokeLease(t, cred, o) => DoRevokeLease(w, t, th, cred, o)
    case FindAgain(t, ok) => DoFindAgain(w, t, th, ok)
    case Drop(t, account, o) => DoDrop(w, t, th, account, o)
    case Confirm(t, ok) => DoConfirm(w, t, th, ok)
    case RevokeToken(t, acc, o) => DoRevokeToken(w, t, th, acc, o)
    case DeleteRole(t, o) => DoDeleteRole(w, t, th, o)
    case Finish(t, ok, audited) => DoFinish(w, t, th, ok, audited)
    case MarkFailed(t, ok) => DoMarkFailed(w, t, th, ok)
  }

  /** A request or the reconciler takes up a grant. */
  function Start(w: World, e: Event): Option<World>
    requires Starts(e)
  {
    match e
    case StartIssue(t, g, db, ttl) =>
      if t !in w.threads && IsGrantId(g) && TTL_MIN <= ttl <= TTL_MAX
      then Some(w.(threads := w.threads[t := Thread(Issue(ttl), g, db, Waiting)])) else None
    case StartRevoke(t, g) =>
      if t !in w.threads && g in w.store && !Terminal(w.store[g].status)
      then Some(w.(threads := w.threads[t := Thread(Revoke, g, w.store[g].db, Waiting)])) else None
    case StartReconcile(t, g) =>
      if t !in w.threads && g in w.store
      then Some(w.(threads := w.threads[t := Thread(Reconcile, g, w.store[g].db, Waiting)])) else None
  }

  /** What Vault, time and a crash do. */
  function Outer(w: World, e: Event): Option<World>
    requires !OfThread(e)
  {
    match e
    case ExpireLease(cred, recorded) =>
      if cred in w.leases && cred in w.leaseLog
         && (w.clock >= w.leaseLog[cred].end || w.leaseLog[cred].token !in w.tokens)
      then Some(if recorded then KillLeases(w, {cred}) else w.(accounts := w.accounts - Doomed(w, {cred}))) else None
    case ExpireToken(acc, kill) =>
      if acc in w.tokens && acc in w.tokenLog && w.clock >= w.tokenLog[acc].end && kill <= LeasesByToken(w, acc)
      then Some(KillToken(w, acc, kill)) else None
    case Tick(d) =>
      if d >= 0.0 then Some(w.(clock := w.clock + d)) else None
    case Crash =>
      Some(w.(threads := map[], locks := map[], inflight := {}))
  }

  function Next(w: World, e: Event): Option<World> {
    if !OfThread(e) then Outer(w, e)
    else if Starts(e) then Start(w, e)
    else if e.t in w.threads then Act(w, w.threads[e.t], e)
    else None
  }

  predicate Initial(w: World) {
    && w.store == map[] && w.roles == map[] && w.tokens == {} && w.tokenLog == map[]
    && w.leases == {} && w.leaseLog == map[] && w.accounts == {}
    && w.locks == map[] && w.inflight == {} && w.threads == map[]
  }

  function Run(w: World, es: seq<Event>): Option<World>
    decreases |es|
  {
    if es == [] then Some(w)
    else
      var next := Next(w, es[0]);
      if next.None? then None else Run(next.value, es[1..])
  }

  ghost predicate Reachable(w: World) {
    exists start, es :: Initial(start) && Run(start, es) == Some(w)
  }
}
