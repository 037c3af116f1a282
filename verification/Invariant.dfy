/** The inductive invariant of the grant lifecycle, stated grant by grant and thread by thread. */
module Invariant {
  import opened Names
  import opened Wrappers
  import opened Protocol

  // ---- what belongs to one grant -------------------------------------------------------------

  function TokensOf(w: World, g: GrantId): set<Accessor> {
    set a | a in w.tokens && a in w.tokenLog && w.tokenLog[a].tag == g
  }

  function TokensEver(w: World, g: GrantId): set<Accessor> {
    set a | a in w.tokenLog && w.tokenLog[a].tag == g
  }

  function LeasesEver(w: World, g: GrantId): set<LeaseId> {
    set l | l in w.leaseLog && w.leaseLog[l].role == g
  }

  function AccountsOf(w: World, g: GrantId): set<Account> {
    set a | a in w.accounts && a.grant == g
  }

  /** No role, token, lease or account of `g` exists. */
  predicate Gone(w: World, g: GrantId) {
    g !in w.roles && TokensOf(w, g) == {} && LeasesOf(w, g) == {} && AccountsOf(w, g) == {}
  }

  // ---- per grant -----------------------------------------------------------------------------

  /** Until its lease or its token runs out, everything of the grant is in place. */
  predicate Alive(w: World, g: GrantId, l: LeaseId, a: Accessor) {
    && l in w.leaseLog && w.leaseLog[l].role == g && w.leaseLog[l].token == a
    && a in w.tokenLog && w.tokenLog[a].tag == g
    && (w.clock < w.leaseLog[l].end && w.clock < w.tokenLog[a].end ==>
          g in w.roles && a in TokensOf(w, g) && l in LeasesOf(w, g)
          && w.leaseLog[l].account in AccountsOf(w, g))
  }

  predicate ActiveRow(w: World, g: GrantId)
    requires g in w.store
  {
    var row := w.store[g];
    && row.lease.Some? && row.accessor.Some? && row.expires.Some?
    && Alive(w, g, row.lease.value, row.accessor.value)
    && row.username == Some(w.leaseLog[row.lease.value].account)
    && var lease := w.leaseLog[row.lease.value];
    && lease.end <= row.expires.value <= w.clock + (lease.end - lease.issued)
  }

  predicate RowInv(w: World, g: GrantId)
    requires g in w.store
  {
    var row := w.store[g];
    && IsGrantId(g) && TTL_MIN <= row.ttl <= TTL_MAX
    && (row.accessor.Some? ==> TokensEver(w, g) == {row.accessor.value})
    && (row.lease.Some? ==> LeasesEver(w, g) == {row.lease.value})
    && (row.status.Active? ==> ActiveRow(w, g))
  }

  predicate GrantInv(w: World, g: GrantId) {
    && (g in w.store ==> RowInv(w, g))
    && (!Gone(w, g) ==> g in w.store && !Terminal(w.store[g].status))
    && (TokensOf(w, g) != {} || LeasesOf(w, g) != {} || AccountsOf(w, g) != {} ==> g in w.roles)
    && (g in w.roles && g in w.store ==> w.roles[g] == w.store[g].db)
    && (forall a :: a in AccountsOf(w, g) && g in w.store ==> a.db == w.store[g].db && IsSuffix(a.random))
  }

  // ---- the two logs --------------------------------------------------------------------------

  predicate TokenInv(w: World, a: Accessor)
    requires a in w.tokenLog
  {
    var token := w.tokenLog[a];
    && IsGrantId(token.tag) && token.tag in w.store
    && token.end == token.created + TokenTtl(w.store[token.tag].ttl) as real
  }

  predicate LeaseInv(w: World, l: LeaseId)
    requires l in w.leaseLog
  {
    var lease := w.leaseLog[l];
    && lease.account.grant == lease.role && lease.role in w.store && lease.account.db == w.store[lease.role].db
    && lease.token in w.tokenLog && w.tokenLog[lease.token].tag == lease.role
    && lease.issued <= w.clock && lease.issued < lease.end <= lease.issued + w.store[lease.role].ttl as real
  }

  predicate LogInv(w: World) {
    && w.tokens <= w.tokenLog.Keys && w.leases <= w.leaseLog.Keys
    && (forall a {:trigger TokenInv(w, a)} :: a in w.tokenLog ==> TokenInv(w, a))
    && (forall l {:trigger LeaseInv(w, l)} :: l in w.leaseLog ==> LeaseInv(w, l))
  }

  // ---- locks ---------------------------------------------------------------------------------

  predicate Holds(pc: Pc) {
    !pc.Waiting?
  }

  predicate InSection(pc: Pc) {
    !pc.Waiting? && !pc.Entering? && !pc.Releasing?
  }

  ghost predicate LockInv(w: World) {
    && (forall db :: db in w.locks ==>
          w.locks[db] in w.threads && w.threads[w.locks[db]].db == db && Holds(w.threads[w.locks[db]].pc))
    && (forall t :: t in w.threads && Holds(w.threads[t].pc) ==>
          w.threads[t].db in w.locks && w.locks[w.threads[t].db] == t)
    && (forall g :: g in w.inflight ==>
          exists t :: t in w.threads && w.threads[t].g == g && InSection(w.threads[t].pc))
  }

  // ---- per thread ----------------------------------------------------------------------------

  predicate Own(w: World, th: Thread) {
    th.g in w.store && w.store[th.g].db == th.db
  }

  /** A teardown that ends in `final` is called for by the row as it stands. */
  predicate Due(w: World, g: GrantId, final: Status)
    requires g in w.store
  {
    FinalFor(w.store[g], w.clock) == Some(final)
  }

  /** No account, and no lease ever, for `g`. */
  predicate Untouched(w: World, g: GrantId) {
    LeasesEver(w, g) == {} && AccountsOf(w, g) == {}
  }

  predicate Proper(g: GrantId, todo: set<Account>) {
    forall a :: a in todo ==> a.grant == g && IsSuffix(a.random)
  }

  predicate TdInv(w: World, th: Thread, td: Td)
    requires Own(w, th)
  {
    && Due(w, th.g, td.final) && TokensOf(w, th.g) <= td.accs <= TokensEver(w, th.g)
    && td.lease == w.store[th.g].lease
  }

  predicate IssueInv(w: World, th: Thread)
    requires Own(w, th)
  {
    var g, row := th.g, w.store[th.g];
    match th.pc
    case WritingRole =>
      row.status.Issuing? && row.accessor.None? && row.lease.None? && TokensEver(w, g) == {} && Untouched(w, g)
    case CreatingToken =>
      row.status.Issuing? && row.accessor.None? && row.lease.None? && TokensEver(w, g) == {} && Untouched(w, g)
      && g in w.roles
    case StoringAccessor(a) =>
      row.status.Issuing? && row.accessor.None? && row.lease.None? && TokensEver(w, g) == {a} && Untouched(w, g)
      && g in w.roles
    case ReadingCreds(a) =>
      row.status.Issuing? && row.accessor == Some(a) && row.lease.None? && a in w.tokenLog
      && w.tokenLog[a].tag == g && Untouched(w, g) && g in w.roles
    case Activating(l) =>
      row.status.Issuing? && row.accessor.Some? && row.lease.None? && LeasesEver(w, g) == {l} && g in w.roles
      && Alive(w, g, l, row.accessor.value)
    case _ => true
  }

  predicate TeardownInv(w: World, th: Thread)
    requires Own(w, th)
  {
    var g, row := th.g, w.store[th.g];
    match th.pc
    case Fetching(final) => Due(w, g, final)
    case Scanning(final, lease) => Due(w, g, final) && row.accessor.None? && lease == row.lease
    case Finding(td) => TdInv(w, th, td)
    case LockingOut(td, todo) => TdInv(w, th, td) && Proper(g, todo)
    case Listing(td) => TdInv(w, th, td)
    case RevokingLeases(td, todo) => TdInv(w, th, td) && LeasesOf(w, g) <= todo <= LeasesEver(w, g)
    case FindingAgain(td) => TdInv(w, th, td) && LeasesOf(w, g) == {}
    case Dropping(td, todo) =>
      TdInv(w, th, td) && LeasesOf(w, g) == {} && AccountsOf(w, g) <= todo && Proper(g, todo)
    case Confirming(td) => TdInv(w, th, td) && LeasesOf(w, g) == {} && AccountsOf(w, g) == {}
    case RevokingTokens(final, todo) =>
      Due(w, g, final) && LeasesOf(w, g) == {} && AccountsOf(w, g) == {}
      && TokensOf(w, g) <= todo <= TokensEver(w, g)
    case DeletingRole(final) =>
      Due(w, g, final) && LeasesOf(w, g) == {} && AccountsOf(w, g) == {} && TokensOf(w, g) == {}
    case Finishing(final) => Due(w, g, final) && Gone(w, g)
    case Failing => FinalFor(row, w.clock).Some?
    case _ => true
  }

  /** What a finished operation leaves behind, for as long as it holds the lock. */
  predicate DoneInv(w: World, th: Thread)
    requires Own(w, th)
  {
    match th.op
    case Issue(_) => w.store[th.g].status.Active?
    case Revoke => w.store[th.g].status.Revoked?
    case Reconcile => !w.store[th.g].status.Issuing? && !w.store[th.g].status.Revoking?
  }

  predicate Finished(pc: Pc) {
    (pc.Leaving? || pc.Releasing?) && pc.done
  }

  /** Program points whose thread relies on what it knows about its grant. */
  predicate Engaged(pc: Pc) {
    !pc.Waiting? && !pc.Entering? && !pc.Inserting? && (pc.Leaving? || pc.Releasing? ==> pc.done)
  }

  predicate IssueOnly(pc: Pc) {
    pc.Inserting? || pc.WritingRole? || pc.CreatingToken? || pc.StoringAccessor? || pc.ReadingCreds? || pc.Activating?
  }

  predicate ThreadInv(w: World, th: Thread) {
    && IsGrantId(th.g)
    && (th.op.Issue? ==> TTL_MIN <= th.op.ttl <= TTL_MAX)
    && (IssueOnly(th.pc) ==> th.op.Issue?)
    && (th.pc.Marking? ==> th.op.Revoke?)
    && (th.pc.Rereading? ==> th.op.Reconcile?)
    && (Engaged(th.pc) || !th.op.Issue? ==> Own(w, th))
    && (IssueOnly(th.pc) && !th.pc.Inserting? ==> w.store[th.g].ttl == th.op.ttl && IssueInv(w, th))
    && (Engaged(th.pc) ==> TeardownInv(w, th))
    && (Finished(th.pc) ==> DoneInv(w, th))
    && (FinalOf(th.pc).Some? ==> FinalFits(th.op, FinalOf(th.pc).value))
    && WorkLeft(th.pc)
  }

  /** A thread inside one of the loops has something left to do there. */
  predicate WorkLeft(pc: Pc) {
    match pc
    case LockingOut(_, todo) => todo != {}
    case RevokingLeases(_, todo) => todo != {}
    case Dropping(_, todo) => todo != {}
    case RevokingTokens(_, todo) => todo != {}
    case _ => true
  }

  function FinalOf(pc: Pc): Option<Status> {
    match pc
    case Fetching(final) => Some(final)
    case Scanning(final, _) => Some(final)
    case Finding(td) => Some(td.final)
    case LockingOut(td, _) => Some(td.final)
    case Listing(td) => Some(td.final)
    case RevokingLeases(td, _) => Some(td.final)
    case FindingAgain(td) => Some(td.final)
    case Dropping(td, _) => Some(td.final)
    case Confirming(td) => Some(td.final)
    case RevokingTokens(final, _) => Some(final)
    case DeletingRole(final) => Some(final)
    case Finishing(final) => Some(final)
    case _ => None
  }

  /** An issue tears down only to fail, a revoke only to revoke. */
  predicate FinalFits(op: Op, final: Status) {
    (op.Issue? ==> final.Failed?) && (op.Revoke? ==> final.Revoked?) && Terminal(final)
  }

  ghost predicate Inv(w: World) {
    && LogInv(w) && LockInv(w)
    && (forall g :: GrantInv(w, g))
    && (forall t {:trigger ThreadInv(w, w.threads[t])} :: t in w.threads ==> ThreadInv(w, w.threads[t]))
  }

  // ---- frames --------------------------------------------------------------------------------

  /** Nothing of grant `h` differs between the two worlds. */
  predicate SameGrant(w: World, w': World, h: GrantId) {
    && (h in w.store <==> h in w'.store) && (h in w.store ==> w.store[h] == w'.store[h])
    && (h in w.roles <==> h in w'.roles) && (h in w.roles ==> w.roles[h] == w'.roles[h])
    && TokensOf(w, h) == TokensOf(w', h) && TokensEver(w, h) == TokensEver(w', h)
    && LeasesOf(w, h) == LeasesOf(w', h) && LeasesEver(w, h) == LeasesEver(w', h)
    && AccountsOf(w, h) == AccountsOf(w', h)
  }

  /** Between the two worlds nothing changes but what belongs to `g`. */
  ghost predicate OnlyOwn(w: World, w': World, g: GrantId) {
    forall h :: h != g ==> SameGrant(w, w', h)
  }

  predicate Allowed(a: Status, b: Status) {
    || a == b
    || (a.Issuing? && (b.Active? || b.Failed? || b.Revoking?))
    || (a.Active? && (b.Expired? || b.Revoking?))
    || (a.Revoking? && b.Revoked?)
    || (Terminal(a) && b.Revoking?)
  }

  /** Program points whose call creates something. */
  predicate Creates(pc: Pc) {
    pc.WritingRole? || pc.CreatingToken? || pc.ReadingCreds?
  }

  predicate NothingNew(w: World, w': World, g: GrantId) {
    && (g in w'.roles ==> g in w.roles)
    && TokensOf(w', g) <= TokensOf(w, g) && LeasesOf(w', g) <= LeasesOf(w, g)
    && AccountsOf(w', g) <= AccountsOf(w, g)
  }

  /** What a call of thread `t` inside its section can do: move `t`, and change its own grant, whose
    * row follows the status order and gains resources at three program points only. */
  ghost predicate Acted(w: World, w': World, t: Tid) {
    && t in w.threads && t in w'.threads && w'.threads == w.threads[t := w'.threads[t]]
    && var th, th' := w.threads[t], w'.threads[t];
    && th' == th.(pc := th'.pc) && Holds(th.pc)
    && Holds(th'.pc) && !th'.pc.Entering? && !th'.pc.Marking?
    && w'.locks == w.locks && w'.clock == w.clock && w'.inflight == w.inflight
    && LogsGrow(w, w') && OnlyOwn(w, w', th.g)
    && (th.g in w.store && !Own(w, th) ==> SameGrant(w, w', th.g))
    && (Creates(th.pc) || NothingNew(w, w', th.g))
    && (th.pc.WritingRole? || th.pc.DeletingRole? || w'.roles == w.roles)
    && (th.g !in w.store && th.g in w'.store ==> th.pc.Inserting? && w'.store[th.g].status.Issuing?)
    && (th.g in w.store ==>
          && th.g in w'.store && w'.store[th.g].db == w.store[th.g].db && w'.store[th.g].ttl == w.store[th.g].ttl
          && Allowed(w.store[th.g].status, w'.store[th.g].status)
          && (w'.store[th.g] == w.store[th.g] || th.pc.Marking? || (Engaged(th.pc) && !Terminal(w.store[th.g].status))))
  }

  predicate LogsGrow(w: World, w': World) {
    && (forall a :: a in w.tokenLog ==> a in w'.tokenLog && w'.tokenLog[a] == w.tokenLog[a])
    && (forall l :: l in w.leaseLog ==> l in w'.leaseLog && w'.leaseLog[l] == w.leaseLog[l])
  }

  /** A step of thread `t` inside its section: it touches its own grant only. */
  ghost predicate Local(w: World, w': World, t: Tid, th': Thread) {
    && t in w.threads
    && var th := w.threads[t];
    && th'.g == th.g && th'.db == th.db && th'.op == th.op
    && Holds(th.pc) && Holds(th'.pc) && (InSection(th.pc) ==> InSection(th'.pc))
    && w'.threads == w.threads[t := th'] && w'.locks == w.locks && w'.inflight == w.inflight
    && w'.clock == w.clock
    && LogsGrow(w, w')
    && OnlyOwn(w, w', th.g)
    && (th.g in w.store ==> th.g in w'.store && w'.store[th.g].db == w.store[th.g].db)
  }
}
